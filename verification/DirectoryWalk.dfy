/** The walk to a directory no Worker could have diverted
    (src/grok-sandbox.js:57-121), against pathname resolution, section 4.13 of the
    Base Definitions of POSIX.1-2017. A link's target is resolved there as a
    pathname of its own, and what follows the link afterwards from where it leads;
    the walk instead puts the target in front of what is left. */
module DirectoryWalk {
  import opened Wrappers

  /** The names from the root down. */
  type Path = seq<string>

  datatype Entry = Directory(owner: nat, mode: bv16) | Link(owner: nat, target: string) | File(owner: nat)

  /** A file tree: what each path that leads through directories alone names. */
  type Tree = map<Path, Entry>

  const MAX_LINKS := 40

  // ----- Names -----

  predicate IsName(name: string) { name != "" && name != "." && '/' !in name }

  function Split(s: string): (parts: seq<string>)
    ensures |parts| > 0 && forall part | part in parts :: '/' !in part
  {
    if s == "" then [""]
    else
      var rest := Split(s[1..]);
      if s[0] == '/' then [""] + rest else [[s[0]] + rest[0]] + rest[1..]
  }

  function Kept(parts: seq<string>): (names: seq<string>)
    ensures forall name | name in names :: name in parts && name != "" && name != "."
  {
    if parts == [] then [] else (if parts[0] in ["", "."] then [] else [parts[0]]) + Kept(parts[1..])
  }

  function Components(path: string): (names: seq<string>)
    ensures forall name | name in names :: IsName(name)
  {
    Kept(Split(path))
  }

  predicate IsAbsolute(path: string) { path != "" && path[0] == '/' }

  function SpellBelow(names: Path): string {
    if names == [] then "" else "/" + names[0] + SpellBelow(names[1..])
  }

  /** A path as a string. */
  function Spell(names: Path): string { if names == [] then "/" else SpellBelow(names) }

  lemma {:induction false} SplitAfterName(name: string, rest: string)
    requires '/' !in name && (rest == "" || rest[0] == '/')
    ensures Split(name + rest) == [name] + Split(rest)[1..] && Split(rest)[0] == ""
  {
    if name == "" {
      assert name + rest == rest;
    } else {
      assert (name + rest)[1..] == name[1..] + rest;
      SplitAfterName(name[1..], rest);
      assert [name[0]] + name[1..] == name;
    }
  }

  lemma {:induction false} SplitSpelled(names: Path)
    requires forall name | name in names :: IsName(name)
    ensures Split(SpellBelow(names)) == [""] + names
  {
    if names != [] {
      var below := SpellBelow(names[1..]);
      SplitSpelled(names[1..]);
      assert names[0] in names;
      SplitAfterName(names[0], below);
      assert SpellBelow(names)[1..] == names[0] + below;
      assert [""] + ([names[0]] + names[1..]) == [""] + names;
    }
  }

  lemma {:induction false} KeptNames(names: Path)
    requires forall name | name in names :: IsName(name)
    ensures Kept(names) == names
  {
    if names != [] {
      assert names[0] in names;
      KeptNames(names[1..]);
    }
  }

  /** A path's string splits into the path again. */
  lemma SpellingRoundTrips(names: Path)
    requires forall name | name in names :: IsName(name)
    ensures Components(Spell(names)) == names
  {
    KeptNames(names);
    if names == [] {
      assert Split("/") == ["", ""];
    } else {
      SplitSpelled(names);
      assert ([""] + names)[1..] == names;
    }
  }

  lemma SplitNothing()
    ensures Split("") == [""]
  {}

  lemma SplitFirst(c: char, rest: string)
    ensures Split([c] + rest) ==
              if c == '/' then [""] + Split(rest) else [[c] + Split(rest)[0]] + Split(rest)[1..]
  {
    assert ([c] + rest)[1..] == rest;
  }

  lemma {:induction false} SplitJoined(a: string, b: string)
    ensures Split(a + "/" + b) == Split(a) + Split(b)
  {
    hide Split;
    if a == "" {
      assert a + "/" + b == ['/'] + b;
      SplitFirst('/', b);
      SplitNothing();
    } else {
      var rest := a[1..];
      assert a == [a[0]] + rest && a + "/" + b == [a[0]] + (rest + "/" + b);
      SplitJoined(rest, b);
      SplitFirst(a[0], rest);
      SplitFirst(a[0], rest + "/" + b);
    }
  }

  lemma {:induction false} KeptJoined(a: seq<string>, b: seq<string>)
    ensures Kept(a + b) == Kept(a) + Kept(b)
  {
    if a == [] {
      assert a + b == b;
    } else {
      assert (a + b)[1..] == a[1..] + b;
      KeptJoined(a[1..], b);
    }
  }

  /** What the names of a path are: those of its two halves at any slash, a name alone
      itself, and none of the empty string and the dot. */
  lemma ComponentsExactly(a: string, b: string, name: string)
    ensures Components(a + "/" + b) == Components(a) + Components(b)
    ensures Components("") == [] && Components(".") == []
    ensures name != "" && name != "." && '/' !in name ==> Components(name) == [name]
  {
    SplitJoined(a, b);
    KeptJoined(Split(a), Split(b));
    DotIsNone();
    if name != "" && name != "." && '/' !in name {
      SplitAfterName(name, "");
      assert name + "" == name;
      assert Split("")[1..] == [];
      KeptNames([name]);
    }
  }

  lemma DotIsNone()
    ensures Components("") == [] && Components(".") == []
  {
    assert "." == ['.'] + "";
    SplitFirst('.', "");
    assert ["."][1..] == [] && [""][1..] == [];
  }

  // ----- Trees -----

  predicate IsDirectory(t: Tree, p: Path) { p in t && t[p].Directory? }

  function Parent(p: Path): Path { if p == [] then [] else p[..|p| - 1] }

  ghost predicate IsTree(t: Tree) {
    && IsDirectory(t, [])
    && forall p {:trigger Parent(p)} | p in t && p != [] ::
         IsDirectory(t, Parent(p)) && IsName(p[|p| - 1]) && p[|p| - 1] != ".."
  }

  lemma ParentIs(t: Tree, p: Path)
    requires IsTree(t) && p in t
    ensures IsDirectory(t, Parent(p)) && (p != [] ==> IsName(p[|p| - 1]) && p[|p| - 1] != "..")
  {}

  lemma RootIs(t: Tree)
    requires IsTree(t)
    ensures IsDirectory(t, [])
  {}

  /** Which links a resolution follows: every one, or what rootsLink lets through
      for a daemon of this uid. */
  datatype Rule = EveryLink | RootsLinks(uid: Option<nat>)

  predicate RootsLink(link: Entry, directory: Entry, uid: Option<nat>)
    requires directory.Directory?
  {
    && uid.Some? && uid.value != 0 && link.owner == 0 && directory.owner == 0
    && (directory.mode & 0x12 == 0 || directory.mode & 0x200 != 0)
  }

  /** Only root's links are followed, only by another user, and only where no one but root
      can change the directory's entries: it is root's, and neither its group nor others
      may write it, or it is sticky. */
  lemma FollowsExactly(link: Entry, directory: Entry, uid: Option<nat>)
    requires directory.Directory?
    ensures var mode := directory.mode;
            RootsLink(link, directory, uid) <==>
              && uid !in {None, Some(0)} && link.owner == 0 && directory.owner == 0
              && ((mode & 0x10 == 0 && mode & 0x02 == 0) || mode & 0x200 == 0x200)
  {
    var mode := directory.mode;
    assert mode & 0x12 == 0 <==> mode & 0x10 == 0 && mode & 0x02 == 0;
    assert mode & 0x200 != 0 <==> mode & 0x200 == 0x200;
  }

  predicate Follows(rule: Rule, link: Entry, directory: Entry)
    requires directory.Directory?
  {
    rule.EveryLink? || RootsLink(link, directory, rule.uid)
  }

  datatype Why = Missing | NotADirectory | NotRootsLink | TooManyLinks

  /** Where a resolution ends: in a directory with so many links left to follow, or
      at a component it does not get past. */
  datatype Walked = Reached(dir: Path, left: nat) | Stuck(why: Why, at: Path)

  function Base(dir: Path, target: string): Path { if IsAbsolute(target) then [] else dir }

  function TargetNames(target: string): seq<string> {
    Components(if IsAbsolute(target) then target[1..] else target)
  }

  /** Pathname resolution of names from dir. */
  function Resolve(t: Tree, rule: Rule, dir: Path, names: seq<string>, links: nat): (r: Walked)
    requires IsTree(t) && IsDirectory(t, dir)
    ensures r.Reached? ==> IsDirectory(t, r.dir) && r.left <= links
    decreases links, |names|
  {
    if names == [] then Reached(dir, links)
    else if names[0] == ".." then Resolve(t, rule, Parent(dir), names[1..], links)
    else
      var next := dir + [names[0]];
      if next !in t then Stuck(Missing, next)
      else
        match t[next]
        case Directory(_, _) => Resolve(t, rule, next, names[1..], links)
        case File(_) => Stuck(NotADirectory, next)
        case Link(_, target) =>
          if !Follows(rule, t[next], t[dir]) then Stuck(NotRootsLink, next)
          else if links == 0 then Stuck(TooManyLinks, next)
          else
            var led := Resolve(t, rule, Base(dir, target), TargetNames(target), links - 1);
            if led.Reached? then Resolve(t, rule, led.dir, names[1..], led.left) else led
  }

  /** The links a resolution follows, in order. */
  function Trail(t: Tree, rule: Rule, dir: Path, names: seq<string>, links: nat): seq<Path>
    requires IsTree(t) && IsDirectory(t, dir)
    decreases links, |names|
  {
    if names == [] then []
    else if names[0] == ".." then Trail(t, rule, Parent(dir), names[1..], links)
    else
      var next := dir + [names[0]];
      if next !in t || t[next].File? then []
      else if t[next].Directory? then Trail(t, rule, next, names[1..], links)
      else if !Follows(rule, t[next], t[dir]) || links == 0 then []
      else
        var target := t[next].target;
        var led := Resolve(t, rule, Base(dir, target), TargetNames(target), links - 1);
        [next] + Trail(t, rule, Base(dir, target), TargetNames(target), links - 1) +
        if led.Reached? then Trail(t, rule, led.dir, names[1..], led.left) else []
  }

  // ----- What resolution means -----

  function Then(t: Tree, rule: Rule, first: Walked, names: seq<string>): Walked
    requires IsTree(t) && (first.Reached? ==> IsDirectory(t, first.dir))
  {
    if first.Reached? then Resolve(t, rule, first.dir, names, first.left) else first
  }

  /** A name list resolves part by part: what is put in front is resolved first. */
  lemma {:induction false} ResolveJoins(t: Tree, rule: Rule, dir: Path, a: seq<string>, b: seq<string>, links: nat)
    requires IsTree(t) && IsDirectory(t, dir)
    ensures Resolve(t, rule, dir, a + b, links) == Then(t, rule, Resolve(t, rule, dir, a, links), b)
    decreases links, |a|
  {
    if a == [] {
      assert a + b == b;
    } else {
      assert (a + b)[0] == a[0] && (a + b)[1..] == a[1..] + b;
      var next := dir + [a[0]];
      if a[0] == ".." {
        ResolveJoins(t, rule, Parent(dir), a[1..], b, links);
      } else if next in t && t[next].Directory? {
        ResolveJoins(t, rule, next, a[1..], b, links);
      } else if next in t && t[next].Link? && Follows(rule, t[next], t[dir]) && links > 0 {
        var target := t[next].target;
        var led := Resolve(t, rule, Base(dir, target), TargetNames(target), links - 1);
        if led.Reached? { ResolveJoins(t, rule, led.dir, a[1..], b, led.left); }
      }
    }
  }

  /** Going down and up again changes nothing, and there is nothing above the root. */
  lemma UpAgain(t: Tree, rule: Rule, dir: Path, name: string, rest: seq<string>, links: nat)
    requires IsTree(t) && IsDirectory(t, dir)
    ensures IsDirectory(t, dir + [name]) && name != ".." ==>
              Resolve(t, rule, dir, [name, ".."] + rest, links) == Resolve(t, rule, dir, rest, links)
    ensures IsDirectory(t, []) && Resolve(t, rule, [], [".."] + rest, links) == Resolve(t, rule, [], rest, links)
  {
    assert ([name, ".."] + rest)[1..] == [".."] + rest && ([".."] + rest)[1..] == rest;
    assert Parent(dir + [name]) == dir;
  }

  /** A link is its target put in its place: from the root where that begins with a slash,
      and from the link's directory otherwise. What follows, ".." too, is applied where
      the target leads. */
  lemma LinkIsItsTarget(t: Tree, rule: Rule, dir: Path, name: string, rest: seq<string>, links: nat)
    requires IsTree(t) && IsDirectory(t, dir) && dir + [name] in t && t[dir + [name]].Link? && name != ".." && links > 0
    requires Follows(rule, t[dir + [name]], t[dir])
    ensures IsDirectory(t, [])
    ensures var target := t[dir + [name]].target;
            var from := if target != "" && target[0] == '/' then [] else dir;
            Resolve(t, rule, dir, [name] + rest, links)
              == Resolve(t, rule, from, Components(target) + rest, links - 1)
  {
    hide IsTree, Follows, Components;
    RootIs(t);
    var target := t[dir + [name]].target;
    assert ([name] + rest)[1..] == rest;
    if IsAbsolute(target) {
      assert target == "" + "/" + target[1..];
      ComponentsExactly("", target[1..], "");
      assert [] + Components(target[1..]) == Components(target[1..]);
    }
    ResolveJoins(t, rule, Base(dir, target), TargetNames(target), rest, links - 1);
  }

  lemma {:induction false} DirectoriesAbove(t: Tree, p: Path, k: nat)
    requires IsTree(t) && IsDirectory(t, p) && k <= |p|
    ensures IsDirectory(t, p[..k])
    decreases |p| - k
  {
    if k == |p| {
      assert p[..k] == p;
    } else {
      DirectoriesAbove(t, p, k + 1);
      assert Parent(p[..k + 1]) == p[..k];
    }
  }

  /** A directory's own path leads to it through directories alone. */
  lemma {:induction false} OwnPathReaches(t: Tree, rule: Rule, p: Path, links: nat)
    requires IsTree(t) && IsDirectory(t, p)
    ensures Resolve(t, rule, [], p, links) == Reached(p, links)
    ensures forall k | 0 <= k <= |p| :: IsDirectory(t, p[..k])
  {
    forall k | 0 <= k <= |p| ensures IsDirectory(t, p[..k]) { DirectoriesAbove(t, p, k); }
    if p != [] {
      var above, name := Parent(p), p[|p| - 1];
      assert p == above + [name];
      OwnPathReaches(t, rule, above, links);
      ResolveJoins(t, rule, [], above, [name], links);
      assert [name][0] == name && [name][1..] == [];
      assert Resolve(t, rule, above, [name], links) == Resolve(t, rule, p, [], links);
    }
  }

  /** With more links allowed the same directory is reached. */
  lemma {:induction false} MoreLinks(t: Tree, rule: Rule, dir: Path, names: seq<string>, links: nat, more: nat)
    requires IsTree(t) && IsDirectory(t, dir) && Resolve(t, rule, dir, names, links).Reached?
    ensures var r := Resolve(t, rule, dir, names, links);
            Resolve(t, rule, dir, names, links + more) == Reached(r.dir, r.left + more)
    decreases links, |names|
  {
    hide IsTree, TargetNames, Follows;
    if names != [] {
      ParentIs(t, dir);
      RootIs(t);
      var next := dir + [names[0]];
      if names[0] == ".." {
        MoreLinks(t, rule, Parent(dir), names[1..], links, more);
      } else if t[next].Directory? {
        MoreLinks(t, rule, next, names[1..], links, more);
      } else {
        var target := t[next].target;
        var led := Resolve(t, rule, Base(dir, target), TargetNames(target), links - 1);
        MoreLinks(t, rule, Base(dir, target), TargetNames(target), links - 1, more);
        MoreLinks(t, rule, led.dir, names[1..], led.left, more);
      }
    }
  }

  // Following only root's links meets the same links as following any.
  lemma {:induction false} SameTrail(t: Tree, uid: Option<nat>, dir: Path, names: seq<string>, links: nat)
    requires IsTree(t) && IsDirectory(t, dir) && Resolve(t, RootsLinks(uid), dir, names, links).Reached?
    ensures Resolve(t, EveryLink, dir, names, links) == Resolve(t, RootsLinks(uid), dir, names, links)
    ensures Trail(t, EveryLink, dir, names, links) == Trail(t, RootsLinks(uid), dir, names, links)
    decreases links, |names|
  {
    hide IsTree, TargetNames, RootsLink;
    if names != [] {
      ParentIs(t, dir);
      RootIs(t);
      var next := dir + [names[0]];
      if names[0] == ".." {
        SameTrail(t, uid, Parent(dir), names[1..], links);
      } else if t[next].Directory? {
        SameTrail(t, uid, next, names[1..], links);
      } else {
        var target := t[next].target;
        var led := Resolve(t, RootsLinks(uid), Base(dir, target), TargetNames(target), links - 1);
        SameTrail(t, uid, Base(dir, target), TargetNames(target), links - 1);
        SameTrail(t, uid, led.dir, names[1..], led.left);
      }
    }
  }

  predicate IsRootsLink(t: Tree, p: Path, uid: Option<nat>) {
    p in t && t[p].Link? && IsDirectory(t, Parent(p)) && RootsLink(t[p], t[Parent(p)], uid)
  }

  lemma {:induction false} TrailOfRootsLinks(t: Tree, uid: Option<nat>, dir: Path, names: seq<string>, links: nat)
    requires IsTree(t) && IsDirectory(t, dir) && Resolve(t, RootsLinks(uid), dir, names, links).Reached?
    ensures var trail := Trail(t, RootsLinks(uid), dir, names, links);
            && |trail| == links - Resolve(t, RootsLinks(uid), dir, names, links).left
            && forall p | p in trail :: IsRootsLink(t, p, uid)
    decreases links, |names|
  {
    hide IsTree, TargetNames, RootsLink;
    if names != [] {
      ParentIs(t, dir);
      RootIs(t);
      var next := dir + [names[0]];
      if names[0] == ".." {
        TrailOfRootsLinks(t, uid, Parent(dir), names[1..], links);
      } else if t[next].Directory? {
        TrailOfRootsLinks(t, uid, next, names[1..], links);
      } else {
        assert Parent(next) == dir;
        var target := t[next].target;
        var led := Resolve(t, RootsLinks(uid), Base(dir, target), TargetNames(target), links - 1);
        TrailOfRootsLinks(t, uid, Base(dir, target), TargetNames(target), links - 1);
        TrailOfRootsLinks(t, uid, led.dir, names[1..], led.left);
      }
    }
  }

  /** Following only root's links reaches what following any would, along links
      that only root could have made; with no uid or root's, along none. */
  lemma OnlyRootsLinks(t: Tree, uid: Option<nat>, dir: Path, names: seq<string>, links: nat)
    requires IsTree(t) && IsDirectory(t, dir) && Resolve(t, RootsLinks(uid), dir, names, links).Reached?
    ensures var r, trail := Resolve(t, EveryLink, dir, names, links), Trail(t, EveryLink, dir, names, links);
            && r == Resolve(t, RootsLinks(uid), dir, names, links)
            && |trail| == links - r.left && (forall p | p in trail :: IsRootsLink(t, p, uid))
            && ((uid == None || uid == Some(0)) ==> trail == [])
  {
    SameTrail(t, uid, dir, names, links);
    TrailOfRootsLinks(t, uid, dir, names, links);
    hide Resolve, Trail, IsTree;
    var trail := Trail(t, EveryLink, dir, names, links);
    assert trail != [] ==> trail[0] in trail && IsRootsLink(t, trail[0], uid);
  }

  // ----- Directories the walk makes -----

  /** later is t with directories of this user added where nothing was. */
  ghost predicate Grown(t: Tree, later: Tree, user: nat) {
    forall p :: (p in t ==> p in later && later[p] == t[p])
      && (p in later && p !in t ==> later[p] == Directory(user, 0x1C0))
  }

  lemma MadeDirectory(t: Tree, dir: Path, name: string, user: nat)
    requires IsTree(t) && IsDirectory(t, dir) && IsName(name) && name != ".." && dir + [name] !in t
    ensures var later := t[dir + [name] := Directory(user, 0x1C0)];
            IsTree(later) && Grown(t, later, user)
  {
    var later := t[dir + [name] := Directory(user, 0x1C0)];
    assert Parent(dir + [name]) == dir;
    forall p | p in later && p != [] ensures IsDirectory(later, Parent(p)) && IsName(p[|p| - 1]) && p[|p| - 1] != ".." {
      assert p in t || p == dir + [name];
    }
  }

  /** A resolution that misses nothing does not see the directories added. */
  lemma {:induction false} GrownResolves(t: Tree, later: Tree, user: nat, rule: Rule, dir: Path, names: seq<string>,
      links: nat)
    requires IsTree(t) && IsTree(later) && Grown(t, later, user) && IsDirectory(t, dir)
    requires var r := Resolve(t, rule, dir, names, links); r.Reached? || r.why != Missing
    ensures Resolve(later, rule, dir, names, links) == Resolve(t, rule, dir, names, links)
    decreases links, |names|
  {
    if names != [] {
      var next := dir + [names[0]];
      if names[0] == ".." {
        GrownResolves(t, later, user, rule, Parent(dir), names[1..], links);
      } else if t[next].Directory? {
        GrownResolves(t, later, user, rule, next, names[1..], links);
      } else if t[next].Link? && Follows(rule, t[next], t[dir]) && links > 0 {
        var target := t[next].target;
        var led := Resolve(t, rule, Base(dir, target), TargetNames(target), links - 1);
        GrownResolves(t, later, user, rule, Base(dir, target), TargetNames(target), links - 1);
        if led.Reached? { GrownResolves(t, later, user, rule, led.dir, names[1..], led.left); }
      }
    }
  }

  // ----- The file system a process sees -----

  /** What lstat tells of a path: its last component itself, behind whatever links
      the kernel follows in the others. */
  function Stat(t: Tree, path: Path): Option<Entry>
    requires IsTree(t)
  {
    if path == [] then Some(t[[]])
    else
      var above := Resolve(t, EveryLink, [], path[..|path| - 1], MAX_LINKS);
      var name := path[|path| - 1];
      if above.Reached? && above.dir + [name] in t then Some(t[above.dir + [name]]) else None
  }

  lemma StatBelowDirectory(t: Tree, dir: Path, name: string)
    requires IsTree(t) && IsDirectory(t, dir)
    ensures Stat(t, dir + [name]) == if dir + [name] in t then Some(t[dir + [name]]) else None
    ensures Stat(t, dir) == Some(t[dir])
  {
    OwnPathReaches(t, EveryLink, dir, MAX_LINKS);
    assert (dir + [name])[..|dir + [name]| - 1] == dir;
    if dir != [] {
      OwnPathReaches(t, EveryLink, Parent(dir), MAX_LINKS);
      assert Parent(dir) + [dir[|dir| - 1]] == dir;
    }
  }

  class FileSystem {
    const user: nat
    var tree: Tree

    constructor (user: nat, tree: Tree)
      ensures this.user == user && this.tree == tree
    {
      this.user, this.tree := user, tree;
    }

    method Lstat(path: Path) returns (info: Option<Entry>)
      requires IsTree(tree)
      ensures info == Stat(tree, path)
    {
      info := Stat(tree, path);
    }

    /** mkdir with mode 0700 where lstat found nothing. It may fail. */
    method Mkdir(dir: Path, name: string) returns (made: bool)
      requires IsTree(tree) && IsDirectory(tree, dir) && IsName(name) && name != ".." && dir + [name] !in tree
      modifies this
      ensures tree == if made then old(tree)[dir + [name] := Directory(user, 0x1C0)] else old(tree)
    {
      if * { return false; }
      tree := tree[dir + [name] := Directory(user, 0x1C0)];
      made := true;
    }
  }

  // ----- The walk -----

  datatype Outcome = Real(dir: Path) | Refused(why: Why, at: Path) | NotOwned(dir: Path) | CannotMake(at: Path)

  /** What the walk answers where pathname resolution of names ends as r. */
  function Judged(t: Tree, r: Walked, uid: Option<nat>): Outcome
    requires r.Reached? ==> IsDirectory(t, r.dir)
  {
    match r
    case Stuck(why, at) => Refused(why, at)
    case Reached(dir, _) => if uid.Some? && t[dir].owner != uid.value then NotOwned(dir) else Real(dir)
  }

  /** The walk answers with a directory exactly where resolution reaches it and it is this
      user's, where there is a user to ask for; it refuses one of another's, and passes
      on where resolution was stuck. */
  lemma AnswersExactly(t: Tree, r: Walked, uid: Option<nat>, dir: Path, why: Why)
    requires r.Reached? ==> IsDirectory(t, r.dir)
    ensures Judged(t, r, uid) == Real(dir) <==>
              r.Reached? && r.dir == dir && (uid == None || uid == Some(t[dir].owner))
    ensures Judged(t, r, uid) == NotOwned(dir) <==>
              r.Reached? && r.dir == dir && uid != None && uid != Some(t[dir].owner)
    ensures Judged(t, r, uid) == Refused(why, dir) <==> r == Stuck(why, dir)
  {}

  /** In t and whatever it may grow to, names from the root resolve as rest from
      current does. */
  ghost predicate Continues(t: Tree, user: nat, rule: Rule, names: seq<string>, current: Path, rest: seq<string>,
      left: nat)
    requires IsTree(t) && IsDirectory(t, current)
  {
    forall later: Tree | IsTree(later) && Grown(t, later, user) ::
      Resolve(later, rule, [], names, MAX_LINKS) == Resolve(later, rule, current, rest, left)
  }

  // ".." goes up.
  lemma UpContinues(t: Tree, user: nat, rule: Rule, names: seq<string>, current: Path, rest: seq<string>, left: nat)
    requires IsTree(t) && IsDirectory(t, current) && rest != [] && rest[0] == ".."
    requires Continues(t, user, rule, names, current, rest, left)
    ensures IsDirectory(t, Parent(current)) && Continues(t, user, rule, names, Parent(current), rest[1..], left)
  {
    ParentIs(t, current);
  }

  // A directory is entered.
  lemma IntoContinues(t: Tree, user: nat, rule: Rule, names: seq<string>, current: Path, rest: seq<string>, left: nat)
    requires IsTree(t) && IsDirectory(t, current) && rest != [] && rest[0] != ".."
        && IsDirectory(t, current + [rest[0]])
    requires Continues(t, user, rule, names, current, rest, left)
    ensures Continues(t, user, rule, names, current + [rest[0]], rest[1..], left)
  {}

  // A link's target in front of what is left resolves as the link does.
  lemma SpliceResolves(t: Tree, rule: Rule, current: Path, rest: seq<string>, left: nat)
    requires IsTree(t) && IsDirectory(t, current) && rest != [] && rest[0] != ".." && left > 0
    requires current + [rest[0]] in t && t[current + [rest[0]]].Link?
    requires Follows(rule, t[current + [rest[0]]], t[current])
    ensures var target := t[current + [rest[0]]].target;
            Resolve(t, rule, current, rest, left)
            == Resolve(t, rule, Base(current, target), TargetNames(target) + rest[1..], left - 1)
  {
    hide IsTree, TargetNames, Follows, Components;
    RootIs(t);
    var target := t[current + [rest[0]]].target;
    ResolveJoins(t, rule, Base(current, target), TargetNames(target), rest[1..], left - 1);
  }

  lemma LinkContinues(t: Tree, user: nat, rule: Rule, names: seq<string>, current: Path, rest: seq<string>, left: nat)
    requires IsTree(t) && IsDirectory(t, current) && rest != [] && rest[0] != ".." && left > 0
    requires current + [rest[0]] in t && t[current + [rest[0]]].Link?
    requires Follows(rule, t[current + [rest[0]]], t[current])
    requires Continues(t, user, rule, names, current, rest, left)
    ensures var target := t[current + [rest[0]]].target;
            && IsDirectory(t, Base(current, target))
            && Continues(t, user, rule, names, Base(current, target), TargetNames(target) + rest[1..], left - 1)
  {
    var target := t[current + [rest[0]]].target;
    forall later: Tree | IsTree(later) && Grown(t, later, user)
      ensures Resolve(later, rule, [], names, MAX_LINKS)
           == Resolve(later, rule, Base(current, target), TargetNames(target) + rest[1..], left - 1)
    {
      SpliceResolves(later, rule, current, rest, left);
    }
  }

  // Where the walk stands tells how resolution ends on the tree as it is.
  lemma EndsHere(t: Tree, user: nat, rule: Rule, names: seq<string>, current: Path, rest: seq<string>, left: nat)
    requires IsTree(t) && IsDirectory(t, current) && Continues(t, user, rule, names, current, rest, left)
    ensures var r := Resolve(t, rule, [], names, MAX_LINKS);
            && (rest == [] ==> r == Reached(current, left))
            && (rest != [] && rest[0] != ".." ==>
                  var next := current + [rest[0]];
                  && (next !in t ==> r == Stuck(Missing, next))
                  && (next in t && t[next].File? ==> r == Stuck(NotADirectory, next))
                  && (next in t && t[next].Link? && !Follows(rule, t[next], t[current]) ==>
                    r == Stuck(NotRootsLink, next))
                  && (next in t && t[next].Link? && Follows(rule, t[next], t[current]) && left == 0 ==>
                        r == Stuck(TooManyLinks, next)))
  {
    assert Grown(t, t, user);
    assert Resolve(t, rule, [], names, MAX_LINKS) == Resolve(t, rule, current, rest, left);
  }

  /** The tree is as it was, unless resolution missed something in it. */
  ghost predicate MadeForMissing(before: Tree, now: Tree, rule: Rule, names: seq<string>)
    requires IsTree(before)
  {
    var r := Resolve(before, rule, [], names, MAX_LINKS);
    r.Reached? || r.why != Missing ==> now == before
  }

  lemma ContinuesGrown(t: Tree, made: Tree, user: nat, rule: Rule, names: seq<string>, current: Path,
      rest: seq<string>, left: nat)
    requires IsTree(t) && IsTree(made) && Grown(t, made, user) && IsDirectory(t, current)
    requires Continues(t, user, rule, names, current, rest, left)
    ensures Continues(made, user, rule, names, current, rest, left)
  {
    forall later: Tree | IsTree(later) && Grown(made, later, user)
      ensures Resolve(later, rule, [], names, MAX_LINKS) == Resolve(later, rule, current, rest, left)
    {
      assert Grown(t, later, user);
    }
  }

  lemma Starts(t: Tree, user: nat, rule: Rule, names: seq<string>)
    requires IsTree(t)
    ensures IsDirectory(t, []) && Stat(t, []) == Some(t[[]]) && Grown(t, t, user) && MadeForMissing(t, t, rule, names)
    ensures Continues(t, user, rule, names, [], names, MAX_LINKS)
  {}

  lemma GrownAgain(before: Tree, found: Tree, now: Tree, user: nat)
    requires Grown(before, found, user) && Grown(found, now, user)
    ensures Grown(before, now, user)
  {}

  // Where lstat finds nothing, resolution missed something from the start.
  lemma GrowsForMissing(before: Tree, found: Tree, user: nat, rule: Rule, names: seq<string>,
                        current: Path, rest: seq<string>, left: nat)
    requires IsTree(before) && IsTree(found) && IsDirectory(found, current) && rest != [] && rest[0] != ".."
    requires MadeForMissing(before, found, rule, names) && Continues(found, user, rule, names, current, rest, left)
    requires current + [rest[0]] !in found
    ensures forall now :: MadeForMissing(before, now, rule, names)
  {
    EndsHere(found, user, rule, names, current, rest, left);
  }

  lemma TargetIsNames(target: string)
    ensures forall name | name in TargetNames(target) :: IsName(name)
  {}

  /** Ends on any tree. The answer is pathname resolution's, following root's links
      alone, on the tree as the walk leaves it: the one it found, grown by
      directories of this user, and grown only where resolution missed something. */
  method RealDirectory(fs: FileSystem, cwd: string, path: string, uid: Option<nat>) returns (outcome: Outcome)
    requires IsTree(fs.tree) && IsAbsolute(cwd)
    modifies fs
    ensures IsTree(fs.tree) && Grown(old(fs.tree), fs.tree, fs.user)
    ensures var names := Components((if IsAbsolute(path) then path else cwd + "/" + path)[1..]);
            && MadeForMissing(old(fs.tree), fs.tree, RootsLinks(uid), names)
            && (outcome.CannotMake?
                || outcome == Judged(fs.tree, Resolve(fs.tree, RootsLinks(uid), [], names, MAX_LINKS), uid))
    ensures outcome.CannotMake? ==>
              var names := Components((if IsAbsolute(path) then path else cwd + "/" + path)[1..]);
              Resolve(fs.tree, RootsLinks(uid), [], names, MAX_LINKS) == Stuck(Missing, outcome.at)
    ensures outcome.Refused? ==> outcome.why != Missing
  {
    hide IsTree, Grown, Continues, MadeForMissing, TargetNames, Resolve, Stat, RootsLink;
    var absolute := if IsAbsolute(path) then path else cwd + "/" + path;
    var current: Path := [];
    var rest := Components(absolute[1..]);
    ghost var names, rule, user, before := rest, RootsLinks(uid), fs.user, fs.tree;
    Starts(fs.tree, user, rule, names);
    var info := fs.Lstat(current);
    var currentInfo := info.value;
    var links := 0;
    while rest != []
      invariant IsTree(fs.tree) && IsDirectory(fs.tree, current) && currentInfo == fs.tree[current]
      invariant links <= MAX_LINKS && forall name | name in rest :: IsName(name)
      invariant Grown(before, fs.tree, user) && MadeForMissing(before, fs.tree, rule, names)
      invariant Continues(fs.tree, user, rule, names, current, rest, MAX_LINKS - links)
      decreases MAX_LINKS - links, |rest|
    {
      var name, onward := rest[0], rest[1..];
      if name == ".." {
        UpContinues(fs.tree, user, rule, names, current, rest, MAX_LINKS - links);
        current, rest := Parent(current), onward;
        StatBelowDirectory(fs.tree, current, name);
        info := fs.Lstat(current);
        currentInfo := info.value;
        continue;
      }
      var next := current + [name];
      StatBelowDirectory(fs.tree, current, name);
      info := fs.Lstat(next);
      if info == None {
        ghost var found := fs.tree;
        MadeDirectory(found, current, name, user);
        EndsHere(found, user, rule, names, current, rest, MAX_LINKS - links);
        GrowsForMissing(before, found, user, rule, names, current, rest, MAX_LINKS - links);
        var made := fs.Mkdir(current, name);
        if !made { return CannotMake(next); }
        ContinuesGrown(found, fs.tree, user, rule, names, current, rest, MAX_LINKS - links);
        GrownAgain(before, found, fs.tree, user);
        StatBelowDirectory(fs.tree, current, name);
        info := fs.Lstat(next);
      }
      EndsHere(fs.tree, user, rule, names, current, rest, MAX_LINKS - links);
      if info.value.Link? {
        if !RootsLink(info.value, currentInfo, uid) { return Refused(NotRootsLink, next); }
        if links + 1 > MAX_LINKS { return Refused(TooManyLinks, next); }
        LinkContinues(fs.tree, user, rule, names, current, rest, MAX_LINKS - links);
        links := links + 1;
        var target := info.value.target;
        if IsAbsolute(target) {
          current := [];
          StatBelowDirectory(fs.tree, current, name);
          info := fs.Lstat(current);
          currentInfo := info.value;
        }
        TargetIsNames(target);
        rest := TargetNames(target) + onward;
        continue;
      }
      if !info.value.Directory? { return Refused(NotADirectory, next); }
      IntoContinues(fs.tree, user, rule, names, current, rest, MAX_LINKS - links);
      current, rest, currentInfo := next, onward, info.value;
    }
    EndsHere(fs.tree, user, rule, names, current, rest, MAX_LINKS - links);
    outcome := if uid.Some? && currentInfo.owner != uid.value then NotOwned(current) else Real(current);
  }

  /** What the walk's answer means for the caller: the directory is this user's,
      its path spelled out leads to it through directories alone, and it is where
      the kernel's own resolution of the names given leads. */
  lemma RealIsCanonical(t: Tree, uid: Option<nat>, names: seq<string>)
    requires IsTree(t) && Judged(t, Resolve(t, RootsLinks(uid), [], names, 40), uid).Real?
    ensures var dir := Judged(t, Resolve(t, RootsLinks(uid), [], names, 40), uid).dir;
            && (forall k | 0 <= k <= |dir| :: IsDirectory(t, dir[..k]))
            && (uid.Some? ==> t[dir].owner == uid.value)
            && Components(Spell(dir)) == dir && Resolve(t, EveryLink, [], dir, 0) == Reached(dir, 0)
            && Resolve(t, EveryLink, [], names, 40).Reached?
            && Resolve(t, EveryLink, [], names, 40).dir == dir
  {
    var dir := Resolve(t, RootsLinks(uid), [], names, 40).dir;
    OnlyRootsLinks(t, uid, [], names, 40);
    OwnPathReaches(t, EveryLink, dir, 0);
    forall name | name in dir ensures IsName(name) {
      var k :| 0 <= k < |dir| && dir[k] == name;
      assert dir[..k + 1][|dir[..k + 1]| - 1] == name;
      ParentIs(t, dir[..k + 1]);
    }
    SpellingRoundTrips(dir);
  }
}

/** updateJsonFile by any number of processes, each of which may fail or crash at any
    step, on a machine that may lose power (src/atomic-json.js:28-57, 66-139). */
module JsonLock {
  import opened Wrappers

  type Document = string

  /** What the file held first; of each call its fallback and its update, which may
      throw; and whether this file system can sync a directory. */
  datatype World = World(initial: Option<Document>, fallback: nat -> Document,
                         update: (nat, Document) -> Option<Document>, syncs: bool)

  datatype Content = Torn | Empty | Doc(value: Document)

  /** A file: what it holds, what of that a power loss may leave, and how many names
      others gave it. */
  datatype File = File(content: Content, onDisk: Content, links: nat)

  /** How far a call is: previous is the file the rename replaces, where it could be
      canOpen. */
  datatype Stage =
    | Waiting | Refused | Dead
    | Locked
    | Knows(doc: Document)
    | Wants(next: Document)
    | Writing(next: Document, temporary: nat)
    | Written(next: Document, temporary: nat)
    | Synced(next: Document, temporary: nat)
    | Renaming(next: Document, temporary: nat, previous: Option<nat>)
    | Renamed(previous: Option<nat>)
    | Lasting(previous: Option<nat>)
    | Cleaning(ok: bool)
    | Unlocking(ok: bool)
    | Returned(ok: bool)

  /** commits are the calls whose rename took effect, in that order; targets[k] is the
      file the path named after k of them; the first lasting of them survive a power
      loss. */
  datatype State = State(
    files: map<nat, File>, made: nat, locked: bool, calls: map<nat, Stage>,
    commits: seq<nat>, targets: seq<Option<nat>>, lasting: nat)

  datatype Event =
    | Steps(id: nat, canOpen: bool)
    | Fails(id: nat)
    | Crashes(id: nat)
    | Linked(file: nat)
    | PowerLoss(kept: nat, forgotten: set<nat>, lockStays: bool)

  function StageOf(s: State, id: nat): Stage { if id in s.calls then s.calls[id] else Waiting }

  /** Whether the call is between creating its lock and removing it. */
  predicate Holds(g: Stage) { !(g.Waiting? || g.Refused? || g.Dead? || g.Returned?) }

  function Start(w: World): State {
    State(if w.initial.Some? then map[0 := File(Doc(w.initial.value), Doc(w.initial.value), 0)] else map[],
          1, false, map[], [], [if w.initial.Some? then Some(0) else None], 0)
  }

  function Target(s: State): Option<nat>
    requires s.targets != []
  {
    s.targets[|s.targets| - 1]
  }

  /** What a reader of the path finds: nothing, or the file's content. */
  function Found(s: State): Option<Content>
    requires s.targets != []
  {
    var target := Target(s);
    if target.Some? && target.value in s.files then Some(s.files[target.value].content) else None
  }

  /** What readJsonFile gives, where it does not throw. */
  function Read(w: World, id: nat, s: State): Option<Document>
    requires s.targets != []
  {
    match Found(s)
    case None => Some(w.fallback(id))
    case Some(Doc(value)) => Some(value)
    case Some(_) => None
  }

  function Goes(s: State, id: nat, g: Stage): State { s.(calls := s.calls[id := g]) }

  /** The next step of one call. */
  function Step(w: World, s: State, id: nat, canOpen: bool): State
    requires s.targets != []
  {
    match StageOf(s, id)
    case Waiting => if s.locked then Goes(s, id, Refused) else Goes(s, id, Locked).(locked := true)
    case Locked =>
      var doc := Read(w, id, s);
      if doc.Some? then Goes(s, id, Knows(doc.value)) else Goes(s, id, Cleaning(false))
    case Knows(doc) =>
      var next := w.update(id, doc);
      if next.Some? then Goes(s, id, Wants(next.value)) else Goes(s, id, Cleaning(false))
    case Wants(next) => Goes(s, id, Writing(next, s.made)).(files := s.files[s.made := File(Torn, Torn, 0)],
      made := s.made + 1)
    case Writing(next, temporary) => Holding(Goes(s, id, Written(next, temporary)), temporary, Doc(next), Torn)
    case Written(next, temporary) => Holding(Goes(s, id, Synced(next, temporary)), temporary, Doc(next), Doc(next))
    case Synced(next, temporary) => Goes(s, id, Renaming(next, temporary, if canOpen then Target(s) else None))
    case Renaming(_, temporary, previous) =>
      Goes(s, id, Renamed(previous)).(commits := s.commits + [id], targets := s.targets + [Some(temporary)])
    case Renamed(previous) => Goes(s, id, Lasting(previous)).(lasting := if w.syncs then |s.commits| else s.lasting)
    case Lasting(previous) => Emptied(Goes(s, id, Cleaning(true)), previous)
    case Cleaning(ok) => Goes(s, id, Unlocking(ok))
    case Unlocking(ok) => Goes(s, id, Returned(ok)).(locked := false)
    case _ => s
  }

  function Holding(s: State, file: nat, content: Content, onDisk: Content): State {
    s.(files := s.files[file := File(content, onDisk, if file in s.files then s.files[file].links else 0)])
  }

  /** emptyReplaced: where another name still holds the file, and the path does not. */
  function Emptied(s: State, previous: Option<nat>): State
    requires s.targets != []
  {
    if previous.Some? && previous.value in s.files && s.files[previous.value].links > 0 && Target(s) != previous
    then s.(files := s.files[previous.value := s.files[previous.value].(content := Empty)])
    else s
  }

  /** A step that throws: the call cleans up; where cleaning up throws, the lock stays. */
  function Fail(s: State, id: nat): State {
    var g := StageOf(s, id);
    if !Holds(g) then s
    else if g.Cleaning? || g.Unlocking? then Goes(s, id, Dead)
    else Goes(s, id, Cleaning(false))
  }

  function Crash(s: State, id: nat): State { if Holds(StageOf(s, id)) then Goes(s, id, Dead) else s }

  function Link(s: State, file: nat): State {
    if file in s.files then s.(files := s.files[file := s.files[file].(links := s.files[file].links + 1)]) else s
  }

  /** The replaced file is emptied exactly where another name holds it and the path does not,
      and no other file is touched. */
  lemma EmptiesExactly(s: State, previous: Option<nat>, file: nat)
    requires s.targets != [] && file in s.files
    ensures var after := Emptied(s, previous).files;
            && after.Keys == s.files.Keys && after[file].links == s.files[file].links
            && after[file].onDisk == s.files[file].onDisk
            && after[file].content == if previous == Some(file) && s.files[file].links >= 1
                                         && s.targets[|s.targets| - 1] != Some(file)
                                      then Empty else s.files[file].content
  {}

  /** Power loss: every process dies; renames and contents not synced may be undone. */
  function Lose(s: State, kept: nat, forgotten: set<nat>, lockStays: bool): State
    requires |s.targets| == |s.commits| + 1
  {
    if !(s.lasting <= kept <= |s.commits|) then s
    else
      State(map f | f in s.files :: if f in forgotten then s.files[f].(content := s.files[f].onDisk)
                                   else s.files[f].(onDisk := s.files[f].content),
            s.made, lockStays, map id | id in s.calls :: if Holds(s.calls[id]) then Dead else s.calls[id],
            s.commits[..kept], s.targets[..kept + 1], kept)
  }

  /** Any of the renames not yet lasting may be undone, the last of them first, and of any
      file what was not synced; no process is left. */
  lemma PowerLossLeaves(s: State, kept: nat, forgotten: set<nat>, lockStays: bool, file: nat)
    requires |s.targets| == |s.commits| + 1 && s.lasting <= kept <= |s.commits| && file in s.files
    ensures var after := Lose(s, kept, forgotten, lockStays);
            && after.commits == s.commits[..kept] && after.targets == s.targets[..kept + 1] && after.lasting == kept
            && after.files.Keys == s.files.Keys && after.locked == lockStays && after.calls.Keys == s.calls.Keys
            && after.files[file].content == (if file in forgotten then s.files[file].onDisk else s.files[file].content)
            && after.files[file].onDisk == after.files[file].content
            && forall id | id in s.calls :: after.calls[id] == if Holds(s.calls[id]) then Dead else s.calls[id]
  {}

  function Next(w: World, s: State, e: Event): (after: State)
    requires |s.targets| == |s.commits| + 1
    ensures |after.targets| == |after.commits| + 1
  {
    match e
    case Steps(id, canOpen) => Step(w, s, id, canOpen)
    case Fails(id) => Fail(s, id)
    case Crashes(id) => Crash(s, id)
    case Linked(file) => Link(s, file)
    case PowerLoss(kept, forgotten, lockStays) => Lose(s, kept, forgotten, lockStays)
  }

  function Run(w: World, s: State, es: seq<Event>): (after: State)
    requires |s.targets| == |s.commits| + 1
    ensures |after.targets| == |after.commits| + 1
    decreases |es|
  {
    if es == [] then s else Next(w, Run(w, s, es[..|es| - 1]), es[|es| - 1])
  }

  // ----- What the file should hold -----

  /** The initial document with the updates of these calls applied in order. */
  function Applied(w: World, commits: seq<nat>): Option<Document> {
    if commits == [] then w.initial
    else
      var id, before := commits[|commits| - 1], Applied(w, commits[..|commits| - 1]);
      w.update(id, if before.Some? then before.value else w.fallback(id))
  }

  function Given(w: World, id: nat, before: Option<Document>): Document {
    if before.Some? then before.value else w.fallback(id)
  }

  // ----- The invariant -----

  // Where power loss can undo renames, the point it cannot go behind.
  function Floor(w: World, s: State): nat { if w.syncs then s.lasting else |s.commits| }

  // After k commits the path named a file that holds what it should.
  ghost predicate HoldsAt(w: World, s: State, k: nat)
    requires k < |s.targets| && k <= |s.commits|
  {
    var doc := Applied(w, s.commits[..k]);
    && (s.targets[k].Some? <==> doc.Some?)
    && (s.targets[k].Some? ==>
          && s.targets[k].value in s.files && s.files[s.targets[k].value].content == Doc(doc.value)
          && s.files[s.targets[k].value].onDisk == Doc(doc.value))
  }

  ghost predicate Shaped(s: State) {
    && |s.targets| == |s.commits| + 1 && s.lasting <= |s.commits|
    && (forall f | f in s.files :: f < s.made)
    && (forall k | 0 <= k < |s.targets| && s.targets[k].Some? :: s.targets[k].value < s.made)
    && (forall j, k | 0 <= j < k < |s.targets| :: s.targets[j] != s.targets[k])
  }

  ghost predicate FilesHold(w: World, s: State)
    requires Shaped(s)
  {
    forall k | Floor(w, s) <= k <= |s.commits| :: HoldsAt(w, s, k)
  }

  ghost predicate Exclusive(s: State) {
    && (forall id | id in s.calls && Holds(s.calls[id]) :: s.locked)
    && (forall i, j | i in s.calls && j in s.calls && Holds(s.calls[i]) && Holds(s.calls[j]) :: i == j)
  }

  predicate Past(g: Stage) { g.Renamed? || g.Lasting? || g.Cleaning? || g.Unlocking? || g.Returned? || g.Dead? }

  predicate Succeeded(g: Stage) {
    g.Lasting? || (g.Cleaning? && g.ok) || (g.Unlocking? && g.ok) || (g.Returned? && g.ok)
  }

  ghost predicate Counted(w: World, s: State)
    requires Shaped(s)
  {
    && (forall j, k | 0 <= j < k < |s.commits| :: s.commits[j] != s.commits[k])
    && (forall id | id in s.commits :: id in s.calls && Past(s.calls[id]))
    && (forall id | id in s.calls && Succeeded(s.calls[id]) :: id in s.commits[..Floor(w, s)])
  }

  ghost predicate TemporaryIs(s: State, temporary: nat, content: Content, onDisk: Content) {
    && temporary in s.files && s.files[temporary].content == content && s.files[temporary].onDisk == onDisk
    && (forall k | 0 <= k < |s.targets| :: s.targets[k] != Some(temporary))
  }

  // What the call in the middle knows.
  ghost predicate Knowing(w: World, s: State, id: nat, g: Stage)
    requires Shaped(s)
  {
    var doc := Given(w, id, Applied(w, s.commits));
    match g
    case Knows(d) => d == doc
    case Wants(next) => w.update(id, doc) == Some(next)
    case Writing(next, temporary) => w.update(id, doc) == Some(next) && TemporaryIs(s, temporary, Torn, Torn)
    case Written(next, temporary) => w.update(id, doc) == Some(next) && TemporaryIs(s, temporary, Doc(next), Torn)
    case Synced(next, temporary) => w.update(id, doc) == Some(next) && TemporaryIs(s, temporary, Doc(next), Doc(next))
    case Renaming(next, temporary, previous) =>
      && w.update(id, doc) == Some(next) && TemporaryIs(s, temporary, Doc(next), Doc(next))
      && (previous.Some? ==> previous == Target(s))
    case Renamed(previous) =>
      && s.commits != [] && s.commits[|s.commits| - 1] == id
      && (previous.Some? ==> previous == s.targets[|s.targets| - 2])
    case Lasting(previous) =>
      && s.commits != [] && s.commits[|s.commits| - 1] == id && Floor(w, s) == |s.commits|
      && (previous.Some? ==> previous == s.targets[|s.targets| - 2])
    case _ => true
  }

  ghost predicate Inv(w: World, s: State) {
    && Shaped(s) && FilesHold(w, s) && Exclusive(s) && Counted(w, s)
    && forall id | id in s.calls :: Knowing(w, s, id, s.calls[id])
  }

  // ----- What a step keeps -----

  // While a call holds the lock no other knows anything.
  lemma OthersIdle(w: World, s: State, id: nat)
    requires Shaped(s) && Exclusive(s) && id in s.calls && Holds(s.calls[id])
    ensures forall other | other in s.calls && other != id :: !Holds(s.calls[other])
  {}

  lemma ShapeIs(s: State)
    requires Shaped(s)
    ensures |s.targets| == |s.commits| + 1 && s.lasting <= |s.commits|
  {}

  // What the path named is untouched.
  lemma FilesStay(w: World, s: State, after: State)
    requires Shaped(s) && Shaped(after) && FilesHold(w, s)
    requires after.commits == s.commits && after.targets == s.targets && Floor(w, s) <= Floor(w, after)
    requires forall k | Floor(w, after) <= k < |s.targets| && s.targets[k].Some? && s.targets[k].value in s.files ::
               var f := s.targets[k].value;
               f in after.files && after.files[f].content == s.files[f].content
                 && after.files[f].onDisk == s.files[f].onDisk
    ensures FilesHold(w, after)
  {
    hide Applied, Shaped;
    ShapeIs(s);
    forall k | Floor(w, after) <= k <= |after.commits| ensures HoldsAt(w, after, k) { assert HoldsAt(w, s, k); }
  }

  // One call is elsewhere, and the commits are those they were.
  lemma CountsStay(w: World, s: State, after: State, id: nat, g: Stage)
    requires Shaped(s) && Shaped(after) && Counted(w, s)
    requires after.commits == s.commits && Floor(w, s) <= Floor(w, after) && after.calls == s.calls[id := g]
    requires (id in s.commits ==> Past(g)) && (Succeeded(g) ==> id in s.commits[..Floor(w, after)])
    ensures Counted(w, after)
  {
    ShapeIs(s);
    ShapeIs(after);
    hide Shaped, Past, Succeeded;
    assert s.commits[..Floor(w, s)] <= s.commits[..Floor(w, after)];
  }

  // A call moves on, and nothing else changes.
  lemma QuietKeeps(w: World, s: State, id: nat, g: Stage)
    requires Inv(w, s) && id in s.calls && (Holds(g) ==> Holds(s.calls[id]))
    requires Knowing(w, s, id, g) && (id in s.commits ==> Past(g)) && (Succeeded(g) ==> id in s.commits[..Floor(w, s)])
    ensures Inv(w, Goes(s, id, g))
  {
    hide FilesHold, Counted, Applied, Past, Succeeded;
    var after := Goes(s, id, g);
    FilesStay(w, s, after);
    CountsStay(w, s, after, id, g);
    KnowsStill(w, s, after, id);
  }

  // Whoever else knows something knows it still, where nothing it is about changed.
  lemma KnowsStill(w: World, s: State, after: State, id: nat)
    requires Shaped(s) && Shaped(after) && after.calls.Keys == s.calls.Keys + {id}
    requires after == s.(calls := after.calls, locked := after.locked)
    requires forall other | other in s.calls && other != id :: after.calls[other] == s.calls[other]
    requires forall other | other in s.calls :: Knowing(w, s, other, s.calls[other])
    requires Knowing(w, s, id, after.calls[id])
    ensures forall other | other in after.calls :: Knowing(w, after, other, after.calls[other])
  {
    hide Applied, Shaped;
    forall other | other in after.calls ensures Knowing(w, after, other, after.calls[other]) {
      assert Knowing(w, s, other, after.calls[other]);
      KnowsHere(w, s, after, other, after.calls[other]);
    }
  }

  lemma KnowsHere(w: World, s: State, after: State, id: nat, g: Stage)
    requires Shaped(s) && Shaped(after) && after == s.(calls := after.calls, locked := after.locked)
    requires Knowing(w, s, id, g)
    ensures Knowing(w, after, id, g)
  {
    hide Applied, Shaped;
  }

  lemma LockKeeps(w: World, s: State, id: nat)
    requires Inv(w, s) && StageOf(s, id).Waiting?
    ensures Inv(w, Step(w, s, id, false))
  {
    hide FilesHold, Counted, Applied;
    var after := Step(w, s, id, false);
    assert id !in s.commits by { NotYet(w, s, id); }
    FilesStay(w, s, after);
    CountsStay(w, s, after, id, after.calls[id]);
    KnowsStill(w, s, after, id);
  }

  // What Counted says of one call.
  lemma NotYet(w: World, s: State, id: nat)
    requires Shaped(s) && Counted(w, s)
    ensures id in s.commits ==> id in s.calls && Past(s.calls[id])
    ensures id in s.calls && Succeeded(s.calls[id]) ==> id in s.commits[..Floor(w, s)]
  {}

  lemma ReleaseKeeps(w: World, s: State, id: nat)
    requires Inv(w, s) && StageOf(s, id).Unlocking?
    ensures Inv(w, Step(w, s, id, false))
  {
    hide FilesHold, Counted, Applied;
    var after := Step(w, s, id, false);
    OthersIdle(w, s, id);
    NotYet(w, s, id);
    FilesStay(w, s, after);
    CountsStay(w, s, after, id, after.calls[id]);
    KnowsStill(w, s, after, id);
  }

  // What the path names reads as the updates committed so far.
  lemma ReadsApplied(w: World, s: State, id: nat)
    requires Inv(w, s)
    ensures Read(w, id, s) == Some(Given(w, id, Applied(w, s.commits)))
  {
    assert HoldsAt(w, s, |s.commits|);
    assert s.commits[..|s.commits|] == s.commits;
  }

  // The temporary is made, then written, then synced: no file the path named changes.
  lemma TemporaryKeeps(w: World, s: State, id: nat, g: Stage, temporary: nat, file: File, made: nat)
    requires Inv(w, s) && id in s.calls && Holds(s.calls[id]) && Holds(g) && id !in s.commits && !Succeeded(g)
    requires temporary < made && s.made <= made && forall k | 0 <= k < |s.targets| :: s.targets[k] != Some(temporary)
    requires Knowing(w, s.(files := s.files[temporary := file], made := made), id, g)
    ensures Inv(w, Goes(s, id, g).(files := s.files[temporary := file], made := made))
  {
    hide FilesHold, Counted, Applied;
    var wrote := s.(files := s.files[temporary := file], made := made);
    var after := Goes(wrote, id, g);
    OthersIdle(w, s, id);
    FilesStay(w, s, after);
    CountsStay(w, s, after, id, g);
    OneKnows(w, after, id);
  }

  // With the others idle it is enough what the one call knows.
  lemma OneKnows(w: World, after: State, id: nat)
    requires Shaped(after) && id in after.calls
    requires forall other | other in after.calls && other != id :: !Holds(after.calls[other])
    requires Knowing(w, after, id, after.calls[id])
    ensures forall other | other in after.calls :: Knowing(w, after, other, after.calls[other])
  {
    hide Applied, Shaped;
  }

  lemma AppliedMore(w: World, commits: seq<nat>, id: nat)
    ensures Applied(w, commits + [id]) == w.update(id, Given(w, id, Applied(w, commits)))
  {
    assert (commits + [id])[..|commits|] == commits;
  }

  lemma RenameHolds(w: World, s: State, id: nat)
    requires Inv(w, s) && StageOf(s, id).Renaming? && Shaped(Step(w, s, id, false))
    ensures FilesHold(w, Step(w, s, id, false))
  {
    hide Applied, Exclusive, Counted;
    var after := Step(w, s, id, false);
    assert Knowing(w, s, id, s.calls[id]);
    AppliedMore(w, s.commits, id);
    assert after.commits[..|after.commits|] == after.commits;
    forall k | Floor(w, after) <= k <= |after.commits| ensures HoldsAt(w, after, k) {
      if k <= |s.commits| {
        assert HoldsAt(w, s, k);
        assert after.commits[..k] == s.commits[..k];
      }
    }
  }

  lemma RenameCounts(w: World, s: State, id: nat)
    requires Inv(w, s) && StageOf(s, id).Renaming? && Shaped(Step(w, s, id, false))
    ensures Counted(w, Step(w, s, id, false))
  {
    hide FilesHold, Exclusive;
    var after := Step(w, s, id, false);
    forall other | other in after.calls && Succeeded(after.calls[other])
      ensures other in after.commits[..Floor(w, after)]
    {
      assert other in s.commits[..Floor(w, s)];
      assert s.commits[..Floor(w, s)] <= after.commits[..Floor(w, after)];
    }
  }

  lemma RenameShapes(w: World, s: State, id: nat)
    requires Inv(w, s) && StageOf(s, id).Renaming?
    ensures Shaped(Step(w, s, id, false)) && Exclusive(Step(w, s, id, false))
  {
    hide FilesHold, Counted, Applied;
    assert Knowing(w, s, id, s.calls[id]);
  }

  lemma RenameKeeps(w: World, s: State, id: nat)
    requires Inv(w, s) && StageOf(s, id).Renaming?
    ensures Inv(w, Step(w, s, id, false))
  {
    hide FilesHold, Counted, Applied, HoldsAt;
    var after := Step(w, s, id, false);
    assert Knowing(w, s, id, s.calls[id]);
    RenameShapes(w, s, id);
    RenameHolds(w, s, id);
    RenameCounts(w, s, id);
    OthersIdle(w, s, id);
  }

  lemma SyncKeeps(w: World, s: State, id: nat)
    requires Inv(w, s) && StageOf(s, id).Renamed?
    ensures Inv(w, Step(w, s, id, false))
  {
    hide FilesHold, Counted, Applied;
    var after := Step(w, s, id, false);
    OthersIdle(w, s, id);
    assert Knowing(w, s, id, s.calls[id]);
    assert s.commits[..|s.commits|] == s.commits;
    FilesStay(w, s, after);
    CountsStay(w, s, after, id, after.calls[id]);
    OneKnows(w, after, id);
  }

  // The replaced file is emptied only once no power loss can bring it back.
  lemma EmptyKeeps(w: World, s: State, id: nat)
    requires Inv(w, s) && StageOf(s, id).Lasting?
    ensures Inv(w, Step(w, s, id, false))
  {
    hide FilesHold, Counted, Applied;
    var after := Step(w, s, id, false);
    OthersIdle(w, s, id);
    NotYet(w, s, id);
    assert Knowing(w, s, id, s.calls[id]);
    FilesStay(w, s, after);
    CountsStay(w, s, after, id, after.calls[id]);
    OneKnows(w, after, id);
  }

  // The steps before anything is written, and after.
  lemma ReadingKeeps(w: World, s: State, id: nat, canOpen: bool)
    requires Inv(w, s) && var g := StageOf(s, id); g.Locked? || g.Knows? || g.Synced? || g.Cleaning?
    ensures Inv(w, Step(w, s, id, canOpen))
  {
    assert Knowing(w, s, id, s.calls[id]);
    ReadsApplied(w, s, id);
    var doc := Given(w, id, Applied(w, s.commits));
    var next := w.update(id, doc);
    match s.calls[id]
    case Locked => QuietKeeps(w, s, id, Knows(doc));
    case Knows(_) => QuietKeeps(w, s, id, if next.Some? then Wants(next.value) else Cleaning(false));
    case Synced(n, temporary) => QuietKeeps(w, s, id, Renaming(n, temporary, if canOpen then Target(s) else None));
    case Cleaning(ok) => QuietKeeps(w, s, id, Unlocking(ok));
  }

  lemma WritingKeeps(w: World, s: State, id: nat)
    requires Inv(w, s) && var g := StageOf(s, id); g.Wants? || g.Writing? || g.Written?
    ensures Inv(w, Step(w, s, id, false))
  {
    assert Knowing(w, s, id, s.calls[id]);
    match s.calls[id]
    case Wants(next) => TemporaryKeeps(w, s, id, Writing(next, s.made), s.made, File(Torn, Torn, 0), s.made + 1);
    case Writing(next, t) =>
      TemporaryKeeps(w, s, id, Written(next, t), t, File(Doc(next), Torn, s.files[t].links), s.made);
    case Written(next, t) =>
      TemporaryKeeps(w, s, id, Synced(next, t), t, File(Doc(next), Doc(next), s.files[t].links), s.made);
  }

  lemma StepKeeps(w: World, s: State, id: nat, canOpen: bool)
    requires Inv(w, s)
    ensures Inv(w, Step(w, s, id, canOpen))
  {
    hide Inv;
    var g := StageOf(s, id);
    if g.Waiting? { LockKeeps(w, s, id); }
    else if g.Locked? || g.Knows? || g.Synced? || g.Cleaning? { ReadingKeeps(w, s, id, canOpen); }
    else if g.Wants? || g.Writing? || g.Written? { WritingKeeps(w, s, id); }
    else if g.Renaming? { RenameKeeps(w, s, id); }
    else if g.Renamed? { SyncKeeps(w, s, id); }
    else if g.Lasting? { EmptyKeeps(w, s, id); }
    else if g.Unlocking? { ReleaseKeeps(w, s, id); }
  }

  lemma FailKeeps(w: World, s: State, id: nat)
    requires Inv(w, s)
    ensures Inv(w, Fail(s, id)) && Inv(w, Crash(s, id))
  {
    if Holds(StageOf(s, id)) {
      QuietKeeps(w, s, id, Dead);
      QuietKeeps(w, s, id, Cleaning(false));
    }
  }

  lemma LinkKnows(w: World, s: State, file: nat, id: nat, g: Stage)
    requires Shaped(s) && Shaped(Link(s, file)) && Knowing(w, s, id, g)
    ensures Knowing(w, Link(s, file), id, g)
  {
    hide Applied, Shaped;
  }

  lemma LinkKeeps(w: World, s: State, file: nat)
    requires Inv(w, s)
    ensures Inv(w, Link(s, file))
  {
    hide FilesHold, Counted, Applied, Knowing;
    var after := Link(s, file);
    FilesStay(w, s, after);
    assert Counted(w, after) by { CountsSame(w, s, after); }
    forall id | id in after.calls ensures Knowing(w, after, id, after.calls[id]) {
      assert Knowing(w, s, id, s.calls[id]);
      LinkKnows(w, s, file, id, s.calls[id]);
    }
  }

  lemma CountsSame(w: World, s: State, after: State)
    requires Shaped(s) && Shaped(after) && Counted(w, s) && after == s.(files := after.files)
    ensures Counted(w, after)
  {}

  lemma LoseHolds(w: World, s: State, kept: nat, forgotten: set<nat>, lockStays: bool)
    requires Inv(w, s) && w.syncs && s.lasting <= kept <= |s.commits|
    ensures var after := Lose(s, kept, forgotten, lockStays); Shaped(after) && FilesHold(w, after)
  {
    hide Applied, Exclusive, Counted, Knowing;
    var after := Lose(s, kept, forgotten, lockStays);
    forall k | Floor(w, after) <= k <= |after.commits| ensures HoldsAt(w, after, k) {
      assert HoldsAt(w, s, k);
      assert after.commits[..k] == s.commits[..k];
    }
  }

  lemma LoseCounts(w: World, s: State, kept: nat, forgotten: set<nat>, lockStays: bool)
    requires Inv(w, s) && w.syncs && s.lasting <= kept <= |s.commits|
    ensures var after := Lose(s, kept, forgotten, lockStays); Shaped(after) && Counted(w, after)
  {
    hide FilesHold, Exclusive, Knowing;
    var after := Lose(s, kept, forgotten, lockStays);
    forall id | id in after.calls && Succeeded(after.calls[id]) ensures id in after.commits[..kept] {
      assert id in s.commits[..s.lasting];
      assert s.commits[..s.lasting] <= after.commits[..kept];
    }
  }

  lemma LoseKeeps(w: World, s: State, kept: nat, forgotten: set<nat>, lockStays: bool)
    requires Inv(w, s) && w.syncs
    ensures Inv(w, Lose(s, kept, forgotten, lockStays))
  {
    hide FilesHold, Counted;
    if s.lasting <= kept <= |s.commits| {
      LoseHolds(w, s, kept, forgotten, lockStays);
      LoseCounts(w, s, kept, forgotten, lockStays);
    }
  }

  ghost predicate Allowed(w: World, es: seq<Event>) { w.syncs || forall e | e in es :: !e.PowerLoss? }

  lemma NextKeeps(w: World, s: State, e: Event)
    requires Inv(w, s) && (w.syncs || !e.PowerLoss?)
    ensures Inv(w, Next(w, s, e))
  {
    hide Inv;
    match e
    case Steps(id, canOpen) => StepKeeps(w, s, id, canOpen);
    case Fails(id) => FailKeeps(w, s, id);
    case Crashes(id) => FailKeeps(w, s, id);
    case Linked(file) => LinkKeeps(w, s, file);
    case PowerLoss(kept, forgotten, lockStays) => LoseKeeps(w, s, kept, forgotten, lockStays);
  }

  lemma {:induction false} RunKeeps(w: World, es: seq<Event>)
    requires Allowed(w, es)
    ensures Inv(w, Run(w, Start(w), es))
    decreases |es|
  {
    if es == [] {
      StartHolds(w);
    } else {
      RunKeeps(w, es[..|es| - 1]);
      NextKeeps(w, Run(w, Start(w), es[..|es| - 1]), es[|es| - 1]);
      hide Inv;
    }
  }

  lemma StartHolds(w: World)
    ensures Inv(w, Start(w))
  {
    var s := Start(w);
    assert s.commits[..0] == [];
    assert HoldsAt(w, s, 0);
  }

  // ----- What every run keeps -----

  /** Of all calls of a run at most one is between creating and removing its lock. The
      file holds the initial document with the committed updates applied in commit
      order; every call that succeeded is among them, none twice. A machine that
      cannot sync a directory keeps this as long as it does not lose power. */
  lemma RunSafe(w: World, es: seq<Event>)
    requires Allowed(w, es)
    ensures var s := Run(w, Start(w), es);
            && (forall i, j | i in s.calls && j in s.calls && Holds(s.calls[i]) && Holds(s.calls[j]) :: i == j)
            && (var doc := Applied(w, s.commits); Found(s) == if doc.Some? then Some(Doc(doc.value)) else None)
            && (forall id | id in s.calls && s.calls[id] == Returned(true) :: id in s.commits)
            && (forall j, k | 0 <= j < k < |s.commits| :: s.commits[j] != s.commits[k])
  {
    RunKeeps(w, es);
    var s := Run(w, Start(w), es);
    assert HoldsAt(w, s, |s.commits|);
    assert s.commits[..|s.commits|] == s.commits;
    hide Run, Applied;
  }

  // One call's events change no other's stage.
  lemma StepChanges(w: World, s: State, id: nat, canOpen: bool)
    requires |s.targets| == |s.commits| + 1
    ensures var after := Step(w, s, id, canOpen);
            && (after.calls == s.calls || (id in after.calls && after.calls == s.calls[id := after.calls[id]]))
            && (id in s.calls && s.calls[id].Returned? ==> after == s)
            && s.commits <= after.commits && (s.lasting <= |s.commits| ==> s.lasting <= after.lasting)
  {}

  lemma LoseChanges(s: State, kept: nat, forgotten: set<nat>, lockStays: bool)
    requires Shaped(s)
    ensures var after := Lose(s, kept, forgotten, lockStays);
            && after.calls.Keys == s.calls.Keys && s.lasting <= after.lasting && s.commits[..s.lasting] <= after.commits
            && forall id | id in s.calls && s.calls[id].Returned? :: after.calls[id] == s.calls[id]
  {}

  // An event of another call.
  predicate Elsewhere(e: Event, id: nat) {
    match e
    case Steps(other, _) => other != id
    case Fails(other) => other != id
    case Crashes(other) => other != id
    case Linked(_) => true
    case PowerLoss(_, _, _) => false
  }

  lemma StageStays(w: World, s: State, e: Event, id: nat)
    requires |s.targets| == |s.commits| + 1 && Elsewhere(e, id)
    ensures StageOf(Next(w, s, e), id) == StageOf(s, id)
  {
    hide Step;
    if e.Steps? { StepChanges(w, s, e.id, e.canOpen); }
  }

  /** What lasted stays first, in its order, and what returned stays returned; without
      a power loss every commit stays. */
  lemma NextGrows(w: World, s: State, e: Event)
    requires Shaped(s)
    ensures var after := Next(w, s, e);
            && s.commits[..s.lasting] <= after.commits && s.lasting <= after.lasting
            && (!e.PowerLoss? ==> s.commits <= after.commits)
            && (forall id | id in s.calls && s.calls[id].Returned? ::
                  id in after.calls && after.calls[id] == s.calls[id])
  {
    hide Step, Lose, Shaped;
    assert |s.targets| == |s.commits| + 1 && s.lasting <= |s.commits| by { ShapeIs(s); }
    match e
    case Steps(id, canOpen) => StepChanges(w, s, id, canOpen);
    case PowerLoss(kept, forgotten, lockStays) => LoseChanges(s, kept, forgotten, lockStays);
    case Fails(_) =>
    case Crashes(_) =>
    case Linked(_) =>
  }

  lemma {:induction false} ReturnedStays(w: World, es: seq<Event>, more: seq<Event>)
    requires Allowed(w, es + more)
    ensures var s, later := Run(w, Start(w), es), Run(w, Start(w), es + more);
            forall id | id in s.calls && s.calls[id].Returned? :: id in later.calls && later.calls[id] == s.calls[id]
    decreases |more|
  {
    hide Inv, Next;
    if more == [] {
      assert es + more == es;
    } else {
      var init := more[..|more| - 1];
      LastOf(w, es, more);
      ReturnedStays(w, es, init);
      RunShaped(w, es + init);
      NextGrows(w, Run(w, Start(w), es + init), more[|more| - 1]);
    }
  }

  lemma LastOf(w: World, es: seq<Event>, more: seq<Event>)
    requires more != [] && Allowed(w, es + more)
    ensures var init := more[..|more| - 1];
            && Run(w, Start(w), es + more) == Next(w, Run(w, Start(w), es + init), more[|more| - 1])
              && Allowed(w, es + init)
  {
    var init := more[..|more| - 1];
    assert (es + more)[..|es + more| - 1] == es + init;
    assert forall e | e in es + init :: e in es + more;
  }

  lemma RunShaped(w: World, es: seq<Event>)
    requires Allowed(w, es)
    ensures Shaped(Run(w, Start(w), es))
  {
    RunKeeps(w, es);
  }

  lemma {:induction false} LastingStays(w: World, es: seq<Event>, more: seq<Event>)
    requires Allowed(w, es + more)
    ensures var s, later := Run(w, Start(w), es), Run(w, Start(w), es + more);
            && s.lasting <= later.lasting <= |later.commits| && s.lasting <= |s.commits|
            && s.commits[..s.lasting] <= later.commits[..later.lasting]
            && ((forall e | e in more :: !e.PowerLoss?) ==> s.commits <= later.commits)
    decreases |more|
  {
    hide Inv, Next, Shaped;
    RunShaped(w, es + more);
    ShapeIs(Run(w, Start(w), es + more));
    if more == [] {
      assert es + more == es;
    } else {
      var init, last := more[..|more| - 1], more[|more| - 1];
      LastOf(w, es, more);
      LastingStays(w, es, init);
      RunShaped(w, es + init);
      NextGrows(w, Run(w, Start(w), es + init), last);
      assert last in more;
    }
  }

  /** No update is lost: in any later state a call that returned success is still among
      the commits, what lasted is still first and in its order, and without a power
      loss all that was committed is. */
  lemma UpdatesStay(w: World, es: seq<Event>, more: seq<Event>)
    requires Allowed(w, es + more)
    ensures var s, later := Run(w, Start(w), es), Run(w, Start(w), es + more);
            && s.lasting <= |s.commits| && s.commits[..s.lasting] <= later.commits
            && ((forall e | e in more :: !e.PowerLoss?) ==> s.commits <= later.commits)
            && (forall id | id in s.calls && s.calls[id] == Returned(true) :: id in later.commits)
  {
    LastingStays(w, es, more);
    ReturnedStays(w, es, more);
    RunSafe(w, es + more);
    hide Run, Applied;
  }

  /** Whether the lock is left of a call that died with it. */
  ghost predicate Stale(s: State) { s.locked && forall id | id in s.calls :: !Holds(s.calls[id]) }

  /** A lock left behind is never stolen: the file stays as it is. */
  lemma {:induction false} StaleLockStays(w: World, s: State, es: seq<Event>)
    requires |s.targets| == |s.commits| + 1 && Stale(s) && forall e | e in es :: !e.PowerLoss?
    ensures var later := Run(w, s, es);
            Stale(later) && later.commits == s.commits && later.targets == s.targets && Found(later) == Found(s)
    decreases |es|
  {
    if es != [] {
      StaleLockStays(w, s, es[..|es| - 1]);
      assert es[|es| - 1] in es;
    }
  }

  // ----- The lock is given back -----

  /** A call that returns has removed its lock. */
  lemma ReturnFreesLock(w: World, s: State, id: nat, canOpen: bool)
    requires s.targets != [] && Holds(StageOf(s, id))
    ensures var after := Step(w, s, id, canOpen); StageOf(after, id).Returned? ==> !after.locked
  {}

  /** Whether a call is between creating its lock and removing it, or died there. */
  ghost predicate Keeps(s: State, id: nat) { id in s.calls && (Holds(s.calls[id]) || s.calls[id] == Dead) }

  ghost predicate LockedByOne(s: State) {
    && (s.locked ==> exists id :: Keeps(s, id))
    && (forall id | Keeps(s, id) :: s.locked)
    && (forall i, j | Keeps(s, i) && Keeps(s, j) :: i == j)
  }

  lemma LockChanges(w: World, s: State, id: nat, canOpen: bool)
    requires s.targets != []
    ensures var g, after := StageOf(s, id), Step(w, s, id, canOpen);
            after.locked == if g.Waiting? then true else if g.Unlocking? then false else s.locked
  {
    hide Read;
  }

  lemma WaitingSteps(w: World, s: State, id: nat, canOpen: bool)
    requires s.targets != [] && StageOf(s, id).Waiting?
    ensures Step(w, s, id, canOpen).calls == s.calls[id := if s.locked then Refused else Locked]
  {}

  lemma RestsStill(w: World, s: State, id: nat, canOpen: bool)
    requires s.targets != [] && !Holds(StageOf(s, id)) && !StageOf(s, id).Waiting?
    ensures Step(w, s, id, canOpen) == s
  {}

  // What one step does to its call's hold on the lock.
  lemma StepLock(w: World, s: State, id: nat, canOpen: bool)
    requires |s.targets| == |s.commits| + 1
    ensures var after := Step(w, s, id, canOpen);
            && (after.calls == s.calls || (id in after.calls && after.calls == s.calls[id := after.calls[id]]))
            && (Keeps(s, id) == Keeps(after, id) ==> after.locked == s.locked)
            && (!Keeps(s, id) && Keeps(after, id) ==> !s.locked && after.locked)
            && (Keeps(s, id) && !Keeps(after, id) ==> !after.locked)
  {
    hide Step;
    LockChanges(w, s, id, canOpen);
    StepChanges(w, s, id, canOpen);
    if StageOf(s, id).Waiting? {
      WaitingSteps(w, s, id, canOpen);
    } else if Holds(StageOf(s, id)) {
      StepAdvances(w, s, id, canOpen);
    } else {
      RestsStill(w, s, id, canOpen);
    }
  }

  lemma StepLocks(w: World, s: State, id: nat, canOpen: bool)
    requires |s.targets| == |s.commits| + 1 && LockedByOne(s)
    ensures LockedByOne(Step(w, s, id, canOpen))
  {
    hide Step;
    StepLock(w, s, id, canOpen);
    var after := Step(w, s, id, canOpen);
    assert forall other | other != id :: Keeps(after, other) <==> Keeps(s, other);
    assert forall i, j | Keeps(after, i) && Keeps(after, j) :: i == j;
    assert forall other | Keeps(after, other) :: after.locked;
    assert after.locked ==> exists other :: Keeps(after, other);
  }

  lemma OtherLocks(w: World, s: State, e: Event)
    requires |s.targets| == |s.commits| + 1 && LockedByOne(s) && !e.Steps? && !e.PowerLoss?
    ensures LockedByOne(Next(w, s, e))
  {
    var after := Next(w, s, e);
    assert after.locked == s.locked;
    assert forall id :: Keeps(after, id) <==> Keeps(s, id);
  }

  /** Without a power loss, in every run the lock is there exactly while the one call that
      created it has not removed it, or if that call died first. */
  lemma {:induction false} LockIsHeld(w: World, es: seq<Event>)
    requires forall e | e in es :: !e.PowerLoss?
    ensures LockedByOne(Run(w, Start(w), es))
    decreases |es|
  {
    hide Next, LockedByOne;
    if es == [] {
      assert LockedByOne(Start(w)) by { NobodyLocks(w); }
    } else {
      LockIsHeld(w, es[..|es| - 1]);
      var s, e := Run(w, Start(w), es[..|es| - 1]), es[|es| - 1];
      assert e in es;
      if e.Steps? {
        StepLocks(w, s, e.id, e.canOpen);
        assert Next(w, s, e) == Step(w, s, e.id, e.canOpen) by { StepIsNext(w, s, e.id, e.canOpen); }
      } else {
        OtherLocks(w, s, e);
      }
    }
  }

  lemma NobodyLocks(w: World)
    ensures LockedByOne(Start(w))
  {}

  lemma StepIsNext(w: World, s: State, id: nat, canOpen: bool)
    requires |s.targets| == |s.commits| + 1
    ensures Next(w, s, Steps(id, canOpen)) == Step(w, s, id, canOpen)
  {}

  /** So a new call gets the lock unless another has it or died with it, and is refused
      exactly then. */
  lemma RefusedExactly(w: World, es: seq<Event>, id: nat, canOpen: bool)
    requires (forall e | e in es :: !e.PowerLoss?) && id !in Run(w, Start(w), es).calls
    ensures var s := Run(w, Start(w), es);
            var g := StageOf(Step(w, s, id, canOpen), id);
            if exists other :: Keeps(s, other) then g == Refused else g == Locked
  {
    LockIsHeld(w, es);
    hide Run;
  }

  // ----- A call that nothing disturbs -----

  /** The call's next n steps, where the file it replaces can be opened or not. */
  function Drive(w: World, s: State, id: nat, canOpen: bool, n: nat): (after: State)
    requires |s.targets| == |s.commits| + 1
    ensures |after.targets| == |after.commits| + 1
    decreases n
  {
    if n == 0 then s else Drive(w, Next(w, s, Steps(id, canOpen)), id, canOpen, n - 1)
  }

  lemma {:induction false} DriveOn(w: World, s: State, id: nat, canOpen: bool, m: nat, n: nat)
    requires |s.targets| == |s.commits| + 1
    ensures Drive(w, s, id, canOpen, m + n) == Drive(w, Drive(w, s, id, canOpen, m), id, canOpen, n)
    decreases m
  {
    hide Next;
    if m > 0 { DriveOn(w, Next(w, s, Steps(id, canOpen)), id, canOpen, m - 1, n); }
  }

  lemma DriveOne(w: World, s: State, id: nat, canOpen: bool)
    requires |s.targets| == |s.commits| + 1
    ensures Drive(w, s, id, canOpen, 1) == Step(w, s, id, canOpen)
  {
    hide Step;
    assert Drive(w, Next(w, s, Steps(id, canOpen)), id, canOpen, 0) == Next(w, s, Steps(id, canOpen));
  }

  lemma DriveTwo(w: World, s: State, id: nat, canOpen: bool)
    requires |s.targets| == |s.commits| + 1
    ensures |Step(w, s, id, canOpen).targets| == |Step(w, s, id, canOpen).commits| + 1
    ensures Drive(w, s, id, canOpen, 2) == Step(w, Step(w, s, id, canOpen), id, canOpen)
  {
    hide Step, Drive, Next;
    DriveOne(w, s, id, canOpen);
    DriveOne(w, Drive(w, s, id, canOpen, 1), id, canOpen);
    DriveOn(w, s, id, canOpen, 1, 1);
  }

  // The one call is at this stage, and nothing but files changed besides.
  ghost predicate MovedTo(s: State, after: State, id: nat, g: Stage, locked: bool) {
    && after.calls == s.calls[id := g] && after.locked == locked
    && after.commits == s.commits && after.targets == s.targets
  }

  // It takes the lock and reads what the updates so far have made.
  lemma LocksAndReads(w: World, s: State, id: nat, canOpen: bool)
    requires Inv(w, s) && !s.locked && id !in s.calls
    ensures |s.targets| == |s.commits| + 1
    ensures var after := Drive(w, s, id, canOpen, 2);
            && MovedTo(s, after, id, Knows(Given(w, id, Applied(w, s.commits))), true)
            && after.files == s.files && after.made == s.made
  {
    InvShapes(w, s);
    DriveTwo(w, s, id, canOpen);
    var locked := Step(w, s, id, canOpen);
    LockKeeps(w, s, id);
    ReadsApplied(w, locked, id);
    hide Applied, Inv, Read, Drive;
  }

  // It updates and makes its temporary, or gives up.
  lemma UpdatesAndOpens(w: World, s: State, id: nat, doc: Document, canOpen: bool)
    requires |s.targets| == |s.commits| + 1 && StageOf(s, id) == Knows(doc)
    ensures var next, after := w.update(id, doc), Drive(w, s, id, canOpen, 2);
            if next.None? then MovedTo(s, after, id, Unlocking(false), s.locked) && after.files == s.files
            else MovedTo(s, after, id, Writing(next.value, s.made), s.locked) && s.made in after.files
  {
    DriveTwo(w, s, id, canOpen);
    hide Drive, Read;
  }

  // It writes and syncs.
  lemma WritesAndSyncs(w: World, s: State, id: nat, next: Document, temporary: nat, canOpen: bool)
    requires |s.targets| == |s.commits| + 1 && StageOf(s, id) == Writing(next, temporary)
    ensures var after := Drive(w, s, id, canOpen, 2);
            && MovedTo(s, after, id, Synced(next, temporary), s.locked)
            && temporary in after.files && after.files[temporary].content == Doc(next)
  {
    DriveTwo(w, s, id, canOpen);
    hide Drive, Read;
  }

  // It renames.
  lemma OpensAndRenames(w: World, s: State, id: nat, next: Document, temporary: nat, canOpen: bool)
    requires |s.targets| == |s.commits| + 1 && StageOf(s, id) == Synced(next, temporary)
    requires temporary in s.files && s.files[temporary].content == Doc(next)
    ensures var after := Drive(w, s, id, canOpen, 2);
            && after.calls == s.calls[id := Renamed(if canOpen then Target(s) else None)] && after.locked == s.locked
            && after.commits == s.commits + [id] && Target(after) == Some(temporary) && Found(after) == Some(Doc(next))
  {
    DriveTwo(w, s, id, canOpen);
    hide Drive, Read;
  }

  // It syncs the directory and empties what it replaced.
  lemma LastsAndEmpties(w: World, s: State, id: nat, previous: Option<nat>, canOpen: bool)
    requires |s.targets| == |s.commits| + 1 && StageOf(s, id) == Renamed(previous)
    requires previous.Some? ==> previous != Target(s)
    ensures var after := Drive(w, s, id, canOpen, 2);
            MovedTo(s, after, id, Cleaning(true), s.locked) && Found(after) == Found(s)
  {
    DriveTwo(w, s, id, canOpen);
    hide Drive, Emptied, Found, Target;
    var lasting := Step(w, s, id, canOpen);
    var cleaning := Goes(lasting, id, Cleaning(true));
    SameFound(s, cleaning);
    EmptiedIsFound(cleaning, previous);
  }

  lemma SameFound(s: State, after: State)
    requires s.targets != [] && after.targets == s.targets && after.files == s.files
    ensures Found(after) == Found(s) && Target(after) == Target(s)
  {}

  lemma EmptiedIsFound(s: State, previous: Option<nat>)
    requires s.targets != [] && (previous.Some? ==> previous != Target(s))
    ensures var after := Emptied(s, previous); Found(after) == Found(s) && after == s.(files := after.files)
  {}

  // It cleans up and removes its lock.
  lemma CleansAndUnlocks(w: World, s: State, id: nat, ok: bool, canOpen: bool)
    requires |s.targets| == |s.commits| + 1 && StageOf(s, id) == Cleaning(ok)
    ensures var after := Drive(w, s, id, canOpen, 2);
            MovedTo(s, after, id, Returned(ok), false) && Found(after) == Found(s)
  {
    DriveTwo(w, s, id, canOpen);
    hide Drive, Read;
  }

  lemma SameTarget(s: State, after: State)
    requires s.targets != [] && after.targets == s.targets
    ensures Target(after) == Target(s)
  {}

  // From the temporary on.
  lemma Replaces(w: World, s: State, id: nat, next: Document, temporary: nat, canOpen: bool)
    requires |s.targets| == |s.commits| + 1 && StageOf(s, id) == Writing(next, temporary)
    requires Target(s) != Some(temporary)
    ensures var after := Drive(w, s, id, canOpen, 6);
            && after.calls == s.calls[id := Cleaning(true)] && after.locked == s.locked
            && after.commits == s.commits + [id] && Found(after) == Some(Doc(next))
  {
    hide Drive, Step, Found, Target;
    var s1 := Drive(w, s, id, canOpen, 2);
    WritesAndSyncs(w, s, id, next, temporary, canOpen);
    SameTarget(s, s1);
    var s2 := Drive(w, s1, id, canOpen, 2);
    OpensAndRenames(w, s1, id, next, temporary, canOpen);
    LastsAndEmpties(w, s2, id, if canOpen then Target(s1) else None, canOpen);
    DriveOn(w, s, id, canOpen, 2, 4);
    DriveOn(w, s1, id, canOpen, 2, 2);
  }

  // Up to the temporary.
  lemma GetsThere(w: World, s: State, id: nat, canOpen: bool)
    requires Inv(w, s) && !s.locked && id !in s.calls
    ensures |s.targets| == |s.commits| + 1
    ensures var next, after := w.update(id, Given(w, id, Applied(w, s.commits))), Drive(w, s, id, canOpen, 4);
            if next.None? then MovedTo(s, after, id, Unlocking(false), true) && after.files == s.files
            else MovedTo(s, after, id, Writing(next.value, s.made), true)
  {
    hide Inv, Step, Applied, Drive;
    LocksAndReads(w, s, id, canOpen);
    DriveOn(w, s, id, canOpen, 2, 2);
    UpdatesAndOpens(w, Drive(w, s, id, canOpen, 2), id, Given(w, id, Applied(w, s.commits)), canOpen);
  }

  /** A call that finds no lock and that nothing disturbs goes through in twelve steps: it
      commits its update of what was there, the file holds that, and the lock is free
      again. Where its update throws, five steps leave the file and the lock as they were. */
  lemma UndisturbedGoesThrough(w: World, s: State, id: nat, canOpen: bool)
    requires Inv(w, s) && !s.locked && id !in s.calls
    ensures |s.targets| == |s.commits| + 1
    ensures var next := w.update(id, Given(w, id, Applied(w, s.commits)));
            var after := Drive(w, s, id, canOpen, if next.Some? then 12 else 5);
            && !after.locked && after.calls == s.calls[id := Returned(next.Some?)]
            && after.commits == (if next.Some? then s.commits + [id] else s.commits)
            && Found(after) == (if next.Some? then Some(Doc(next.value)) else Found(s))
  {
    hide *;
    InvShapes(w, s);
    GetsThere(w, s, id, canOpen);
    FreshTarget(s);
    var next, there := w.update(id, Given(w, id, Applied(w, s.commits))), Drive(w, s, id, canOpen, 4);
    if next.Some? {
      Finishes(w, s, there, id, next.value, s.made, canOpen);
      DriveOn(w, s, id, canOpen, 4, 8);
    } else {
      GivesUp(w, s, there, id, canOpen);
      DriveOn(w, s, id, canOpen, 4, 1);
    }
  }

  lemma Finishes(w: World, s: State, there: State, id: nat, next: Document, temporary: nat, canOpen: bool)
    requires |s.targets| == |s.commits| + 1 && MovedTo(s, there, id, Writing(next, temporary), true)
    requires Target(s) != Some(temporary)
    ensures |there.targets| == |there.commits| + 1
    ensures var after := Drive(w, there, id, canOpen, 8);
            && !after.locked && after.calls == s.calls[id := Returned(true)]
            && after.commits == s.commits + [id] && Found(after) == Some(Doc(next))
  {
    assert Target(there) == Target(s);
    hide Drive, Step, Found, Target;
    Replaces(w, there, id, next, temporary, canOpen);
    CleansAndUnlocks(w, Drive(w, there, id, canOpen, 6), id, true, canOpen);
    DriveOn(w, there, id, canOpen, 6, 2);
  }

  lemma FreshTarget(s: State)
    requires Shaped(s)
    ensures Target(s) != Some(s.made)
  {}

  lemma GivesUp(w: World, s: State, there: State, id: nat, canOpen: bool)
    requires |s.targets| == |s.commits| + 1 && MovedTo(s, there, id, Unlocking(false), true) && there.files == s.files
    ensures |there.targets| == |there.commits| + 1
    ensures var after := Drive(w, there, id, canOpen, 1);
            && !after.locked && after.calls == s.calls[id := Returned(false)]
            && after.commits == s.commits && Found(after) == Found(s)
  {
    DriveOne(w, there, id, canOpen);
    hide Drive, Read;
  }

  // ----- A machine that cannot sync a directory -----

  function FirstCall(n: nat): seq<Event> { seq(n, i => Steps(0, true)) }

  lemma RunMore(w: World, s: State, es: seq<Event>, e: Event)
    requires |s.targets| == |s.commits| + 1
    ensures Run(w, s, es + [e]) == Next(w, Run(w, s, es), e)
  {
    assert (es + [e])[..|es|] == es;
  }

  // The stages a call alone goes through.
  function StageAlone(next: Document, doc: Document, n: nat): Stage
    requires n <= 10
  {
    if n == 0 then Waiting else if n == 1 then Locked else if n == 2 then Knows(doc) else if n == 3 then Wants(next)
    else if n == 4 then Writing(next, 1) else if n == 5 then Written(next, 1) else if n == 6 then Synced(next, 1)
    else if n == 7 then Renaming(next, 1, Some(0)) else if n == 8 then Renamed(Some(0))
    else if n == 9 then Lasting(Some(0)) else Cleaning(true)
  }

  ghost predicate AloneAt(s: State, doc: Document, next: Document, n: nat)
    requires n <= 10
  {
    && StageOf(s, 0) == StageAlone(next, doc, n) && s.lasting == 0 && s.locked == (n >= 1)
    && s.made == (if n <= 3 then 1 else 2) && s.commits == (if n <= 7 then [] else [0])
    && s.targets == (if n <= 7 then [Some(0)] else [Some(0), Some(1)])
    && 0 in s.files && s.files[0] == File(if n == 10 then Empty else Doc(doc), Doc(doc), 1)
  }

  lemma AloneReads(w: World, s: State, doc: Document, next: Document, n: nat)
    requires w.update(0, doc) == Some(next) && n < 4 && AloneAt(s, doc, next, n)
    ensures AloneAt(Step(w, s, 0, true), doc, next, n + 1)
  {}

  lemma AloneWrites(w: World, s: State, doc: Document, next: Document, n: nat)
    requires 4 <= n < 7 && AloneAt(s, doc, next, n)
    ensures AloneAt(Step(w, s, 0, true), doc, next, n + 1)
  {}

  lemma AloneReplaces(w: World, s: State, doc: Document, next: Document, n: nat)
    requires !w.syncs && 7 <= n < 10 && AloneAt(s, doc, next, n)
    ensures AloneAt(Step(w, s, 0, true), doc, next, n + 1)
  {}

  lemma {:induction false} AloneRuns(w: World, doc: Document, next: Document, n: nat)
    requires !w.syncs && w.initial == Some(doc) && w.update(0, doc) == Some(next) && n <= 10
    ensures AloneAt(Run(w, Start(w), [Linked(0)] + FirstCall(n)), doc, next, n)
  {
    hide Run, Step, AloneAt;
    if n == 0 {
      assert [Linked(0)] + FirstCall(0) == [] + [Linked(0)];
      RunMore(w, Start(w), [], Linked(0));
      AloneStarts(w, doc, next);
    } else {
      var es := [Linked(0)] + FirstCall(n - 1);
      AloneRuns(w, doc, next, n - 1);
      assert [Linked(0)] + FirstCall(n) == es + [Steps(0, true)];
      RunMore(w, Start(w), es, Steps(0, true));
      if n - 1 < 4 { AloneReads(w, Run(w, Start(w), es), doc, next, n - 1); }
      else if n - 1 < 7 { AloneWrites(w, Run(w, Start(w), es), doc, next, n - 1); }
      else { AloneReplaces(w, Run(w, Start(w), es), doc, next, n - 1); }
    }
  }

  lemma AloneStarts(w: World, doc: Document, next: Document)
    requires w.initial == Some(doc)
    ensures Run(w, Start(w), []) == Start(w) && AloneAt(Next(w, Start(w), Linked(0)), doc, next, 0)
  {}

  /** Without a directory sync a power loss can bring the replaced file back, emptied. */
  lemma UnsyncedIsLost(w: World)
    requires !w.syncs && w.initial.Some? && w.update(0, w.initial.value).Some?
    ensures var es := [Linked(0)] + FirstCall(10) + [PowerLoss(0, {}, false)];
            Found(Run(w, Start(w), es)) == Some(Empty)
  {
    hide Run, Step, StageAlone;
    var es, next := [Linked(0)] + FirstCall(10), w.update(0, w.initial.value).value;
    AloneRuns(w, w.initial.value, next, 10);
    RunMore(w, Start(w), es, PowerLoss(0, {}, false));
    var s := Run(w, Start(w), es);
    assert s.targets[..1] == [Some(0)];
  }

  /** After the run the file holds what the committed updates make of the first document. */
  ghost predicate Right(w: World, es: seq<Event>) {
    var s := Run(w, Start(w), es);
    var doc := Applied(w, s.commits);
    Found(s) == if doc.Some? then Some(Doc(doc.value)) else None
  }

  /** Exactly when that is so after every run, power losses included: for a file that is
      there and a call whose update goes through, if and only if a directory can be
      synced. */
  lemma RightIffSynced(w: World)
    requires w.initial.Some? && w.update(0, w.initial.value).Some?
    ensures (forall es :: Right(w, es)) <==> w.syncs
  {
    if w.syncs {
      forall es ensures Right(w, es) { RunSafe(w, es); }
    } else {
      UnsyncedIsLost(w);
      var es := [Linked(0)] + FirstCall(10) + [PowerLoss(0, {}, false)];
      assert !Right(w, es);
    }
  }

  // ----- The call itself -----

  lemma InvShapes(w: World, s: State)
    requires Inv(w, s)
    ensures Shaped(s) && |s.targets| == |s.commits| + 1
  {}

  // Where a step that throws leaves a call, and where one that does not may.
  function Thrown(g: Stage): Stage { if g.Cleaning? || g.Unlocking? then Dead else Cleaning(false) }

  predicate Advances(g: Stage, later: Stage) {
    match g
    case Locked => later.Knows? || later == Cleaning(false)
    case Knows(_) => later.Wants? || later == Cleaning(false)
    case Wants(next) => later.Writing? && later.next == next
    case Writing(next, _) => later.Written? && later.next == next
    case Written(next, _) => later.Synced? && later.next == next
    case Synced(next, _) => later.Renaming? && later.next == next
    case Renaming(_, _, _) => later.Renamed?
    case Renamed(_) => later.Lasting?
    case Lasting(_) => later == Cleaning(true)
    case Cleaning(ok) => later == Unlocking(ok)
    case Unlocking(ok) => later == Returned(ok)
    case _ => false
  }

  lemma StepAdvances(w: World, s: State, id: nat, canOpen: bool)
    requires |s.targets| == |s.commits| + 1 && Holds(StageOf(s, id))
    ensures Advances(StageOf(s, id), StageOf(Step(w, s, id, canOpen), id))
  {}

  lemma FailGrows(s: State, id: nat)
    ensures Fail(s, id).commits == s.commits && (Holds(StageOf(s, id)) ==>
        StageOf(Fail(s, id), id) == Thrown(StageOf(s, id)))
  {}

  /** The call committed, and its commit made this document. */
  ghost predicate Committed(w: World, commits: seq<nat>, id: nat, doc: Document) {
    exists k | 0 <= k < |commits| :: commits[k] == id && Applied(w, commits[..k + 1]) == Some(doc)
  }

  lemma CommittedStays(w: World, commits: seq<nat>, more: seq<nat>, id: nat, doc: Document)
    requires Committed(w, commits, id, doc) && commits <= more
    ensures Committed(w, more, id, doc)
  {
    var k :| 0 <= k < |commits| && commits[k] == id && Applied(w, commits[..k + 1]) == Some(doc);
    assert more[..k + 1] == commits[..k + 1];
    assert more[k] == id;
  }

  lemma RenameCommits(w: World, s: State, id: nat, canOpen: bool)
    requires Inv(w, s) && StageOf(s, id).Renaming?
    ensures Committed(w, Step(w, s, id, canOpen).commits, id, StageOf(s, id).next)
  {
    var after := Step(w, s, id, canOpen);
    assert Knowing(w, s, id, s.calls[id]);
    AppliedMore(w, s.commits, id);
    assert after.commits[..|s.commits| + 1] == s.commits + [id];
    assert after.commits[|s.commits|] == id;
  }

  /** The path as one process's call meets it, other processes at work in between. */
  class JsonFile {
    const w: World
    var s: State

    constructor (w: World)
      ensures this.w == w && s == Start(w) && Inv(w, s)
    {
      this.w, s := w, Start(w);
      new;
      StartHolds(w);
    }

    // What others do between two steps of the call.
    method Others(id: nat)
      requires Inv(w, s)
      modifies this`s
      ensures Inv(w, s) && StageOf(s, id) == StageOf(old(s), id) && old(s).commits <= s.commits
    {
      var n: nat :| true;
      for i := 0 to n
        invariant Inv(w, s) && StageOf(s, id) == StageOf(old(s), id) && old(s).commits <= s.commits
      {
        hide Inv, Next, StageOf;
        var e: Event :| true;
        if Elsewhere(e, id) {
          InvShapes(w, s);
          NextKeeps(w, s, e);
          NextGrows(w, s, e);
          StageStays(w, s, e, id);
          s := Next(w, s, e);
        }
      }
    }

    // One step of the call, which may throw.
    method Act(id: nat, canOpen: bool) returns (threw: bool)
      requires Inv(w, s) && Holds(StageOf(s, id))
      modifies this`s
      ensures Inv(w, s) && old(s).commits <= s.commits
      ensures threw ==> StageOf(s, id) == Thrown(StageOf(old(s), id))
      ensures !threw ==> Advances(StageOf(old(s), id), StageOf(s, id))
      ensures !threw && StageOf(old(s), id).Renaming? ==> Committed(w, s.commits, id, StageOf(old(s), id).next)
      ensures !threw && StageOf(s, id).Returned? ==> !s.locked
    {
      hide Inv, Step, Fail, Committed, Advances, Thrown;
      Others(id);
      InvShapes(w, s);
      FailGrows(s, id);
      StepChanges(w, s, id, canOpen);
      StepAdvances(w, s, id, canOpen);
      ReturnFreesLock(w, s, id, canOpen);
      FailKeeps(w, s, id);
      StepKeeps(w, s, id, canOpen);
      if StageOf(s, id).Renaming? { RenameCommits(w, s, id, canOpen); }
      if * {
        s := Fail(s, id);
        return true;
      }
      s := Step(w, s, id, canOpen);
      return false;
    }

    // The body of the try: read, update, write, sync, rename, sync the directory.
    method Attempt(id: nat) returns (result: Option<Document>)
      requires Inv(w, s) && StageOf(s, id).Locked?
      modifies this`s
      ensures Inv(w, s) && StageOf(s, id) == Cleaning(result.Some?)
      ensures result.Some? ==> Committed(w, s.commits, id, result.value)
    {
      hide Inv, Committed, StageOf;
      var threw := Act(id, false);
      if threw || StageOf(s, id).Cleaning? { return None; }
      threw := Act(id, false);
      if threw || StageOf(s, id).Cleaning? { return None; }
      var next := StageOf(s, id).next;
      threw := Act(id, false);
      if threw { return None; }
      threw := Act(id, false);
      if threw { return None; }
      threw := Act(id, false);
      if threw { return None; }
      var canOpen: bool := *;
      threw := Act(id, canOpen);
      if threw { return None; }
      threw := Act(id, false);
      if threw { return None; }
      ghost var commits := s.commits;
      threw := Act(id, false);
      if threw { return None; }
      threw := Act(id, false);
      if threw { return None; }
      CommittedStays(w, commits, s.commits, id, next);
      result := Some(next);
    }

    /** The call returns success exactly with the document it committed: its update of
        what the updates committed before it had made. Where it returns, the lock is free. */
    method UpdateJsonFile(id: nat) returns (result: Option<Document>)
      requires Inv(w, s) && id !in s.calls
      modifies this`s
      ensures Inv(w, s)
      ensures var g := StageOf(s, id);
              && (g.Refused? || g.Dead? || g.Returned?) && (result.Some? <==> g == Returned(true))
              && (g.Returned? ==> !s.locked)
      ensures result.Some? ==> Committed(w, s.commits, id, result.value)
    {
      hide Inv, Committed;
      Others(id);
      InvShapes(w, s);
      StepKeeps(w, s, id, false);
      s := Step(w, s, id, false);
      if StageOf(s, id).Refused? { return None; }
      result := Attempt(id);
      ghost var commits := s.commits;
      for i := 0 to 2
        invariant Inv(w, s) && commits <= s.commits
        invariant StageOf(s, id) == if i == 0 then Cleaning(result.Some?)
            else if i == 1 then Unlocking(result.Some?) else Returned(result.Some?)
        invariant i == 2 ==> !s.locked
      {
        var threw := Act(id, false);
        if threw { return None; }
      }
      if result.Some? { CommittedStays(w, commits, s.commits, id, result.value); }
    }
  }
}

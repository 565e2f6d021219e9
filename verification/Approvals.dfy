/** Main's approvals of a worker's commands and edits, each spent once
    (src/acp-client.js:1474-1535, 1930-1958, 2098-2103, 2229-2235). */
module Approvals {
  import opened Wrappers

  const MAX_GRANTS_PER_SESSION := 64
  const MAX_DIFFS_PER_FILE := 64

  // ----- Edits -----

  /** A field of a diff as the worker sent it. */
  datatype Field = Text(text: string) | Missing | Other

  datatype Diff = Diff(oldText: Field, newText: Field)

  // Whether pattern stands at position at of text.
  predicate OccursAt(text: string, pattern: string, at: nat) {
    at + |pattern| <= |text| && text[at..at + |pattern|] == pattern
  }

  // The first occurrence at or after from, as String#indexOf finds it: a start
  // past the end counts as the end.
  function IndexOf(text: string, pattern: string, from: nat): (at: Option<nat>)
    ensures at.Some? ==> OccursAt(text, pattern, at.value)
    decreases |text| - from
  {
    if from > |text| then (if pattern == "" then Some(|text|) else None)
    else if OccursAt(text, pattern, from) then Some(from)
    else if from == |text| then None
    else IndexOf(text, pattern, from + 1)
  }

  lemma {:induction false} IndexOfIsFirst(text: string, pattern: string, from: nat, k: nat)
    requires from <= k && OccursAt(text, pattern, k)
    ensures IndexOf(text, pattern, from).Some? && IndexOf(text, pattern, from).value <= k
    ensures from <= |text| ==> from <= IndexOf(text, pattern, from).value
    decreases |text| - from
  {
    if from <= |text| && !OccursAt(text, pattern, from) && from < |text| { IndexOfIsFirst(text, pattern, from + 1, k); }
  }

  lemma {:induction false} IndexOfIsAfter(text: string, pattern: string, from: nat)
    ensures IndexOf(text, pattern, from).Some? && from <= |text| ==> from <= IndexOf(text, pattern, from).value
    decreases |text| - from
  {
    if from < |text| { IndexOfIsAfter(text, pattern, from + 1); }
  }

  /** text with the one occurrence of oldText replaced. */
  function ReplaceUnique(text: string, oldText: string, newText: string): Option<string> {
    match IndexOf(text, oldText, 0)
    case None => None
    case Some(at) =>
      if IndexOf(text, oldText, at + 1).Some? then None
      else Some(text[..at] + newText + text[at + |oldText|..])
  }

  /** result is text with oldText, which occurs there and nowhere else, not even
      overlapping itself, replaced by newText. */
  ghost predicate EditsTo(text: string, oldText: string, newText: string, result: string) {
    exists at: nat ::
      && OccursAt(text, oldText, at) && (forall k: nat | OccursAt(text, oldText, k) :: k == at)
      && result == text[..at] + newText + text[at + |oldText|..]
  }

  lemma ReplacesTheOnlyOccurrence(text: string, oldText: string, newText: string, result: string)
    requires text != oldText
    ensures ReplaceUnique(text, oldText, newText) == Some(result) <==> EditsTo(text, oldText, newText, result)
  {
    // The empty text occurs at both ends of any other.
    assert oldText == "" ==> OccursAt(text, oldText, 0) && OccursAt(text, oldText, |text|);
    if ReplaceUnique(text, oldText, newText) == Some(result) {
      var at := IndexOf(text, oldText, 0).value;
      forall k: nat | OccursAt(text, oldText, k) ensures k == at {
        IndexOfIsFirst(text, oldText, 0, k);
        if k > at { IndexOfIsFirst(text, oldText, at + 1, k); }
      }
    }
    if EditsTo(text, oldText, newText, result) {
      var at: nat :| && OccursAt(text, oldText, at) && (forall k: nat | OccursAt(text, oldText, k) :: k == at)
                     && result == text[..at] + newText + text[at + |oldText|..];
      IndexOfIsFirst(text, oldText, 0, at);
      IndexOfIsAfter(text, oldText, at + 1);
    }
  }

  // What one diff makes of a file, or of nothing known.
  function ApplyDiff(text: Option<string>, d: Diff): Option<string>
    requires d.newText.Text? && (d.oldText.Text? || d.oldText.Missing?)
  {
    if d.oldText.Missing? then Some(d.newText.text)
    else if text.None? then None
    else if text.value == d.oldText.text then Some(d.newText.text)
    else ReplaceUnique(text.value, d.oldText.text, d.newText.text)
  }

  /** A diff that says nothing of what was there makes the file its new text; one whose old
      text is the whole file does too; any other replaces the only occurrence, and
      nothing where there is no file. */
  lemma DiffMakes(text: string, oldText: string, newText: string, result: string)
    ensures ApplyDiff(None, Diff(Missing, Text(newText))) == ApplyDiff(Some(text), Diff(Missing, Text(newText)))
         == Some(newText)
    ensures ApplyDiff(None, Diff(Text(oldText), Text(newText))) == None
    ensures ApplyDiff(Some(text), Diff(Text(oldText), Text(newText))) == Some(result) <==>
              if text == oldText then result == newText else EditsTo(text, oldText, newText, result)
  {
    if text != oldText { ReplacesTheOnlyOccurrence(text, oldText, newText, result); }
  }

  predicate Readable(diffs: seq<Diff>) {
    0 < |diffs| <= MAX_DIFFS_PER_FILE && forall d | d in diffs ::
      d.newText.Text? && (d.oldText.Text? || d.oldText.Missing?)
  }

  function ApplyDiffs(text: Option<string>, diffs: seq<Diff>): Option<string>
    requires forall d | d in diffs :: d.newText.Text? && (d.oldText.Text? || d.oldText.Missing?)
    decreases |diffs|
  {
    if diffs == [] then text else ApplyDiffs(ApplyDiff(text, diffs[0]), diffs[1..])
  }

  /** What Main approved when it saw these diffs of a file that reads current. */
  predicate ApprovedContent(diffs: seq<Diff>, content: string, current: Option<string>) {
    Readable(diffs) && ApplyDiffs(current, diffs) == Some(content)
  }

  /** The diffs are made in their order, each of what those before it left; there are one
      to 64 of them, and each says what it puts there. */
  lemma {:induction false} DiffsInOrder(text: Option<string>, first: seq<Diff>, last: Diff)
    requires forall d | d in first + [last] :: d.newText.Text? && (d.oldText.Text? || d.oldText.Missing?)
    ensures forall d | d in first :: d.newText.Text? && (d.oldText.Text? || d.oldText.Missing?)
    ensures last.newText.Text? && (last.oldText.Text? || last.oldText.Missing?)
    ensures ApplyDiffs(text, first + [last]) == ApplyDiff(ApplyDiffs(text, first), last)
    ensures Readable(first + [last]) <==> |first| < 64
    decreases |first|
  {
    assert last in first + [last];
    assert forall d | d in first :: d in first + [last];
    if first == [] {
      assert [] + [last] == [last] && [last][1..] == [];
    } else {
      assert (first + [last])[1..] == first[1..] + [last];
      DiffsInOrder(ApplyDiff(text, first[0]), first[1..], last);
    }
  }

  lemma NoDiffs(text: Option<string>, diffs: seq<Diff>)
    requires forall d | d in diffs :: d.newText.Text? && (d.oldText.Text? || d.oldText.Missing?)
    ensures diffs == [] ==> ApplyDiffs(text, diffs) == text && !Readable(diffs)
  {}

  method IsApprovedContent(diffs: seq<Diff>, content: string, current: Option<string>) returns (approved: bool)
    ensures approved == ApprovedContent(diffs, content, current)
  {
    if |diffs| == 0 || |diffs| > MAX_DIFFS_PER_FILE { return false; }
    for i := 0 to |diffs|
      invariant forall d | d in diffs[..i] :: d.newText.Text? && (d.oldText.Text? || d.oldText.Missing?)
    {
      if !diffs[i].newText.Text? || diffs[i].oldText.Other? {
        assert diffs[i] in diffs;
        return false;
      }
    }
    assert diffs[..|diffs|] == diffs;
    var text := current;
    for i := 0 to |diffs|
      invariant ApplyDiffs(current, diffs) == ApplyDiffs(text, diffs[i..])
    {
      var d := diffs[i];
      assert diffs[i..][0] == d && diffs[i..][1..] == diffs[i + 1..];
      if d.oldText.Missing? {
        text := Some(d.newText.text);
      } else if text.Some? {
        text := if text.value == d.oldText.text then Some(d.newText.text)
          else ReplaceUnique(text.value, d.oldText.text, d.newText.text);
      }
    }
    return text == Some(content);
  }

  // ----- Approvals -----

  type Identity = (nat, nat)

  datatype Approved = Approved(identity: Option<Identity>, diffs: Option<seq<Diff>>)

  /** An approval of one command, in one directory with one environment, or of
      one write of each of some files. */
  datatype Grant =
    | Command(argv: Option<seq<string>>, cwd: string, cwdIdentity: Option<Identity>, env: map<string, string>)
    | Files(paths: map<string, Approved>)

  datatype Operation =
    | Terminal(argv: seq<string>, dynamic: bool, cwd: string, cwdIdentity: Identity, env: map<string, string>)
    | Write(path: string, target: Option<Identity>, content: string)

  /** Whether an approval covers an operation on a file that reads current. */
  predicate Covers(g: Grant, op: Operation, current: Option<string>) {
    match op
    case Terminal(argv, dynamic, cwd, identity, env) =>
      && g.Command? && !dynamic && g.argv == Some(argv) && g.cwd == cwd && g.cwdIdentity == Some(identity)
        && g.env == env
    case Write(path, target, content) =>
      && g.Files? && path in g.paths && g.paths[path].identity == target
      && (g.paths[path].diffs.None? || ApprovedContent(g.paths[path].diffs.value, content, current))
  }

  /** An approval is of one thing: of one command line, fixed, in one directory with one
      environment; or of one file each, and where it showed diffs, of one content. */
  lemma CoversOneThing(g: Grant, a: Operation, b: Operation, current: Option<string>)
    requires Covers(g, a, current) && Covers(g, b, current)
    ensures a.Terminal? ==> b == a && !a.dynamic
    ensures a.Write? ==> b.Write?
    ensures a.Write? && b.path == a.path ==>
              && b.target == a.target
              && (b.content == a.content || (g.Files? && a.path in g.paths && g.paths[a.path].diffs.None?))
  {}

  /** And it does cover that: the command it shows, the write of a file it names, and of a
      file whose diffs it showed, what they make of it. */
  lemma CoversWhatItShows(argv: seq<string>, cwd: string, identity: Identity, env: map<string, string>,
                          paths: map<string, Approved>, path: string, content: string, current: Option<string>)
    ensures Covers(Command(Some(argv), cwd, Some(identity), env), Terminal(argv, false, cwd, identity, env), current)
    ensures path in paths && paths[path].diffs.None? ==>
              Covers(Files(paths), Write(path, paths[path].identity, content), current)
    ensures path in paths && paths[path].diffs.Some? ==>
              (Covers(Files(paths), Write(path, paths[path].identity, content), current) <==>
               ApprovedContent(paths[path].diffs.value, content, current))
  {
    hide ApprovedContent;
  }

  /** An approval held for the turn, with its number among all that Main gave. */
  datatype Held = Held(serial: nat, grant: Grant)

  datatype Spend = Spend(serial: nat, operation: Operation, current: Option<string>)

  /** given and spent are history: every approval as Main gave it, and what each let through. */
  datatype Grants = Grants(held: seq<Held>, given: seq<Grant>, spent: seq<Spend>)

  // The newest are kept.
  function Add(s: Grants, g: Grant): Grants {
    var more := s.held + [Held(|s.given|, g)];
    s.(held := if |more| > MAX_GRANTS_PER_SESSION then more[1..] else more, given := s.given + [g])
  }

  function FindCovering(held: seq<Held>, op: Operation, current: Option<string>): (at: Option<nat>)
    ensures at.Some? ==> at.value < |held| && Covers(held[at.value].grant, op, current)
  {
    if held == [] then None
    else if Covers(held[0].grant, op, current) then Some(0)
    else
      var rest := FindCovering(held[1..], op, current);
      if rest.None? then None else Some(rest.value + 1)
  }

  lemma {:induction false} FindCoveringIsFirst(held: seq<Held>, op: Operation, current: Option<string>)
    ensures var at := FindCovering(held, op, current);
            forall k | 0 <= k < if at.Some? then at.value else |held| :: !Covers(held[k].grant, op, current)
  {
    if held != [] && !Covers(held[0].grant, op, current) {
      FindCoveringIsFirst(held[1..], op, current);
      var at := FindCovering(held, op, current);
      forall k | 0 <= k < if at.Some? then at.value else |held| ensures !Covers(held[k].grant, op, current) {
        if k > 0 { assert held[k] == held[1..][k - 1]; }
      }
    }
  }

  // What is left of an approval once one of its writes, or its command, is spent.
  function Use(held: seq<Held>, at: nat, op: Operation): seq<Held>
    requires at < |held|
  {
    var g := held[at].grant;
    if op.Write? && g.Files? && |g.paths| > 1
    then held[at := held[at].(grant := Files(g.paths - {op.path}))]
    else held[..at] + held[at + 1..]
  }

  function Consume(s: Grants, op: Operation, current: Option<string>): Grants {
    match FindCovering(s.held, op, current)
    case None => s
    case Some(at) => s.(held := Use(s.held, at, op), spent := s.spent + [Spend(s.held[at].serial, op, current)])
  }

  /** The newest 64 are held, the new one last. */
  lemma NewestAreHeld(s: Grants, g: Grant)
    requires |s.held| <= 64
    ensures var held := Add(s, g).held;
            && |held| == (if |s.held| < 64 then |s.held| + 1 else 64) && held[|held| - 1] == Held(|s.given|, g)
            && held[..|held| - 1] == s.held[|s.held| - (|held| - 1)..] && Add(s, g).spent == s.spent
  {}

  /** Whether something is let through is whether an approval that is held covers it; the
      oldest that does is spent. A command takes its approval with it; a write takes one
      file of it, and the others stay approved. */
  lemma SpendsTheOldest(s: Grants, op: Operation, current: Option<string>)
    ensures var r := Consume(s, op, current);
            if forall h | h in s.held :: !Covers(h.grant, op, current) then r == s
            else
              exists at: nat :: at < |s.held| && Covers(s.held[at].grant, op, current)
                && (forall k | 0 <= k < at :: !Covers(s.held[k].grant, op, current))
                && r.spent == s.spent + [Spend(s.held[at].serial, op, current)] && r.given == s.given
                && if op.Terminal? || s.held[at].grant.paths.Keys == {op.path}
                   then r.held == s.held[..at] + s.held[at + 1..]
                   else r.held == s.held[at := Held(s.held[at].serial, Files(s.held[at].grant.paths - {op.path}))]
  {
    hide ApprovedContent;
    FindCoveringIsFirst(s.held, op, current);
    var at := FindCovering(s.held, op, current);
    if at.Some? {
      assert s.held[at.value] in s.held;
      if op.Write? { OneKey(s.held[at.value].grant.paths, op.path); }
    }
  }

  lemma OneKey(paths: map<string, Approved>, path: string)
    requires path in paths
    ensures |paths| <= 1 <==> paths.Keys == {path}
  {
    assert |paths| == |paths.Keys|;
    if |paths| <= 1 {
      assert |paths.Keys - {path}| == 0;
      assert paths.Keys <= {path};
    }
  }

  datatype Event = Approves(grant: Grant) | Attempts(operation: Operation, current: Option<string>) | EndsTurn

  function Next(s: Grants, e: Event): Grants {
    match e
    case Approves(g) => Add(s, g)
    case Attempts(op, current) => Consume(s, op, current)
    case EndsTurn => s.(held := [])
  }

  function Run(events: seq<Event>): Grants
    decreases |events|
  {
    if events == [] then Grants([], [], []) else Next(Run(events[..|events| - 1]), events[|events| - 1])
  }

  // ----- What every run keeps -----

  // The same approval, for at most the paths it was given for.
  predicate PartOf(held: Grant, given: Grant) {
    if given.Files? then
      held.Files? && forall p | p in held.paths :: p in given.paths && held.paths[p] == given.paths[p]
    else held == given
  }

  // Two things one approval let through.
  predicate Compatible(a: Spend, b: Spend) {
    a.serial == b.serial ==> a.operation.Write? && b.operation.Write? && a.operation.path != b.operation.path
  }

  // A spent approval no longer covers what it was spent on.
  predicate NotHeld(h: Held, s: Spend) {
    h.serial == s.serial ==> h.grant.Files? && s.operation.Write? && s.operation.path !in h.grant.paths
  }

  ghost predicate HeldSound(held: seq<Held>, given: seq<Grant>, spent: seq<Spend>) {
    && (forall h | h in held :: h.serial < |given| && PartOf(h.grant, given[h.serial]))
    && (forall i, j | 0 <= i < j < |held| :: held[i].serial != held[j].serial)
    && (forall h, s | h in held && s in spent :: NotHeld(h, s))
  }

  ghost predicate SpentSound(given: seq<Grant>, spent: seq<Spend>) {
    && (forall s | s in spent :: s.serial < |given| && Covers(given[s.serial], s.operation, s.current))
    && (forall i, j | 0 <= i < j < |spent| :: Compatible(spent[i], spent[j]))
  }

  ghost predicate Sound(s: Grants) {
    |s.held| <= MAX_GRANTS_PER_SESSION && HeldSound(s.held, s.given, s.spent) && SpentSound(s.given, s.spent)
  }

  lemma AddHeld(held: seq<Held>, given: seq<Grant>, spent: seq<Spend>, g: Grant)
    requires HeldSound(held, given, spent) && forall s | s in spent :: s.serial < |given|
    ensures HeldSound(held + [Held(|given|, g)], given + [g], spent)
  {
    var h := Held(|given|, g);
    forall x | x in held + [h] ensures x in held || x == h {}
    hide NotHeld;
    forall s | s in spent ensures NotHeld(h, s) { NewNotHeld(h, s); }
  }

  lemma NewNotHeld(h: Held, s: Spend)
    requires s.serial != h.serial
    ensures NotHeld(h, s)
  {
  }

  lemma DropHeld(held: seq<Held>, given: seq<Grant>, spent: seq<Spend>)
    requires HeldSound(held, given, spent) && held != []
    ensures HeldSound(held[1..], given, spent)
  {
    hide NotHeld, PartOf;
    forall x | x in held[1..] ensures x in held {}
  }

  lemma AddSound(s: Grants, g: Grant)
    requires Sound(s)
    ensures Sound(Add(s, g))
  {
    AddHeld(s.held, s.given, s.spent, g);
    DropHeld(s.held + [Held(|s.given|, g)], s.given + [g], s.spent);
    hide Covers, HeldSound, Compatible;
    assert SpentSound(s.given + [g], s.spent);
  }

  lemma PartCovers(held: Grant, given: Grant, op: Operation, current: Option<string>)
    requires PartOf(held, given) && Covers(held, op, current)
    ensures Covers(given, op, current)
  {
  }

  // What is left of the approvals after one was used.
  lemma UseHeld(held: seq<Held>, given: seq<Grant>, spent: seq<Spend>, at: nat, op: Operation, current: Option<string>)
    requires HeldSound(held, given, spent) && at < |held| && Covers(held[at].grant, op, current)
    ensures HeldSound(Use(held, at, op), given, spent + [Spend(held[at].serial, op, current)])
  {
    var h := held[at];
    var s := Spend(h.serial, op, current);
    var rest := Use(held, at, op);
    assert h in held && PartOf(h.grant, given[h.serial]);
    forall x | x in rest ensures x.serial < |given| && PartOf(x.grant, given[x.serial]) && NotHeld(x, s)
                                 && forall y | y in spent :: NotHeld(x, y) {
      if x.serial == h.serial {
        UsedOnce(held, at, op, x);
      } else {
        assert x in held;
      }
    }
    hide NotHeld, PartOf, Covers;
    forall y | y in spent + [s] ensures y in spent || y == s {}
  }

  // Only what is left of a several-file approval keeps its number.
  lemma UsedOnce(held: seq<Held>, at: nat, op: Operation, x: Held)
    requires at < |held| && x in Use(held, at, op) && x.serial == held[at].serial
    requires forall i, j | 0 <= i < j < |held| :: held[i].serial != held[j].serial
    ensures op.Write? && held[at].grant.Files? && x.grant == Files(held[at].grant.paths - {op.path})
  {
  }

  lemma SpendOne(held: seq<Held>, given: seq<Grant>, spent: seq<Spend>, at: nat, op: Operation, current: Option<string>)
    requires HeldSound(held, given, spent) && SpentSound(given, spent) && at < |held|
        && Covers(held[at].grant, op, current)
    ensures SpentSound(given, spent + [Spend(held[at].serial, op, current)])
  {
    var h := held[at];
    var s := Spend(h.serial, op, current);
    assert h in held;
    PartCovers(h.grant, given[h.serial], op, current);
    forall y | y in spent ensures Compatible(y, s) { assert NotHeld(h, y); }
    hide Covers, Compatible, NotHeld, PartOf;
    forall y | y in spent + [s] ensures y in spent || y == s {}
  }

  lemma ConsumeSound(s: Grants, op: Operation, current: Option<string>)
    requires Sound(s)
    ensures Sound(Consume(s, op, current))
  {
    var at := FindCovering(s.held, op, current);
    if at.Some? {
      UseHeld(s.held, s.given, s.spent, at.value, op, current);
      SpendOne(s.held, s.given, s.spent, at.value, op, current);
      hide HeldSound, SpentSound, Covers;
    }
  }

  lemma {:induction false} RunSound(events: seq<Event>)
    ensures Sound(Run(events))
    decreases |events|
  {
    if events != [] {
      var s := Run(events[..|events| - 1]);
      RunSound(events[..|events| - 1]);
      match events[|events| - 1]
      case Approves(g) => AddSound(s, g);
      case Attempts(op, current) => ConsumeSound(s, op, current);
      case EndsTurn =>
    }
  }

  /** What Main approved is let through once: with nothing else approved, a command it
      covers goes, and then no second time. */
  lemma CommandGoesOnce(g: Grant, op: Operation, current: Option<string>, later: Option<string>)
    requires op.Terminal? && Covers(g, op, current)
    ensures var given := Run([Approves(g)]);
            var once := Consume(given, op, current);
            once.spent == [Spend(0, op, current)] && once.held == [] && Consume(once, op, later) == once
  {
    assert [Approves(g)][..0] == [];
    assert Run([]) == Grants([], [], []);
  }

  /** What was approved in a turn lets nothing through after it. */
  lemma TurnEndForgets(s: Grants, op: Operation, current: Option<string>)
    ensures var ended := Next(s, EndsTurn); Consume(ended, op, current) == ended && ended.spent == s.spent
  {}

  /** Over any run: each approval lets through at most one command, or at most one
      write of each file it named, each of them what Main approved, and no more
      than the limit are held. */
  lemma EachApprovalOnce(events: seq<Event>)
    ensures var s := Run(events);
            && |s.held| <= MAX_GRANTS_PER_SESSION
            && (forall x | x in s.spent :: x.serial < |s.given| && Covers(s.given[x.serial], x.operation, x.current))
            && (forall i, j | 0 <= i < j < |s.spent| && s.spent[i].serial == s.spent[j].serial ::
                  s.spent[i].operation.Write? && s.spent[j].operation.Write?
                    && s.spent[i].operation.path != s.spent[j].operation.path)
  {
    RunSound(events);
    hide Run, Covers, HeldSound;
    var s := Run(events);
    forall i, j | 0 <= i < j < |s.spent| ensures Compatible(s.spent[i], s.spent[j]) {}
  }

  /** A write let through by an approval that showed diffs makes of the file just
      what they make of it. */
  lemma WritesWhatWasShown(events: seq<Event>, x: Spend)
    requires x in Run(events).spent && x.operation.Write?
    ensures x.serial < |Run(events).given|
    ensures var g := Run(events).given[x.serial];
            && g.Files? && x.operation.path in g.paths
            && (var diffs := g.paths[x.operation.path].diffs;
                diffs.Some? ==>
                  Readable(diffs.value) && ApplyDiffs(x.current, diffs.value) == Some(x.operation.content))
  {
    EachApprovalOnce(events);
    hide Run, ApplyDiffs;
  }

  // ----- The approvals of a session, held in place -----

  class OperationGrants {
    var grants: seq<Held>
    var next: nat
    ghost var given: seq<Grant>
    ghost var spent: seq<Spend>

    constructor ()
      ensures Valid() && State() == Run([])
    {
      grants, next, given, spent := [], 0, [], [];
    }

    ghost predicate Valid()
      reads this
    {
      next == |given|
    }

    ghost function State(): Grants
      reads this
    {
      Grants(grants, given, spent)
    }

    method AddOperationGrant(g: Grant)
      requires Valid()
      modifies this
      ensures Valid() && State() == Add(old(State()), g)
    {
      grants := grants + [Held(next, g)];
      if |grants| > MAX_GRANTS_PER_SESSION { grants := grants[1..]; }
      next := next + 1;
      given := given + [g];
    }

    /** Spends the first approval that covers the operation, if one does. */
    method ConsumeGrant(op: Operation, current: Option<string>) returns (covered: bool)
      requires Valid()
      modifies this
      ensures Valid() && State() == Consume(old(State()), op, current)
      ensures covered <==> exists h | h in old(grants) :: Covers(h.grant, op, current)
    {
      hide Covers;
      var index := 0;
      FindCoveringIsFirst(grants, op, current);
      while index < |grants| && !Covers(grants[index].grant, op, current)
        invariant index <= |grants| && forall k | 0 <= k < index :: !Covers(grants[k].grant, op, current)
      {
        index := index + 1;
      }
      assert FindCovering(grants, op, current) == if index < |grants| then Some(index) else None;
      if index == |grants| { return false; }
      var h := grants[index];
      spent := spent + [Spend(h.serial, op, current)];
      if op.Write? && h.grant.Files? && |h.grant.paths| > 1 {
        grants := grants[index := h.(grant := Files(h.grant.paths - {op.path}))];
      } else {
        grants := grants[..index] + grants[index + 1..];
      }
      return true;
    }

    // The approvals of a turn go with it.
    method EndTurn()
      requires Valid()
      modifies this
      ensures Valid() && State() == Next(old(State()), EndsTurn)
    {
      grants := [];
    }
  }
}

/** The line window read in one forward pass (src/bounded-utf8.js:101-177), and
    what it has to be: the file split on LF, sliced, joined, and cut at the cap. */
module TextLines {
  import opened Utf8
  import opened Wrappers
  import opened TextHead

  const LF: Byte := 0x0A

  // ----- What the window is -----

  function Lines(f: seq<Byte>): (lines: seq<seq<Byte>>)
    ensures lines != []
  {
    if f == [] then [[]]
    else
      var rest := Lines(f[1..]);
      if f[0] == LF then [[]] + rest else [[f[0]] + rest[0]] + rest[1..]
  }

  function Join(lines: seq<seq<Byte>>): seq<Byte> {
    if lines == [] then [] else if |lines| == 1 then lines[0] else lines[0] + [LF] + Join(lines[1..])
  }

  // Array#slice from the line after skip lines, count lines long or to the end.
  function Slice(lines: seq<seq<Byte>>, skip: nat, count: Option<nat>): seq<seq<Byte>> {
    var rest := lines[Min(skip, |lines|)..];
    if count.None? then rest else rest[..Min(count.value, |rest|)]
  }

  // ----- The same window, found by reading forwards -----

  function Skip(f: seq<Byte>, skip: nat): seq<Byte> {
    if skip == 0 || f == [] then f else Skip(f[1..], if f[0] == LF then skip - 1 else skip)
  }

  function Take(f: seq<Byte>, count: Option<nat>): (window: seq<Byte>)
    ensures window <= f
  {
    if f == [] || count == Some(0) then []
    else if f[0] != LF then [f[0]] + Take(f[1..], count)
    else if count == Some(1) then []
    else [LF] + Take(f[1..], Fewer(count))
  }

  function Fewer(count: Option<nat>): Option<nat>
    requires count != Some(0)
  {
    if count.None? then None else Some(count.value - 1)
  }

  function Window(f: seq<Byte>, skip: nat, count: Option<nat>): seq<Byte> { Take(Skip(f, skip), count) }

  lemma {:induction false} SkipSlices(f: seq<Byte>, skip: nat)
    ensures skip < |Lines(f)| ==> Lines(Skip(f, skip)) == Lines(f)[skip..]
    ensures skip >= |Lines(f)| ==> Skip(f, skip) == []
  {
    if skip > 0 && f != [] {
      var rest := Lines(f[1..]);
      if f[0] == LF {
        SkipSlices(f[1..], skip - 1);
        assert skip - 1 < |rest| ==> Lines(f)[skip..] == rest[skip - 1..];
      } else {
        SkipSlices(f[1..], skip);
        assert skip < |rest| ==> Lines(f)[skip..] == rest[skip..];
      }
    }
  }

  lemma {:induction false} JoinInvertsLines(f: seq<Byte>)
    ensures Join(Lines(f)) == f
  {
    if f != [] {
      var rest := Lines(f[1..]);
      JoinInvertsLines(f[1..]);
      if f[0] == LF {
        assert Lines(f)[1..] == rest;
      } else {
        JoinGrows(f[0], rest[0], rest[1..]);
        assert [rest[0]] + rest[1..] == rest;
      }
    }
  }

  lemma JoinGrows(b: Byte, line: seq<Byte>, rest: seq<seq<Byte>>)
    ensures Join([[b] + line] + rest) == [b] + Join([line] + rest)
  {
    assert ([[b] + line] + rest)[1..] == rest && ([line] + rest)[1..] == rest;
    if rest != [] {
      assert [b] + line + [LF] + Join(rest) == [b] + (line + [LF] + Join(rest));
    }
  }

  lemma JoinBreak(rest: seq<seq<Byte>>)
    ensures Join([[]] + rest) == if rest == [] then [] else [LF] + Join(rest)
  {
    assert ([[]] + rest)[1..] == rest;
    assert [] + [LF] + Join(rest) == [LF] + Join(rest);
  }

  // What a line break in front adds.
  lemma BreakAhead(f: seq<Byte>, count: nat)
    requires f != [] && f[0] == LF && count > 0
    ensures Lines(f) == [[]] + Lines(f[1..])
    ensures Take(f, Some(count)) == if count == 1 then [] else [LF] + Take(f[1..], Some(count - 1))
  {}

  lemma TakeJoinsBreak(f: seq<Byte>, count: nat)
    requires f != [] && f[0] == LF && count > 0
    requires var rest := Lines(f[1..]); Take(f[1..], Some(count - 1)) == Join(rest[..Min(count - 1, |rest|)])
    ensures Take(f, Some(count)) == Join(Lines(f)[..Min(count, |Lines(f)|)])
  {
    hide Join, Lines, Take;
    BreakAhead(f, count);
    var rest := Lines(f[1..]);
    var k := Min(count - 1, |rest|);
    assert Lines(f)[..k + 1] == [[]] + rest[..k];
    JoinBreak(rest[..k]);
  }

  lemma TakeJoinsByte(f: seq<Byte>, count: nat)
    requires f != [] && f[0] != LF && count > 0
    requires var rest := Lines(f[1..]); Take(f[1..], Some(count)) == Join(rest[..Min(count, |rest|)])
    ensures Take(f, Some(count)) == Join(Lines(f)[..Min(count, |Lines(f)|)])
  {
    hide Join;
    var rest := Lines(f[1..]);
    var k := Min(count, |rest|);
    assert Lines(f)[..k] == [[f[0]] + rest[0]] + rest[1..k];
    assert rest[..k] == [rest[0]] + rest[1..k];
    JoinGrows(f[0], rest[0], rest[1..k]);
  }

  lemma {:induction false} TakeJoins(f: seq<Byte>, count: nat)
    ensures Take(f, Some(count)) == Join(Lines(f)[..Min(count, |Lines(f)|)])
  {
    if f == [] {
      assert Lines(f)[..1] == [[]] && Lines(f)[..0] == [];
    } else if count > 0 {
      if f[0] == LF {
        TakeJoins(f[1..], count - 1);
        TakeJoinsBreak(f, count);
      } else {
        TakeJoins(f[1..], count);
        TakeJoinsByte(f, count);
      }
      hide Take, Lines, Join;
    }
  }

  lemma {:induction false} TakeAll(f: seq<Byte>)
    ensures Take(f, None) == f
  {
    if f != [] { TakeAll(f[1..]); }
  }

  lemma LinesAhead(b: Byte, f: seq<Byte>)
    ensures var rest := Lines(f);
            Lines([b] + f) == if b == 0x0A then [[]] + rest else [[b] + rest[0]] + rest[1..]
  {
    assert ([b] + f)[1..] == f;
  }

  lemma JoinAhead(b: Byte, line: seq<Byte>, rest: seq<seq<Byte>>)
    ensures Join([[b] + line] + rest) == [b] + Join([line] + rest)
    ensures rest != [] ==> Join([[]] + rest) == [0x0A] + Join(rest)
  {
    assert ([[b] + line] + rest)[1..] == rest && ([line] + rest)[1..] == rest && ([[]] + rest)[1..] == rest;
    assert [b] + line + [LF] + Join(rest) == [b] + (line + [LF] + Join(rest));
  }

  /** Joined lines split back, where none holds a line feed. */
  lemma {:induction false} LinesInvertJoin(first: seq<Byte>, rest: seq<seq<Byte>>)
    requires 0x0A !in first && forall line | line in rest :: 0x0A !in line
    ensures Lines(Join([first] + rest)) == [first] + rest
    decreases |rest|, |first|
  {
    hide Lines, Join;
    if first != [] {
      assert first == [first[0]] + first[1..];
      LinesInvertJoin(first[1..], rest);
      JoinAhead(first[0], first[1..], rest);
      LinesAhead(first[0], Join([first[1..]] + rest));
      assert ([first[1..]] + rest)[1..] == rest;
    } else if rest != [] {
      assert [rest[0]] + rest[1..] == rest;
      LinesInvertJoin(rest[0], rest[1..]);
      JoinAhead(0, [], rest);
      LinesAhead(0x0A, Join(rest));
    } else {
      assert [first] + rest == [[]];
      NothingJoins();
    }
  }

  lemma NothingJoins()
    ensures Lines(Join([[]])) == [[]]
  {}

  /** Reading forwards finds what splitting, slicing and joining would. */
  lemma WindowIsSlice(f: seq<Byte>, skip: nat, count: Option<nat>)
    ensures Window(f, skip, count) == Join(Slice(Lines(f), skip, count))
  {
    hide Skip, Take, Lines, Join;
    SkipSlices(f, skip);
    var lines := Lines(f);
    if skip < |lines| {
      JoinInvertsLines(Skip(f, skip));
      if count.None? { TakeAll(Skip(f, skip)); } else { TakeJoins(Skip(f, skip), count.value); }
    } else {
      assert lines[|lines|..] == [];
      NothingLeft(count);
    }
  }

  lemma NothingLeft(count: Option<nat>)
    ensures Take([], count) == [] && Join([]) == []
    ensures forall skip :: Skip([], skip) == []
  {
  }

  lemma SkipNone(f: seq<Byte>)
    ensures Skip(f, 0) == f
  {
  }

  // ----- The arguments, as JavaScript numbers -----

  datatype Num = NaN | PosInf | NegInf | Fin(value: real)

  predicate Positive(n: Num) { n.PosInf? || (n.Fin? && n.value > 0.0) }

  // Whether the window is empty whatever the file holds.
  predicate Refused(line: Num, limit: Num) { !line.Fin? || !Positive(limit) }

  // Math.max(0, Math.floor(line) - 1)
  function Skipped(line: Num): nat
    requires line.Fin?
  {
    if line.value.Floor - 1 < 0 then 0 else line.value.Floor - 1
  }

  // completed >= limit
  predicate Reached(completed: nat, limit: Num)
    requires Positive(limit)
  {
    limit.Fin? && completed as real >= limit.value
  }

  // How many whole lines a limit lets through: a fraction counts as one more.
  function Wanted(limit: Num): (count: Option<nat>)
    requires Positive(limit)
    ensures count != Some(0)
  {
    if limit.PosInf? then None
    else if limit.value.Floor as real == limit.value then Some(limit.value.Floor) else Some(limit.value.Floor + 1)
  }

  /** Nothing is read for a line that is no finite number, or for a limit that is none, zero
      or less. */
  lemma RefusedExactly(line: Num, limit: Num)
    ensures Refused(line, limit) <==>
              line in {NaN, PosInf, NegInf} || limit in {NaN, NegInf} || (limit.Fin? && limit.value <= 0.0)
  {}

  /** Line n, or any number from n up to the next, is the line after n - 1 others; what
      is less than two is the first. A limit lets n lines through up to n, and one more
      after it. */
  lemma NumbersMean(v: real, n: nat)
    ensures v < 2.0 ==> Skipped(Fin(v)) == 0
    ensures n as real <= v < (n + 1) as real && n > 0 ==> Skipped(Fin(v)) == n - 1
    ensures n as real < v <= (n + 1) as real ==> Wanted(Fin(v)) == Some(n + 1)
    ensures Wanted(PosInf) == None
  {
    if n as real <= v < (n + 1) as real { assert v.Floor == n; }
    if n as real < v < (n + 1) as real { assert v.Floor == n; }
    if v < 2.0 { assert v.Floor < 2; }
  }

  lemma WantedIsReached(limit: Num, completed: nat)
    requires Positive(limit)
    ensures Reached(completed, limit) <==> Wanted(limit).Some? && completed >= Wanted(limit).value
  {
  }

  // ----- The reader -----

  // How many lines are still to come.
  function Less(count: Option<nat>, completed: nat): Option<nat> {
    if count.None? then None else if completed >= count.value then Some(0) else Some(count.value - completed)
  }

  predicate Exceeds(length: nat, maxBytes: Option<nat>) { maxBytes.Some? && length > maxBytes.value }

  // What a window cut at the cap keeps.
  function Capped(window: seq<Byte>, maxBytes: Option<nat>): seq<Byte> {
    if Exceeds(|window|, maxBytes) then Whole(window[..maxBytes.value]) else window
  }

  // The part of the chunk before the line that is wanted.
  method SkipLines(chunk: array<Byte>, bytesRead: nat, skip: nat, ghost rest: seq<Byte>)
    returns (index: nat, skipped: nat)
    requires bytesRead <= chunk.Length && chunk[..bytesRead] <= rest
    ensures index <= bytesRead && skipped <= skip
    ensures skipped < skip ==> index == bytesRead
    ensures Skip(rest, skip) == Skip(rest[index..], skip - skipped)
  {
    index, skipped := 0, 0;
    while skipped < skip && index < bytesRead
      invariant index <= bytesRead && skipped <= skip
      invariant Skip(rest, skip) == Skip(rest[index..], skip - skipped)
    {
      assert rest[index] == chunk[..bytesRead][index];
      assert rest[index..][1..] == rest[index + 1..];
      if chunk[index] == LF { skipped := skipped + 1; }
      index := index + 1;
    }
  }

  // The window is what was taken and what the rest of the file still gives.
  ghost predicate Taken(window: seq<Byte>, taken: seq<Byte>, f: seq<Byte>, position: nat, count: Option<nat>) {
    position <= |f| && window == taken + Take(f[position..], count)
  }

  lemma TakeStep(window: seq<Byte>, taken: seq<Byte>, f: seq<Byte>, position: nat, count: Option<nat>)
    requires Taken(window, taken, f, position, count) && position < |f| && count != Some(0)
    ensures f[position] != LF ==> Taken(window, taken + [f[position]], f, position + 1, count)
    ensures f[position] == LF && count == Some(1) ==> window == taken
    ensures f[position] == LF && count != Some(1) ==> Taken(window, taken + [LF], f, position + 1, Fewer(count))
  {
    assert f[position..][1..] == f[position + 1..];
  }

  // The part of the chunk that belongs to the window.
  method TakeLines(chunk: array<Byte>, bytesRead: nat, from: nat, limit: Num, completed: nat, ghost rest: seq<Byte>)
    returns (index: nat, newCompleted: nat, done: bool)
    requires from <= bytesRead <= chunk.Length && chunk[..bytesRead] <= rest
    requires Positive(limit) && !Reached(completed, limit)
    ensures from <= index <= bytesRead
    ensures done <==> Reached(newCompleted, limit)
    ensures !done ==> index == bytesRead
    ensures Take(rest[from..], Less(Wanted(limit), completed))
         == chunk[from..index] + if done then [] else Take(rest[index..], Less(Wanted(limit), newCompleted))
  {
    hide Take, Reached, Wanted, Taken;
    index, newCompleted, done := from, completed, false;
    ghost var count := Wanted(limit);
    ghost var window := Take(rest[from..], Less(count, completed));
    TakenNothing(rest, from, Less(count, completed));
    assert chunk[from..from] == [];
    while index < bytesRead
      invariant from <= index <= bytesRead && !done && !Reached(newCompleted, limit)
      invariant Taken(window, chunk[from..index], rest, index, Less(count, newCompleted))
    {
      assert rest[index] == chunk[..bytesRead][index];
      assert chunk[from..index + 1] == chunk[from..index] + [chunk[index]];
      WantedIsReached(limit, newCompleted);
      WantedIsReached(limit, newCompleted + 1);
      TakeStep(window, chunk[from..index], rest, index, Less(count, newCompleted));
      if chunk[index] == LF {
        newCompleted := newCompleted + 1;
        if Reached(newCompleted, limit) {
          done := true;
          break;
        }
      }
      index := index + 1;
    }
    if !done { TakenAll(window, chunk[from..index], rest, index, Less(count, newCompleted)); }
  }

  lemma TakenNothing(f: seq<Byte>, position: nat, count: Option<nat>)
    requires position <= |f|
    ensures Taken(Take(f[position..], count), [], f, position, count)
  {
  }

  lemma TakenAll(window: seq<Byte>, taken: seq<Byte>, f: seq<Byte>, position: nat, count: Option<nat>)
    requires Taken(window, taken, f, position, count)
    ensures position <= |f| && window == taken + Take(f[position..], count)
  {
  }

  lemma Assemble(whole: seq<Byte>, window: seq<Byte>, slice: seq<Byte>, after: seq<Byte>)
    requires whole == window + (slice + after)
    ensures whole == (window + slice) + after
    ensures forall cap :: |window| <= cap <= |window + slice| ==> whole[..cap] == window + slice[..cap - |window|]
  {
  }

  /** For every pattern of short reads, the window that split, slice and join give. */
  method ReadTextLines(handle: FileHandle, line: Num, limit: Num, maxBytes: Option<nat>, chunkBytes: nat)
    returns (window: seq<Byte>, truncated: bool)
    ensures Refused(line, limit) || chunkBytes == 0 ==> window == [] && !truncated
    ensures !Refused(line, limit) && chunkBytes > 0 ==>
      var whole := Join(Slice(Lines(handle.content), Skipped(line), Wanted(limit)));
      window == Capped(whole, maxBytes) && (truncated <==> Exceeds(|whole|, maxBytes))
  {
    hide Take, Skip, Lines, Join, Slice, Wanted, Whole;
    if Refused(line, limit) { return [], false; }
    var skip := Skipped(line);
    var skipped, completed, position := 0, 0, 0;
    window, truncated := [], false;
    ghost var f := handle.content;
    ghost var whole := Window(f, skip, Wanted(limit));
    WindowIsSlice(f, skip, Wanted(limit));
    var buffer := new Byte[chunkBytes](_ => 0);
    var done := false;
    assert f[0..] == f && Less(Wanted(limit), 0) == Wanted(limit);
    WantedIsReached(limit, 0);
    while !done
      invariant !truncated && position <= |f| && skipped <= skip && !Exceeds(|window|, maxBytes)
      invariant skipped < skip || chunkBytes == 0 ==> window == []
      invariant !done ==> !Reached(completed, limit)
      invariant whole ==
                window + if done then [] else Take(Skip(f[position..], skip - skipped), Less(Wanted(limit), completed))
      decreases |f| - position, !done
    {
      var bytesRead := handle.Read(buffer, 0, chunkBytes, position);
      if bytesRead == 0 {
        assert position >= |f| ==> f[position..] == [];
        NothingLeft(Less(Wanted(limit), completed));
        break;
      }
      ghost var rest := f[position..];
      position := position + bytesRead;
      var index, more := SkipLines(buffer, bytesRead, skip - skipped, rest);
      skipped := skipped + more;
      assert index == bytesRead ==> rest[index..] == f[position..];
      if skipped < skip { continue; }
      SkipNone(rest[index..]);
      var from := index;
      index, completed, done := TakeLines(buffer, bytesRead, from, limit, completed, rest);
      var slice := buffer[from..index];
      ghost var after := if done then [] else Take(rest[index..], Less(Wanted(limit), completed));
      if !done { SkipNone(f[position..]); }
      Assemble(whole, window, slice, after);
      if maxBytes.Some? && |slice| > maxBytes.value - |window| {
        window := window + slice[..maxBytes.value - |window|];
        truncated := true;
        break;
      }
      window := window + slice;
    }
    if truncated { window := TrimIncompleteUtf8(window); }
  }
}

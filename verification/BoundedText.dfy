/** The bounded tail accumulator for UTF-8 text (src/bounded-utf8.js:182-396):
    sealed chunks that are views of stores, an open block small appends share, a
    carried high surrogate, eviction at character boundaries and copy-out of
    stores that are mostly evicted. */
module BoundedText {
  import opened Utf8

  const SMALL_APPEND_BYTES := 4096
  const MIN_BLOCK_BYTES := 256
  const MAX_BLOCK_BYTES := 16 * 1024
  const COMPACT_AFTER_SLOTS := 32

  // ----- What an accumulator holds, without how it holds it -----

  /** live is what a read returns, trimmed everything handed to onTrim, pending
      the high surrogate an append ended with, if it did. */
  datatype Acc = Acc(live: seq<Byte>, trimmed: seq<Byte>, pending: seq<CodeUnit>)

  const EMPTY := Acc([], [], [])

  // The part of value that waits for what comes next.
  function Carried(value: seq<CodeUnit>): seq<CodeUnit> {
    if EndsHigh(value) then value[|value| - 1..] else []
  }

  function Settled(value: seq<CodeUnit>): seq<CodeUnit> { value[..|value| - |Carried(value)|] }

  function AppendTo(a: Acc, max: nat, text: seq<CodeUnit>): Acc {
    if text == [] then a
    else
      var value := a.pending + text;
      Trimmed(Acc(a.live + Bytes(Settled(value)), a.trimmed, Carried(value)), max)
  }

  function Room(a: Acc, max: nat): int { max - |Bytes(a.pending)| }

  function Evicted(a: Acc, max: nat): Acc {
    var cut := Cut(a.live, Room(a, max));
    Acc(a.live[cut..], a.trimmed + a.live[..cut], a.pending)
  }

  function Trimmed(a: Acc, max: nat): Acc {
    var e := Evicted(a, max);
    if |e.live| > Room(e, max) then Acc(e.live, e.trimmed + Bytes(e.pending), []) else e
  }

  function Run(max: nat, parts: seq<seq<CodeUnit>>): Acc {
    if parts == [] then EMPTY else AppendTo(Run(max, parts[..|parts| - 1]), max, parts[|parts| - 1])
  }

  function Joined(parts: seq<seq<CodeUnit>>): seq<CodeUnit> {
    if parts == [] then [] else Joined(parts[..|parts| - 1]) + parts[|parts| - 1]
  }

  // ----- What every run of appends comes to -----

  /** What an accumulator that was given text has to hold. */
  ghost predicate Holds(a: Acc, max: nat, text: seq<CodeUnit>) {
    && a.pending == (if max >= 3 then Carried(text) else [])
    && var settled := text[..|text| - |a.pending|];
       && a.live == Encode(Tail(Scalars(settled), Room(a, max)))
       && (max >= 3 ==> a.trimmed + a.live == Bytes(settled))
  }

  lemma CarriedBytes(value: seq<CodeUnit>)
    ensures Bytes(Carried(value)) == if EndsHigh(value) then EncodeScalar(REPLACEMENT) else []
    ensures |EncodeScalar(REPLACEMENT)| == 3
  {
    if EndsHigh(value) {
      var c := Carried(value);
      assert |c| == 1 && IsHigh(c[0]) && Scalars(c[1..]) == [];
      assert Scalars(c) == [REPLACEMENT];
      assert Encode([REPLACEMENT]) == EncodeScalar(REPLACEMENT) + Encode([]);
    }
  }

  // Where a dropped surrogate would have paired, the pair and the two lone
  // halves are both too wide for a bound of one or two bytes.
  lemma SplitPairTail(a: seq<CodeUnit>, b: seq<CodeUnit>, max: nat)
    requires max < 3 && EndsHigh(a) && StartsLow(b)
    ensures Tail(Scalars(a + b), max) == Tail(Scalars(a) + Scalars(b), max)
  {
    hide *;
    HalvesOf(a, b);
    var front, high, low, rest := a[..|a| - 1], a[|a| - 1], b[0], b[1..];
    CarriedBytes(a);
    PairIsWide(high, low);
    SplitReads(front, high, low, rest);
    TailPastWide(Scalars(front), Pair(high, low), Scalars(rest), max);
    TailPastWide(Scalars(front) + [REPLACEMENT], REPLACEMENT, Scalars(rest), max);
  }

  lemma HalvesOf(a: seq<CodeUnit>, b: seq<CodeUnit>)
    requires EndsHigh(a) && StartsLow(b)
    ensures a != [] && b != [] && IsHigh(a[|a| - 1]) && IsLow(b[0])
    ensures var front, high, low, rest := a[..|a| - 1], a[|a| - 1], b[0], b[1..];
            a == front + [high] && b == [low] + rest && a + b == front + [high, low] + rest
  {}

  lemma SplitReads(front: seq<CodeUnit>, high: CodeUnit, low: CodeUnit, rest: seq<CodeUnit>)
    requires IsHigh(high) && IsLow(low)
    ensures Scalars(front + [high, low] + rest) == Scalars(front) + [Pair(high, low)] + Scalars(rest)
    ensures Scalars(front + [high]) + Scalars([low] + rest)
         == Scalars(front) + [REPLACEMENT] + [REPLACEMENT] + Scalars(rest)
  {
    ReadsPair(high, low, rest);
    assert front + [high, low] + rest == front + ([high, low] + rest);
    hide Scalars;
    ScalarsConcat(front, [high, low] + rest);
    ScalarsConcat(front, [high]);
  }

  lemma ReadsPair(high: CodeUnit, low: CodeUnit, rest: seq<CodeUnit>)
    requires IsHigh(high) && IsLow(low)
    ensures Scalars([high, low] + rest) == [Pair(high, low)] + Scalars(rest)
    ensures Scalars([high]) == [REPLACEMENT] && Scalars([low] + rest) == [REPLACEMENT] + Scalars(rest)
  {
    assert ([high, low] + rest)[2..] == rest && ([low] + rest)[1..] == rest && [high][1..] == [];
  }

  lemma PairIsWide(high: CodeUnit, low: CodeUnit)
    requires IsHigh(high) && IsLow(low)
    ensures |EncodeScalar(Pair(high, low))| == 4
  {
  }

  // One more settled piece: cutting what was left of the text so far together
  // with the new piece is cutting the whole text.
  lemma TailGrows(sofar: seq<CodeUnit>, piece: seq<CodeUnit>, max: nat, first: int, second: int)
    requires second - |Bytes(piece)| <= first
    requires EndsHigh(sofar) && StartsLow(piece) ==> max < 3 && second == max
    ensures Tail(Tail(Scalars(sofar), first) + Scalars(piece), second) == Tail(Scalars(sofar + piece), second)
  {
    TailTwice(Scalars(sofar), Scalars(piece), first, second);
    if EndsHigh(sofar) && StartsLow(piece) {
      SplitPairTail(sofar, piece, max);
    } else {
      ScalarsConcat(sofar, piece);
    }
  }

  // What is cut from the live bytes and a new piece, in characters.
  lemma EvictedHolds(a: Acc, max: nat, sofar: seq<CodeUnit>, piece: seq<CodeUnit>, first: int)
    requires a.live == Encode(Tail(Scalars(sofar), first)) + Bytes(piece)
    requires Room(a, max) - |Bytes(piece)| <= first
    requires EndsHigh(sofar) && StartsLow(piece) ==> max < 3 && Room(a, max) == max
    ensures Evicted(a, max).live == Encode(Tail(Scalars(sofar + piece), Room(a, max)))
    ensures Evicted(a, max).trimmed + Evicted(a, max).live == a.trimmed + a.live
    ensures Evicted(a, max).pending == a.pending
  {
    hide Tail, Encode, Scalars, Boundary;
    var kept := Tail(Scalars(sofar), first);
    EncodeConcat(kept, Scalars(piece));
    CutKeepsTail(kept + Scalars(piece), Room(a, max));
    TailGrows(sofar, piece, max, first, Room(a, max));
    var cut := Cut(a.live, Room(a, max));
    assert a.live[..cut] + a.live[cut..] == a.live;
  }

  lemma CutFits(s: seq<Byte>, limit: int)
    ensures limit >= 0 ==> |s[Cut(s, limit)..]| <= limit
    ensures limit < 0 ==> s[Cut(s, limit)..] == []
  {
  }

  // The text so far and one more append, as settled and carried text.
  lemma AppendSplits(text: seq<CodeUnit>, pending: seq<CodeUnit>, more: seq<CodeUnit>)
    requires more != [] && pending == Carried(text)
    ensures var settled, value := Settled(text), pending + more;
            && Carried(text + more) == Carried(value)
            && Settled(text + more) == settled + Settled(value)
            && (pending != [] ==> |Bytes(Settled(value))| >= 3)
            && !(EndsHigh(settled) && StartsLow(Settled(value)))
  {
    var settled, value := Settled(text), pending + more;
    assert text + more == settled + value;
    assert Settled(text + more) == settled + Settled(value);
    if pending != [] { LoneHighIsWide(Settled(value)); }
  }

  // With room for a carried surrogate, trimming is eviction alone.
  lemma TrimmedIsEvicted(a: Acc, max: nat)
    requires Room(a, max) >= 0
    ensures Trimmed(a, max) == Evicted(a, max)
  {
    CutFits(a.live, Room(a, max));
  }

  lemma AppendHoldsWide(a: Acc, max: nat, text: seq<CodeUnit>, more: seq<CodeUnit>)
    requires max >= 3 && Holds(a, max, text) && more != []
    ensures Holds(AppendTo(a, max, more), max, text + more)
  {
    hide Tail, Encode, Scalars, Cut, EncodeScalar, Trimmed, Evicted;
    AppendSplits(text, a.pending, more);
    var settled, value := Settled(text), a.pending + more;
    var piece, carried := Settled(value), Carried(value);
    var next := Acc(a.live + Bytes(piece), a.trimmed, carried);
    CarriedBytes(value);
    CarriedBytes(text);
    EvictedHolds(next, max, settled, piece, Room(a, max));
    TrimmedIsEvicted(next, max);
    BytesConcat(settled, piece);
    assert a.trimmed + (a.live + Bytes(piece)) == (a.trimmed + a.live) + Bytes(piece);
    assert AppendTo(a, max, more) == Evicted(next, max);
  }

  lemma BytesConcat(a: seq<CodeUnit>, b: seq<CodeUnit>)
    requires !(EndsHigh(a) && StartsLow(b))
    ensures Bytes(a + b) == Bytes(a) + Bytes(b)
  {
    ScalarsConcat(a, b);
    EncodeConcat(Scalars(a), Scalars(b));
  }

  lemma LoneHighIsWide(piece: seq<CodeUnit>)
    requires piece != [] && IsHigh(piece[0])
    ensures |Bytes(piece)| >= 3
  {
    hide EncodeScalar;
    CarriedBytes(piece[..1]);
    if |piece| >= 2 && IsLow(piece[1]) { PairIsWide(piece[0], piece[1]); }
  }

  // Without, everything goes, the carried surrogate included.
  lemma TrimmedIsDropped(a: Acc, max: nat)
    requires Room(a, max) < 0
    ensures Trimmed(a, max) == Acc([], a.trimmed + a.live + Bytes(a.pending), [])
  {
    hide Bytes;
    CutFits(a.live, Room(a, max));
    assert a.live[Cut(a.live, Room(a, max))..] == [];
    assert a.live[..|a.live|] == a.live;
  }

  lemma AppendHoldsNarrow(a: Acc, max: nat, text: seq<CodeUnit>, more: seq<CodeUnit>)
    requires max < 3 && Holds(a, max, text) && more != []
    ensures Holds(AppendTo(a, max, more), max, text + more)
  {
    hide Tail, Encode, Scalars, Cut, EncodeScalar, Trimmed, Evicted;
    var piece, carried := Settled(more), Carried(more);
    var next := Acc(a.live + Bytes(piece), a.trimmed, carried);
    CarriedBytes(more);
    NothingCarried();
    assert a.pending + more == more && text[..|text|] == text;
    if carried == [] {
      assert piece == more;
      EvictedHolds(next, max, text, piece, max);
      TrimmedIsEvicted(next, max);
    } else {
      TrimmedIsDropped(next, max);
      DroppedTail(text + more, max);
    }
    assert (text + more)[..|text + more|] == text + more;
  }

  lemma NothingCarried()
    ensures Bytes([]) == []
  {
    assert Scalars([]) == [];
  }

  lemma DroppedTail(t: seq<CodeUnit>, max: nat)
    requires max < 3 && EndsHigh(t)
    ensures Encode(Tail(Scalars(t), max)) == []
  {
    hide EncodeScalar;
    var front, carried := Settled(t), Carried(t);
    CarriedBytes(t);
    assert t == front + carried && Scalars(carried[1..]) == [];
    ScalarsConcat(front, carried);
    assert Scalars(t) == Scalars(front) + [REPLACEMENT] + [];
    TailPastWide(Scalars(front), REPLACEMENT, [], max);
  }

  /** For every bound and every way of splitting a text into appends, what is
      retained is the longest run of its last characters that the bound, less a
      carried surrogate, allows; and from three bytes up nothing is lost: what
      was handed to onTrim and what is retained are the whole encoding. */
  lemma {:induction false} RunHolds(max: nat, parts: seq<seq<CodeUnit>>)
    ensures Holds(Run(max, parts), max, Joined(parts))
  {
    hide Holds, AppendTo;
    if parts == [] {
      EmptyHolds(max);
    } else {
      var front, last := parts[..|parts| - 1], parts[|parts| - 1];
      RunHolds(max, front);
      AppendHolds(Run(max, front), max, Joined(front), last);
    }
  }

  /** Characters that come in any pieces, split inside them or not, are retained as the
      longest run of the last of them that fits; all of them where all fit. */
  lemma LastCharactersStay(max: nat, parts: seq<seq<CodeUnit>>, cs: seq<Scalar>)
    requires Joined(parts) == UnitsOf(cs)
    ensures var a := Run(max, parts);
            && a.pending == [] && a.live == Encode(Tail(cs, max))
            && (|Encode(cs)| <= max ==> a.live == Encode(cs) && (max >= 3 ==> a.trimmed == []))
            && (max >= 3 ==> a.trimmed + a.live == Encode(cs))
  {
    RunHolds(max, parts);
    UnitsEndLow(cs);
    ReadingInvertsWriting(cs);
    hide Run, Joined, Scalars, UnitsOf, Encode;
    var a, text := Run(max, parts), Joined(parts);
    assert Carried(text) == [] && text[..|text|] == text;
    NothingCarried();
  }

  // What characters write ends with no first half of a pair.
  lemma {:induction false} UnitsEndLow(cs: seq<Scalar>)
    ensures !EndsHigh(UnitsOf(cs))
  {
    if cs != [] { UnitsEndLow(cs[1..]); }
  }

  /** So how a text was split does not show: not in what is retained, whatever
      the bound, and from three bytes up nowhere at all. */
  lemma SplitDoesNotShow(max: nat, parts: seq<seq<CodeUnit>>, others: seq<seq<CodeUnit>>)
    requires Joined(parts) == Joined(others)
    ensures Run(max, parts).live == Run(max, others).live && Run(max, parts).pending == Run(max, others).pending
    ensures max >= 3 ==> Run(max, parts) == Run(max, others)
  {
    RunHolds(max, parts);
    RunHolds(max, others);
    hide Run, Joined, Tail, Scalars, Encode;
    var p, o := Run(max, parts), Run(max, others);
    if max >= 3 {
      assert p.trimmed == (p.trimmed + p.live)[..|p.trimmed + p.live| - |p.live|];
      assert o.trimmed == (o.trimmed + o.live)[..|o.trimmed + o.live| - |o.live|];
    }
  }

  /** Nothing is lost or made up: what was handed to onTrim, then what is live,
      is the encoding of all that was appended, less a carried surrogate. */
  ghost predicate Conserves(max: nat, parts: seq<seq<CodeUnit>>) {
    var a, text := Run(max, parts), Joined(parts);
    |a.pending| <= |text| && a.trimmed + a.live == Bytes(text[..|text| - |a.pending|])
  }

  /** Whether an append ends inside a surrogate pair. */
  ghost predicate SplitsPair(parts: seq<seq<CodeUnit>>) {
    exists i | 0 <= i < |parts| :: EndsHigh(Joined(parts[..i])) && StartsLow(parts[i])
  }

  // The appends encoded one by one.
  function BytesOf(parts: seq<seq<CodeUnit>>): seq<Byte> {
    if parts == [] then [] else BytesOf(parts[..|parts| - 1]) + Bytes(parts[|parts| - 1])
  }

  // What is trimmed, then what is live, through one trim.
  lemma TrimKeeps(a: Acc, max: nat, settled: seq<Byte>)
    requires max < 3 && (a.pending == [] || Room(a, max) < 0)
    ensures var b := Trimmed(Acc(a.live + settled, a.trimmed, a.pending), max);
            b.pending == [] && b.trimmed + b.live == a.trimmed + a.live + (settled + Bytes(a.pending))
  {
    hide Bytes, Trimmed, Evicted, EncodeScalar;
    var next := Acc(a.live + settled, a.trimmed, a.pending);
    Regroup(a.trimmed, a.live, settled, Bytes(a.pending));
    if a.pending == [] {
      NothingCarried();
      TrimmedIsEvicted(next, max);
      EvictedKeeps(next, max);
    } else {
      TrimmedIsDropped(next, max);
      assert (a.trimmed + (a.live + settled) + Bytes(a.pending)) + []
          == a.trimmed + (a.live + settled) + Bytes(a.pending);
    }
  }

  lemma Regroup(a: seq<Byte>, b: seq<Byte>, c: seq<Byte>, d: seq<Byte>)
    ensures a + (b + c) + d == a + b + (c + d) && (d == [] ==> a + (b + c) == a + b + (c + d))
  {}

  // Below three bytes nothing is carried: every append is encoded on its own.
  lemma NarrowAppends(a: Acc, max: nat, more: seq<CodeUnit>)
    requires max < 3 && a.pending == []
    ensures var b := AppendTo(a, max, more);
            b.pending == [] && b.trimmed + b.live == a.trimmed + a.live + Bytes(more)
  {
    hide Bytes, Trimmed, EncodeScalar, Evicted;
    if more == [] {
      NothingCarried();
      assert a.trimmed + a.live + [] == a.trimmed + a.live;
    } else {
      CarriedBytes(more);
      assert [] + more == more && more == Settled(more) + Carried(more);
      BytesConcat(Settled(more), Carried(more));
      TrimKeeps(a.(pending := Carried(more)), max, Bytes(Settled(more)));
    }
  }

  lemma EvictedKeeps(a: Acc, max: nat)
    ensures Evicted(a, max).trimmed + Evicted(a, max).live == a.trimmed + a.live
    ensures Evicted(a, max).pending == a.pending
  {}

  lemma {:induction false} NarrowRun(max: nat, parts: seq<seq<CodeUnit>>)
    requires max < 3
    ensures Run(max, parts).pending == [] && Run(max, parts).trimmed + Run(max, parts).live == BytesOf(parts)
  {
    hide AppendTo, Bytes;
    if parts != [] {
      NarrowRun(max, parts[..|parts| - 1]);
      NarrowAppends(Run(max, parts[..|parts| - 1]), max, parts[|parts| - 1]);
    }
  }

  // A pair encodes to four bytes, its halves to three each.
  lemma SplitCosts(a: seq<CodeUnit>, b: seq<CodeUnit>)
    ensures |Bytes(a)| + |Bytes(b)| == |Bytes(a + b)| + if EndsHigh(a) && StartsLow(b) then 2 else 0
    ensures !(EndsHigh(a) && StartsLow(b)) ==> Bytes(a + b) == Bytes(a) + Bytes(b)
  {
    hide Bytes;
    if EndsHigh(a) && StartsLow(b) {
      var before, high, low, after := a[..|a| - 1], a[|a| - 1..], b[..1], b[1..];
      HalvesAndPair(high, low);
      assert a == before + high && b == low + after && a + b == before + (high + low + after);
      BytesConcat(before, high);
      BytesConcat(low, after);
      BytesConcat(before, high + low + after);
      BytesConcat(high + low, after);
    } else {
      BytesConcat(a, b);
    }
  }

  lemma SplitsSooner(parts: seq<seq<CodeUnit>>)
    requires parts != []
    ensures var front, last := parts[..|parts| - 1], parts[|parts| - 1];
            SplitsPair(parts) <==> SplitsPair(front) || (EndsHigh(Joined(front)) && StartsLow(last))
  {
    hide EndsHigh, StartsLow, Joined;
    var front := parts[..|parts| - 1];
    assert forall i | 0 <= i < |front| :: front[i] == parts[i] && front[..i] == parts[..i];
    if SplitsPair(parts) {
      var i :| 0 <= i < |parts| && EndsHigh(Joined(parts[..i])) && StartsLow(parts[i]);
      assert i < |front| ==> EndsHigh(Joined(front[..i])) && StartsLow(front[i]);
    }
    if SplitsPair(front) {
      var i :| 0 <= i < |front| && EndsHigh(Joined(front[..i])) && StartsLow(front[i]);
      assert EndsHigh(Joined(parts[..i])) && StartsLow(parts[i]);
    }
  }

  // Encoded one by one, the appends come to the whole unless a pair was split.
  lemma {:induction false} SplitsAdd(parts: seq<seq<CodeUnit>>)
    ensures !SplitsPair(parts) ==> BytesOf(parts) == Bytes(Joined(parts))
    ensures |BytesOf(parts)| >= |Bytes(Joined(parts))| + if SplitsPair(parts) then 1 else 0
  {
    hide Bytes, SplitsPair, EndsHigh, StartsLow;
    if parts == [] {
      NothingCarried();
      assert !SplitsPair(parts) by { NothingSplit(); }
    } else {
      var front, last := parts[..|parts| - 1], parts[|parts| - 1];
      SplitsAdd(front);
      SplitsSooner(parts);
      SplitCosts(Joined(front), last);
    }
  }

  lemma NothingSplit()
    ensures !SplitsPair([])
  {}

  /** Exactly when a run loses something: when the bound is below three, where a carried
      surrogate does not fit and is handed to onTrim as U+FFFD, and an append ended
      inside a pair. */
  lemma ConservedPerRun(max: nat, parts: seq<seq<CodeUnit>>)
    ensures Conserves(max, parts) <==> max >= 3 || !SplitsPair(parts)
  {
    hide Run, SplitsPair, Joined;
    RunHolds(max, parts);
    if max < 3 {
      NarrowRun(max, parts);
      SplitsAdd(parts);
      var text := Joined(parts);
      assert text[..|text| - 0] == text;
    }
  }

  /** A pair split anywhere in a run with such a bound. */
  lemma SplitPairIsLost(max: nat, parts: seq<seq<CodeUnit>>)
    requires max < 3 && SplitsPair(parts)
    ensures !Conserves(max, parts)
  {
    hide Conserves, SplitsPair;
    ConservedPerRun(max, parts);
  }

  /** So a bound conserves every run if and only if it is at least three. */
  lemma ConservedExactly(max: nat)
    ensures (forall parts :: Conserves(max, parts)) <==> max >= 3
  {
    forall parts | max >= 3
      ensures Conserves(max, parts)
    {
      ConservedPerRun(max, parts);
    }
    if max < 3 {
      hide Conserves;
      assert IsHigh(0xD83D) && IsLow(0xDE00);
      var high: CodeUnit, low: CodeUnit :| IsHigh(high) && IsLow(low);
      var parts := [[high], [low]];
      assert parts[..1] == [[high]] && [[high]][..0] == [];
      assert Joined(parts[..1]) == [] + [high] == [high];
      SplitPairIsLost(max, parts);
    }
  }

  /** What one append does to a held text. */
  lemma AppendHolds(a: Acc, max: nat, text: seq<CodeUnit>, more: seq<CodeUnit>)
    requires Holds(a, max, text)
    ensures Holds(AppendTo(a, max, more), max, text + more)
  {
    hide Holds;
    if more == [] {
      assert text + more == text;
    } else if max >= 3 {
      AppendHoldsWide(a, max, text, more);
    } else {
      AppendHoldsNarrow(a, max, text, more);
    }
  }

  lemma EmptyHolds(max: nat)
    ensures Holds(EMPTY, max, [])
  {
    NothingCarried();
    assert Scalars([]) == [] && Tail([], Room(EMPTY, max)) == [];
  }

  lemma HalvesAndPair(high: seq<CodeUnit>, low: seq<CodeUnit>)
    requires |high| == |low| == 1 && IsHigh(high[0]) && IsLow(low[0])
    ensures |Bytes(high)| == |Bytes(low)| == 3 && |Bytes(high + low)| == 4
  {
    CarriedBytes(high);
    PairIsWide(high[0], low[0]);
    hide EncodeScalar;
    assert Scalars(high[1..]) == [] && Scalars(low[1..]) == [] && Scalars((high + low)[2..]) == [];
    assert Scalars(low) == [REPLACEMENT] && Scalars(high + low) == [Pair(high[0], low[0])];
    assert Bytes(low) == EncodeScalar(REPLACEMENT) + Encode([]);
    assert Bytes(high + low) == EncodeScalar(Pair(high[0], low[0])) + Encode([]);
  }
}

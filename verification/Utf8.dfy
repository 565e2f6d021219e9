/** UTF-16 text, its UTF-8 encoding (section 3 of RFC 3629) and the character
    boundaries that the byte caps cut at. */
module Utf8 {
  import opened Wrappers

  type Byte = b: int | 0 <= b < 0x100
  type CodeUnit = u: int | 0 <= u < 0x1_0000
  type Scalar = c: int | 0 <= c < 0x11_0000 && !(0xD800 <= c < 0xE000)

  const REPLACEMENT: Scalar := 0xFFFD

  predicate IsHigh(u: CodeUnit) { 0xD800 <= u < 0xDC00 }

  predicate IsLow(u: CodeUnit) { 0xDC00 <= u < 0xE000 }

  predicate EndsHigh(t: seq<CodeUnit>) { t != [] && IsHigh(t[|t| - 1]) }

  predicate StartsLow(t: seq<CodeUnit>) { t != [] && IsLow(t[0]) }

  // The scalar value of a surrogate pair (section 2.2 of RFC 2781).
  function Pair(high: CodeUnit, low: CodeUnit): Scalar
    requires IsHigh(high) && IsLow(low)
  {
    0x1_0000 + (high - 0xD800) * 0x400 + (low - 0xDC00)
  }

  // The first character of a text, in code units and as a scalar value; a
  // surrogate without its partner reads as U+FFFD.
  function Width(t: seq<CodeUnit>): (width: nat)
    requires t != []
    ensures 1 <= width <= |t|
  {
    if |t| >= 2 && IsHigh(t[0]) && IsLow(t[1]) then 2 else 1
  }

  function First(t: seq<CodeUnit>): Scalar
    requires t != []
  {
    if Width(t) == 2 then Pair(t[0], t[1])
    else if IsHigh(t[0]) || IsLow(t[0]) then REPLACEMENT
    else t[0]
  }

  function Scalars(t: seq<CodeUnit>): seq<Scalar> {
    if t == [] then [] else [First(t)] + Scalars(t[Width(t)..])
  }

  /** A character in UTF-16 (section 2.1 of RFC 2781). */
  function Units(c: Scalar): seq<CodeUnit> {
    if c < 0x1_0000 then [c] else [0xD800 + (c - 0x1_0000) / 0x400, 0xDC00 + (c - 0x1_0000) % 0x400]
  }

  function UnitsOf(cs: seq<Scalar>): seq<CodeUnit> {
    if cs == [] then [] else Units(cs[0]) + UnitsOf(cs[1..])
  }

  /** Text reads as the characters that were written. */
  lemma {:induction false} ReadingInvertsWriting(cs: seq<Scalar>)
    ensures Scalars(UnitsOf(cs)) == cs
  {
    if cs != [] {
      ReadingInvertsWriting(cs[1..]);
      FirstOfUnits(cs[0], UnitsOf(cs[1..]));
    }
  }

  lemma FirstOfUnits(c: Scalar, rest: seq<CodeUnit>)
    ensures var t := Units(c) + rest; First(t) == c && t[Width(t)..] == rest
  {}

  /** Whether every surrogate has its partner. */
  predicate Paired(t: seq<CodeUnit>) {
    t == [] || ((Width(t) == 2 || !(IsHigh(t[0]) || IsLow(t[0]))) && Paired(t[Width(t)..]))
  }

  // A lone surrogate reads as U+FFFD, whatever comes after it.
  lemma LoneReadsAsReplacement(t: seq<CodeUnit>)
    requires t != [] && 0xD800 <= t[0] < 0xE000
    requires |t| > 1 && t[0] < 0xDC00 ==> !(0xDC00 <= t[1] < 0xE000)
    ensures Scalars(t) == [0xFFFD] + Scalars(t[1..])
  {}

  /** And a text is what its characters write exactly when no surrogate is alone. */
  lemma {:induction false} WritingInvertsReading(t: seq<CodeUnit>)
    ensures UnitsOf(Scalars(t)) == t <==> Paired(t)
  {
    hide Units, First, Width, IsHigh, IsLow;
    if t != [] {
      var n, rest := Width(t), t[Width(t)..];
      WritingInvertsReading(rest);
      UnitsOfFirst(t);
      assert ([First(t)] + Scalars(rest))[1..] == Scalars(rest);
      SameParts(Units(First(t)), UnitsOf(Scalars(rest)), t, n);
    }
  }

  lemma SameParts(a: seq<CodeUnit>, b: seq<CodeUnit>, t: seq<CodeUnit>, n: nat)
    requires n <= |t| && |a| == n
    ensures a + b == t <==> a == t[..n] && b == t[n..]
  {
    assert (a + b)[..n] == a && (a + b)[n..] == b && t == t[..n] + t[n..];
  }

  lemma UnitsOfFirst(t: seq<CodeUnit>)
    requires t != []
    ensures |Units(First(t))| == Width(t)
    ensures Units(First(t)) == t[..Width(t)] <==> Width(t) == 2 || !(IsHigh(t[0]) || IsLow(t[0]))
  {}

  lemma FirstOfConcat(a: seq<CodeUnit>, b: seq<CodeUnit>)
    requires a != [] && !(EndsHigh(a) && StartsLow(b))
    ensures Width(a + b) == Width(a) && First(a + b) == First(a)
    ensures (a + b)[Width(a)..] == a[Width(a)..] + b
    ensures !(EndsHigh(a[Width(a)..]) && StartsLow(b))
  {
  }

  lemma {:induction false} ScalarsConcat(a: seq<CodeUnit>, b: seq<CodeUnit>)
    requires !(EndsHigh(a) && StartsLow(b))
    ensures Scalars(a + b) == Scalars(a) + Scalars(b)
  {
    hide First, Width, EndsHigh, StartsLow;
    if a == [] {
      assert a + b == b;
    } else {
      FirstOfConcat(a, b);
      ScalarsConcat(a[Width(a)..], b);
    }
  }

  function EncodeScalar(c: Scalar): (bytes: seq<Byte>)
    ensures 1 <= |bytes| <= 4
    ensures !Continuation(bytes[0]) && forall k :: 1 <= k < |bytes| ==> Continuation(bytes[k])
  {
    if c < 0x80 then [c]
    else if c < 0x800 then [0xC0 + c / 0x40, 0x80 + c % 0x40]
    else if c < 0x1_0000 then [0xE0 + c / 0x1000, 0x80 + c / 0x40 % 0x40, 0x80 + c % 0x40]
    else [0xF0 + c / 0x4_0000, 0x80 + c / 0x1000 % 0x40, 0x80 + c / 0x40 % 0x40, 0x80 + c % 0x40]
  }

  function Encode(cs: seq<Scalar>): seq<Byte> {
    if cs == [] then [] else EncodeScalar(cs[0]) + Encode(cs[1..])
  }

  // The bytes of Buffer.from(t, "utf8").
  function Bytes(t: seq<CodeUnit>): seq<Byte> { Encode(Scalars(t)) }

  lemma {:induction false} EncodeConcat(a: seq<Scalar>, b: seq<Scalar>)
    ensures Encode(a + b) == Encode(a) + Encode(b)
  {
    hide EncodeScalar;
    if a == [] {
      assert a + b == b;
    } else {
      assert (a + b)[1..] == a[1..] + b;
      EncodeConcat(a[1..], b);
    }
  }

  lemma EncodeStartsAligned(cs: seq<Scalar>)
    ensures Aligned(Encode(cs))
    ensures cs != [] ==> Encode(cs) != []
  {
  }

  /** Characters of the examples in section 7 of RFC 3629, and the pairs of two. */
  lemma Examples()
    ensures EncodeScalar(0x41) == [0x41] && EncodeScalar(0x391) == [0xCE, 0x91]
    ensures EncodeScalar(0x2262) == [0xE2, 0x89, 0xA2] && EncodeScalar(0xD55C) == [0xED, 0x95, 0x9C]
    ensures EncodeScalar(0xFEFF) == [0xEF, 0xBB, 0xBF] && EncodeScalar(0x2_33B4) == [0xF0, 0xA3, 0x8E, 0xB4]
    ensures Units(0x2_33B4) == [0xD84C, 0xDFB4] && Pair(0xD84C, 0xDFB4) == 0x2_33B4
    ensures Units(0x1_F600) == [0xD83D, 0xDE00] && Pair(0xD83D, 0xDE00) == 0x1_F600
  {}

  // Decoding, for the byte sequences that are UTF-8 at all.
  predicate Continuation(b: Byte) { 0x80 <= b < 0xC0 }

  /** The bytes whose two highest bits are one and zero. */
  lemma ContinuationsStart10(b: Byte)
    ensures Continuation(b) <==> b / 0x40 == 2
  {}

  function LeadLength(b: Byte): nat {
    if b < 0x80 then 1 else if b < 0xC2 then 0 else if b < 0xE0 then 2 else if b < 0xF0 then 3
      else if b < 0xF5 then 4 else 0
  }

  function DecodeScalar(s: seq<Byte>): int
    requires 1 <= |s| <= 4
  {
    if |s| == 1 then s[0]
    else if |s| == 2 then (s[0] as int) * 0x40 + s[1] - 0x3080
    else if |s| == 3 then (s[0] as int) * 0x1000 + (s[1] as int) * 0x40 + s[2] - 0xE_2080
    else (s[0] as int) * 0x4_0000 + (s[1] as int) * 0x1000 + (s[2] as int) * 0x40 + s[3] - 0x3C8_2080
  }

  // Section 4 of RFC 3629: a sequence decodes to the character it encodes, and
  // an overlong form, a surrogate or a stray byte decodes to nothing.
  function Decode(s: seq<Byte>): Option<seq<Scalar>> {
    if s == [] then Some([])
    else
      var n := LeadLength(s[0]);
      if n == 0 || n > |s| then None
      else
        var c := DecodeScalar(s[..n]);
        if !(0 <= c < 0x11_0000 && !(0xD800 <= c < 0xE000)) || EncodeScalar(c) != s[..n] then None
        else match Decode(s[n..])
          case None => None
          case Some(rest) => Some([c] + rest)
  }

  lemma DecodeEncodedScalar(c: Scalar)
    ensures LeadLength(EncodeScalar(c)[0]) == |EncodeScalar(c)|
    ensures DecodeScalar(EncodeScalar(c)) == c
  {
    var e := EncodeScalar(c);
    if c < 0x80 {
    } else if c < 0x800 {
      assert |e| == 2;
    } else if c < 0x1_0000 {
      assert |e| == 3 && c / 0x40 / 0x40 == c / 0x1000;
    } else {
      assert |e| == 4 && c / 0x40 / 0x40 == c / 0x1000 && c / 0x1000 / 0x40 == c / 0x4_0000;
    }
  }

  lemma {:induction false} DecodeInvertsEncode(cs: seq<Scalar>)
    ensures Decode(Encode(cs)) == Some(cs)
  {
    if cs != [] {
      var e, s := EncodeScalar(cs[0]), Encode(cs);
      DecodeEncodedScalar(cs[0]);
      assert s[..|e|] == e && s[|e|..] == Encode(cs[1..]);
      DecodeInvertsEncode(cs[1..]);
      assert [cs[0]] + cs[1..] == cs;
    }
  }

  lemma {:induction false} EncodeInvertsDecode(s: seq<Byte>)
    requires Decode(s).Some?
    ensures Encode(Decode(s).value) == s
  {
    hide EncodeScalar, DecodeScalar;
    if s != [] {
      var n := LeadLength(s[0]);
      EncodeInvertsDecode(s[n..]);
      assert Decode(s).value[1..] == Decode(s[n..]).value;
      assert s == s[..n] + s[n..];
    }
  }

  // Whether a cut at the front of s leaves no partial character there.
  predicate Aligned(s: seq<Byte>) { s == [] || !Continuation(s[0]) }

  // The first character boundary at or after offset.
  function Boundary(s: seq<Byte>, offset: nat): (start: nat)
    requires offset <= |s|
    ensures offset <= start <= |s|
    decreases |s| - offset
  {
    if offset == |s| || !Continuation(s[offset]) then offset else Boundary(s, offset + 1)
  }

  lemma {:induction false} BoundaryAligns(s: seq<Byte>, offset: nat)
    requires offset <= |s|
    ensures Aligned(s[Boundary(s, offset)..])
    ensures forall k :: offset <= k < Boundary(s, offset) ==> Continuation(s[k])
    decreases |s| - offset
  {
    if offset < |s| && Continuation(s[offset]) { BoundaryAligns(s, offset + 1); }
  }

  // How many leading bytes go when s is cut to limit bytes at a boundary.
  function Cut(s: seq<Byte>, limit: int): (cut: nat)
    ensures cut <= |s|
  {
    if |s| <= limit then 0 else Boundary(s, |s| - (if limit < 0 then 0 else limit))
  }

  // The longest tail of cs that encodes to at most limit bytes.
  function Tail(cs: seq<Scalar>, limit: int): seq<Scalar> {
    if cs == [] || |Encode(cs)| <= limit then cs else Tail(cs[1..], limit)
  }

  lemma {:induction false} TailIsLongest(cs: seq<Scalar>, limit: nat, k: nat)
    requires k <= |cs|
    ensures |Tail(cs, limit)| <= |cs| && Tail(cs, limit) == cs[|cs| - |Tail(cs, limit)|..]
    ensures |Encode(Tail(cs, limit))| <= limit
    ensures |Encode(cs[k..])| <= limit ==> |cs| - k <= |Tail(cs, limit)|
  {
    hide EncodeScalar;
    if cs != [] && |Encode(cs)| > limit {
      TailIsLongest(cs[1..], limit, if k == 0 then 0 else k - 1);
      if k > 0 { assert cs[k..] == cs[1..][k - 1..]; } else { assert cs[k..] == cs; }
      var t := Tail(cs, limit);
      assert cs[1..][|cs| - 1 - |t|..] == cs[|cs| - |t|..];
    }
  }

  lemma BoundaryShift(e: seq<Byte>, r: seq<Byte>, offset: nat)
    requires |e| <= offset <= |e + r|
    ensures Boundary(e + r, offset) == |e| + Boundary(r, offset - |e|)
  {
    var b := Boundary(r, offset - |e|);
    BoundaryAligns(r, offset - |e|);
    assert forall k :: 0 <= k < |r| ==> (e + r)[|e| + k] == r[k];
    assert b < |r| ==> r[b..][0] == r[b];
    forall k | offset <= k < |e| + b ensures Continuation((e + r)[k]) { assert (e + r)[k] == r[k - |e|]; }
    BoundaryIs(e + r, offset, |e| + b);
  }

  lemma BoundaryIs(s: seq<Byte>, offset: nat, start: nat)
    requires offset <= start <= |s|
    requires start == |s| || !Continuation(s[start])
    requires forall k :: offset <= k < start ==> Continuation(s[k])
    ensures Boundary(s, offset) == start
  {
    BoundaryAligns(s, offset);
    var b := Boundary(s, offset);
    assert b < |s| ==> s[b..][0] == s[b];
  }

  // A cut that does not fit the first character goes past it.
  lemma CutPastFirst(e: seq<Byte>, r: seq<Byte>, limit: int)
    requires e != [] && (forall k :: 1 <= k < |e| ==> Continuation(e[k])) && Aligned(r) && |e + r| > limit
    ensures Cut(e + r, limit) == |e| + Cut(r, limit)
  {
    hide Boundary;
    var s := e + r;
    var offset := |s| - (if limit < 0 then 0 else limit);
    if offset >= |e| {
      BoundaryShift(e, r, offset);
    }
    if offset <= |e| {
      forall k | offset <= k < |e| ensures Continuation(s[k]) { assert s[k] == e[k]; }
      assert |e| < |s| ==> s[|e|] == r[0];
      BoundaryIs(s, offset, |e|);
    }
  }

  // Cutting the encoding of a text at a byte boundary keeps exactly the longest
  // run of its last characters that fits.
  lemma {:induction false} CutKeepsTail(cs: seq<Scalar>, limit: int)
    ensures Encode(cs)[Cut(Encode(cs), limit)..] == Encode(Tail(cs, limit))
  {
    hide EncodeScalar, Cut, Boundary;
    var s := Encode(cs);
    if cs == [] || |s| <= limit {
      CutNothing(s, limit);
    } else {
      var e, r := EncodeScalar(cs[0]), Encode(cs[1..]);
      CutKeepsTail(cs[1..], limit);
      EncodeStartsAligned(cs[1..]);
      CutPastFirst(e, r, limit);
      assert s[|e| + Cut(r, limit)..] == r[Cut(r, limit)..];
    }
  }

  lemma CutNothing(s: seq<Byte>, limit: int)
    requires s == [] || |s| <= limit
    ensures s[Cut(s, limit)..] == s
  {
  }

  // Cutting twice is cutting once, when what came in between leaves the second
  // cut no more room than the first had.
  lemma {:induction false} TailTwice(cs: seq<Scalar>, ds: seq<Scalar>, first: int, second: int)
    requires second - |Encode(ds)| <= first
    ensures Tail(Tail(cs, first) + ds, second) == Tail(cs + ds, second)
  {
    hide EncodeScalar, Encode;
    EncodeConcat(cs, ds);
    if cs != [] && |Encode(cs)| > first {
      TailTwice(cs[1..], ds, first, second);
      assert (cs + ds)[1..] == cs[1..] + ds;
      assert Tail(cs + ds, second) == Tail(cs[1..] + ds, second);
    }
  }

  // A character too long for the limit cuts off everything before it.
  lemma {:induction false} TailPastWide(cs: seq<Scalar>, wide: Scalar, ds: seq<Scalar>, limit: int)
    requires |EncodeScalar(wide)| > limit
    ensures Tail(cs + [wide] + ds, limit) == Tail(ds, limit)
  {
    hide EncodeScalar;
    var whole := cs + [wide] + ds;
    EncodeConcat(cs + [wide], ds);
    EncodeConcat(cs, [wide]);
    assert Encode([wide]) == EncodeScalar(wide);
    if cs == [] {
      assert whole[1..] == ds;
    } else {
      assert whole[1..] == cs[1..] + [wide] + ds;
      TailPastWide(cs[1..], wide, ds, limit);
    }
  }
}

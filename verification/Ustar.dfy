/** Headers and archives in the ustar interchange format, and a reader that gets
    back what was written (scripts/runtime-release-lib.js:280-346; "ustar
    Interchange Format", pax, POSIX.1-2017). */
module Ustar {
  import opened Utf8
  import opened Wrappers

  type Bytes = seq<Byte>

  const SLASH: Byte := 0x2F
  const SPACE: Byte := 0x20
  const ZERO_DIGIT: Byte := 0x30

  datatype Kind = Directory | Symlink(target: Bytes) | File(content: Bytes)

  /** An entry under the path it has in the archive. */
  datatype Entry = Entry(path: Bytes, mode: nat, kind: Kind)

  function Repeat(b: Byte, n: nat): (r: Bytes)
    ensures |r| == n && forall k | 0 <= k < n :: r[k] == b
  {
    seq(n, _ => b)
  }

  function Zeros(n: nat): Bytes { Repeat(0, n) }

  // ----- Octal fields -----

  function Pow8(n: nat): nat { if n == 0 then 1 else 8 * Pow8(n - 1) }

  // Number#toString(8).
  function Digits(v: nat): (d: Bytes)
    ensures d != [] && forall k | 0 <= k < |d| :: 0x30 <= d[k] < 0x38
  {
    if v < 8 then [0x30 + v] else Digits(v / 8) + [0x30 + v % 8]
  }

  function PadStart(d: Bytes, n: nat): Bytes { if |d| >= n then d else Repeat(ZERO_DIGIT, n - |d|) + d }

  // The value of a run of octal digits.
  function Value(d: Bytes): int {
    if d == [] then 0 else 8 * Value(d[..|d| - 1]) + d[|d| - 1] - 0x30
  }

  lemma {:induction false} ValueOfDigits(v: nat)
    ensures Value(Digits(v)) == v
  {
    if v < 8 {
      assert [0x30 + v][..0] == [];
    } else {
      ValueOfDigits(v / 8);
      assert (Digits(v / 8) + [0x30 + v % 8])[..|Digits(v)| - 1] == Digits(v / 8);
    }
  }

  lemma {:induction false} ValueOfPadded(d: Bytes, n: nat)
    ensures Value(Repeat(ZERO_DIGIT, n) + d) == Value(d)
    decreases n, |d|
  {
    var p := Repeat(ZERO_DIGIT, n) + d;
    if d == [] {
      if n > 0 {
        ValueOfPadded([], n - 1);
        assert p[..n - 1] == Repeat(ZERO_DIGIT, n - 1) + [];
      } else {
        assert p == [];
      }
    } else {
      ValueOfPadded(d[..|d| - 1], n);
      assert p[..|p| - 1] == Repeat(ZERO_DIGIT, n) + d[..|d| - 1];
    }
  }

  lemma {:induction false} DigitsFit(v: nat, n: nat)
    requires n > 0
    ensures |Digits(v)| <= n <==> v < Pow8(n)
  {
    if v < 8 {
      assert Pow8(n) >= 8 by { PowGrows(n); }
    } else if n == 1 {
      assert Pow8(1) == 8 * Pow8(0);
    } else {
      DigitsFit(v / 8, n - 1);
      assert Pow8(n) == 8 * Pow8(n - 1);
    }
  }

  lemma {:induction false} PowGrows(n: nat)
    requires n > 0
    ensures Pow8(n) >= 8
  {
    if n > 1 { PowGrows(n - 1); }
  }

  // ----- Fields -----

  // A string in its field, with zeros behind it.
  function Field(s: Bytes, length: nat): Bytes
    requires |s| <= length
  {
    s + Zeros(length - |s|)
  }

  // Whether writeOctal takes the value.
  predicate FitsOctal(v: nat, length: nat) { length > 0 && |PadStart(Digits(v), length - 1)| < length }

  function Octal(v: nat, length: nat): (f: Bytes)
    requires FitsOctal(v, length)
    ensures |f| == length
  {
    PadStart(Digits(v), length - 1) + [0]
  }

  // What a reader takes from a field: the bytes before the first zero.
  function Text(f: Bytes): Bytes { if f == [] || f[0] == 0 then [] else [f[0]] + Text(f[1..]) }

  function Number(f: Bytes): int { Value(Text(f)) }

  predicate NoZero(s: Bytes) { forall k | 0 <= k < |s| :: s[k] != 0 }

  lemma {:induction false} TextOfField(s: Bytes, rest: Bytes)
    requires NoZero(s) && (rest == [] || rest[0] == 0)
    ensures Text(s + rest) == s
  {
    if s == [] {
      assert s + rest == rest;
    } else {
      assert (s + rest)[1..] == s[1..] + rest;
      TextOfField(s[1..], rest);
    }
  }

  lemma NumberOfOctal(v: nat, length: nat)
    requires FitsOctal(v, length)
    ensures Number(Octal(v, length)) == v
  {
    hide Digits, Value, Text;
    var d := PadStart(Digits(v), length - 1);
    ValueOfDigits(v);
    if |Digits(v)| < length - 1 { ValueOfPadded(Digits(v), length - 1 - |Digits(v)|); }
    TextOfField(d, [0]);
  }

  lemma FitsOctalExactly(v: nat, length: nat)
    requires length > 1
    ensures FitsOctal(v, length) <==> v < Pow8(length - 1)
  {
    DigitsFit(v, length - 1);
  }

  // ----- Paths -----

  datatype Split = Split(name: Bytes, prefix: Bytes)

  // The last slash before end at which both halves fit.
  function SplitBefore(path: Bytes, end: nat): Option<Split>
    requires end <= |path|
  {
    if end == 0 then None
    else if path[end - 1] == SLASH && end - 1 <= 155 && |path| - end <= 100
    then Some(Split(path[end..], path[..end - 1]))
    else SplitBefore(path, end - 1)
  }

  function TarPath(path: Bytes): Option<Split> {
    if |path| <= 100 then Some(Split(path, [])) else SplitBefore(path, |path|)
  }

  // How a reader puts the halves together.
  function Join(s: Split): Bytes { if s.prefix == [] then s.name else s.prefix + [SLASH] + s.name }

  // The one path that does not come back: its only slash is the first byte.
  predicate LosesSlash(path: Bytes) {
    |path| == 101 && path[0] == SLASH && forall k | 1 <= k < |path| :: path[k] != SLASH
  }

  lemma {:induction false} SplitBeforeIsLast(path: Bytes, end: nat)
    requires end <= |path|
    ensures var s := SplitBefore(path, end);
            if s.Some? then
              var at := |s.value.prefix|;
              && at < end && path[at] == SLASH && at <= 155 && |path| - at - 1 <= 100
              && s.value == Split(path[at + 1..], path[..at])
              && (forall k | at < k < end :: !(path[k] == SLASH && k <= 155 && |path| - k - 1 <= 100))
            else forall k | 0 <= k < end :: !(path[k] == SLASH && k <= 155 && |path| - k - 1 <= 100)
  {
    if end > 0 { SplitBeforeIsLast(path, end - 1); }
  }

  /** A path that can be written comes back joined, except the one kind that
      loses its slash. */
  lemma PathRoundTrips(path: Bytes)
    requires TarPath(path).Some?
    ensures |TarPath(path).value.name| <= 100 && |TarPath(path).value.prefix| <= 155
    ensures Join(TarPath(path).value) == path <==> !LosesSlash(path)
  {
    if |path| > 100 {
      SplitBeforeIsLast(path, |path|);
      var s := TarPath(path).value;
      var at := |s.prefix|;
      if at > 0 {
        assert path == path[..at] + [path[at]] + path[at + 1..];
      } else {
        assert |Join(s)| == |path| - 1;
        assert forall k | 1 <= k < |path| :: path[k] == SLASH ==> k > 155 || |path| - k - 1 > 100;
      }
    }
  }

  /** A path of up to 100 bytes is written whole. A longer one is split at the last slash
      that leaves at most 155 bytes before it and 100 behind it, if there is one. */
  lemma PathSplits(path: Bytes)
    ensures |path| <= 100 ==> TarPath(path) == Some(Split(path, []))
    ensures |path| > 100 ==> (TarPath(path).None? <==> forall k | 0 <= k < |path| :: !SplitsAt(path, k))
    ensures |path| > 100 && TarPath(path).Some? ==>
              exists k :: SplitsAt(path, k) && TarPath(path) == Some(Split(path[k + 1..], path[..k]))
                && forall j | k < j < |path| :: !SplitsAt(path, j)
  {
    SplitBeforeIsLast(path, |path|);
    if |path| > 100 && TarPath(path).Some? { assert SplitsAt(path, |TarPath(path).value.prefix|); }
  }

  predicate SplitsAt(path: Bytes, k: int) { 0 <= k < |path| && path[k] == 0x2F && k <= 155 && |path| - k - 1 <= 100 }

  lemma {:induction false} TarPathKeepsBytes(path: Bytes)
    requires TarPath(path).Some? && NoZero(path)
    ensures NoZero(TarPath(path).value.name) && NoZero(TarPath(path).value.prefix)
  {
    if |path| > 100 { SplitBeforeIsLast(path, |path|); }
  }

  // ----- Headers -----

  // Offsets of the fields the reader uses: each field's place and length.
  const MAGIC: Bytes := [0x75, 0x73, 0x74, 0x61, 0x72, 0] // "ustar" and a zero
  const VERSION: Bytes := [0x30, 0x30]
  const OWNER: Bytes := [0x72, 0x6F, 0x6F, 0x74] // "root"

  function TypeFlag(k: Kind): Byte { if k.Directory? then 0x35 else if k.Symlink? then 0x32 else 0x30 }

  function SizeOf(k: Kind): nat { if k.File? then |k.content| else 0 }

  function LinkOf(k: Kind): Bytes { if k.Symlink? then k.target else [] }

  /** What the writer refuses: a path, link or number that no field holds. */
  predicate Representable(e: Entry) {
    TarPath(e.path).Some? && FitsOctal(e.mode, 8) && FitsOctal(SizeOf(e.kind), 12) && |LinkOf(e.kind)| <= 100
  }

  // The first 148 bytes, before the checksum, and the 356 behind it.
  function Front(e: Entry): (f: Bytes)
    requires Representable(e)
    ensures |f| == 148
  {
    TarPathFits(e.path);
    FitsOctalZero(8);
    FitsOctalZero(12);
    Field(TarPath(e.path).value.name, 100) + Octal(e.mode, 8) + Octal(0, 8) + Octal(0, 8)
      + Octal(SizeOf(e.kind), 12) + Octal(0, 12)
  }

  function Back(e: Entry): (f: Bytes)
    requires Representable(e)
    ensures |f| == 356
  {
    TarPathFits(e.path);
    FitsOctalZero(8);
    [TypeFlag(e.kind)] + Field(LinkOf(e.kind), 100) + MAGIC + VERSION + Field(OWNER, 32) + Field(OWNER, 32)
      + Octal(0, 8) + Octal(0, 8) + Field(TarPath(e.path).value.prefix, 155) + Zeros(12)
  }

  lemma TarPathFits(path: Bytes)
    requires TarPath(path).Some?
    ensures |TarPath(path).value.name| <= 100 && |TarPath(path).value.prefix| <= 155
  {
    PathRoundTrips(path);
  }

  lemma FitsOctalZero(length: nat)
    requires length > 1
    ensures FitsOctal(0, length)
  {
  }

  function Sum(b: Bytes): nat { if b == [] then 0 else Sum(b[..|b| - 1]) + b[|b| - 1] }

  function Checksum(front: Bytes, back: Bytes): nat { Sum(front + Repeat(SPACE, 8) + back) }

  function Header(e: Entry): (h: Bytes)
    requires Representable(e)
    ensures |h| == 512
  {
    var sum := Checksum(Front(e), Back(e));
    ChecksumFits(Front(e), Back(e));
    Front(e) + PadStart(Digits(sum), 6) + [0, SPACE] + Back(e)
  }

  lemma {:induction false} SumBound(b: Bytes)
    ensures Sum(b) <= 255 * |b|
  {
    if b != [] { SumBound(b[..|b| - 1]); }
  }

  lemma {:induction false} SumConcat(a: Bytes, b: Bytes)
    ensures Sum(a + b) == Sum(a) + Sum(b)
    decreases |b|
  {
    if b == [] {
      assert a + b == a;
    } else {
      assert (a + b)[..|a + b| - 1] == a + b[..|b| - 1];
      SumConcat(a, b[..|b| - 1]);
    }
  }

  /** The checksum always fits its six octal digits. */
  lemma ChecksumFits(front: Bytes, back: Bytes)
    requires |front| == 148 && |back| == 356
    ensures Checksum(front, back) <= 130560 && |PadStart(Digits(Checksum(front, back)), 6)| == 6
  {
    hide Digits, Sum;
    SumBound(front + Repeat(SPACE, 8) + back);
    DigitsFit(Checksum(front, back), 6);
    assert Pow8(6) == 262144;
  }

  // ----- The reader -----

  predicate AllZero(b: Bytes) { forall k | 0 <= k < |b| :: b[k] == 0 }

  /** Type, path, mode, size and link of a header whose checksum and magic are right. */
  datatype Info = Info(flag: Byte, path: Bytes, mode: int, size: int, link: Bytes)

  function ReadHeader(h: Bytes): Option<Info>
    requires |h| == 512
  {
    if h[257..263] != MAGIC || h[263..265] != VERSION || Number(h[148..156]) != Checksum(h[..148], h[156..]) then None
    else
      var path := Join(Split(Text(h[..100]), Text(h[345..500])));
      Some(Info(h[156], path, Number(h[100..108]), Number(h[124..136]), Text(h[157..257])))
  }

  // Where the fields stand in what was written.
  lemma FrontFields(e: Entry)
    requires Representable(e)
    ensures TarPath(e.path).Some? && |TarPath(e.path).value.name| <= 100
    ensures Front(e)[..100] == Field(TarPath(e.path).value.name, 100)
    ensures Front(e)[100..108] == Octal(e.mode, 8) && Front(e)[124..136] == Octal(SizeOf(e.kind), 12)
    ensures FitsOctal(0, 8) && Front(e)[108..116] == Octal(0, 8) && Front(e)[116..124] == Octal(0, 8)
    ensures FitsOctal(0, 12) && Front(e)[136..148] == Octal(0, 12)
  {
    TarPathFits(e.path);
    FitsOctalZero(8);
    FitsOctalZero(12);
    SixParts(Field(TarPath(e.path).value.name, 100), Octal(e.mode, 8), Octal(0, 8), Octal(0, 8),
             Octal(SizeOf(e.kind), 12), Octal(0, 12));
    hide TarPath, Octal, Field, FitsOctal;
  }

  lemma SixParts(name: Bytes, mode: Bytes, user: Bytes, group: Bytes, size: Bytes, time: Bytes)
    requires |name| == 100 && |mode| == 8 && |user| == 8 && |group| == 8 && |size| == 12 && |time| == 12
    ensures var f := name + mode + user + group + size + time;
            && f[..100] == name && f[100..108] == mode && f[108..116] == user && f[116..124] == group
            && f[124..136] == size && f[136..148] == time
  {}

  // Where ten parts of these lengths stand.
  lemma TenParts(flag: Bytes, link: Bytes, magic: Bytes, version: Bytes, user: Bytes, group: Bytes, major: Bytes,
                 minor: Bytes, prefix: Bytes, end: Bytes)
    requires |flag| == 1 && |link| == 100 && |magic| == 6 && |version| == 2 && |user| == 32 && |group| == 32
    requires |major| == 8 && |minor| == 8 && |prefix| == 155 && |end| == 12
    ensures var b := flag + link + magic + version + user + group + major + minor + prefix + end;
            && b[0] == flag[0] && b[1..101] == link && b[101..107] == magic && b[107..109] == version
            && b[109..141] == user && b[141..173] == group && b[173..181] == major && b[181..189] == minor
            && b[189..344] == prefix && b[344..] == end
  {}

  lemma BackFields(e: Entry)
    requires Representable(e)
    ensures TarPath(e.path).Some? && |TarPath(e.path).value.prefix| <= 155
    ensures Back(e)[0] == TypeFlag(e.kind) && Back(e)[1..101] == Field(LinkOf(e.kind), 100)
    ensures Back(e)[101..107] == MAGIC && Back(e)[107..109] == VERSION
    ensures Back(e)[109..141] == Field(OWNER, 32) && Back(e)[141..173] == Field(OWNER, 32)
    ensures FitsOctal(0, 8) && Back(e)[173..181] == Octal(0, 8) && Back(e)[181..189] == Octal(0, 8)
    ensures Back(e)[189..344] == Field(TarPath(e.path).value.prefix, 155) && Back(e)[344..] == Zeros(12)
  {
    TarPathFits(e.path);
    FitsOctalZero(8);
    var owner, zero := Field(OWNER, 32), Octal(0, 8);
    TenParts([TypeFlag(e.kind)], Field(LinkOf(e.kind), 100), MAGIC, VERSION, owner, owner, zero, zero,
             Field(TarPath(e.path).value.prefix, 155), Zeros(12));
    hide TarPath, Octal, Field, FitsOctal;
  }

  lemma HeaderParts(e: Entry)
    requires Representable(e)
    ensures var h := Header(e);
            && h[..148] == Front(e) && h[156..] == Back(e)
            && h[148..156] == PadStart(Digits(Checksum(Front(e), Back(e))), 6) + [0, SPACE]
  {
    ChecksumFits(Front(e), Back(e));
    hide Front, Back, Digits, PadStart, Checksum;
  }

  lemma ChecksumReads(sum: nat)
    requires |PadStart(Digits(sum), 6)| == 6
    ensures Number(PadStart(Digits(sum), 6) + [0, SPACE]) == sum
  {
    ValueOfDigits(sum);
    if |Digits(sum)| < 6 { ValueOfPadded(Digits(sum), 6 - |Digits(sum)|); }
    hide Digits, Value, Text;
    TextOfField(PadStart(Digits(sum), 6), [0, SPACE]);
  }

  lemma TextOf(s: Bytes, length: nat)
    requires |s| <= length && NoZero(s)
    ensures Text(Field(s, length)) == s
  {
    TextOfField(s, Zeros(length - |s|));
  }

  // Paths and targets on POSIX hold no zero byte.
  predicate Clean(e: Entry) { NoZero(e.path) && NoZero(LinkOf(e.kind)) }

  function InfoOf(e: Entry): Info { Info(TypeFlag(e.kind), e.path, e.mode, SizeOf(e.kind), LinkOf(e.kind)) }

  /** A reader gets from a header what was written into it. */
  lemma HeaderRoundTrips(e: Entry)
    requires Representable(e) && Clean(e) && !LosesSlash(e.path)
    ensures ReadHeader(Header(e)) == Some(InfoOf(e)) && !AllZero(Header(e))
  {
    var h := Header(e);
    HeaderParts(e);
    FrontFields(e);
    BackFields(e);
    PathRoundTrips(e.path);
    TarPathKeepsBytes(e.path);
    var split := TarPath(e.path).value;
    TextOf(split.name, 100);
    TextOf(split.prefix, 155);
    TextOf(LinkOf(e.kind), 100);
    NumberOfOctal(e.mode, 8);
    NumberOfOctal(SizeOf(e.kind), 12);
    ChecksumFits(Front(e), Back(e));
    ChecksumReads(Checksum(Front(e), Back(e)));
    SlicesOf(h);
    hide Header, Front, Back, Digits, PadStart, Checksum, Text, Value, Octal, Field, TarPath, Representable, Join;
    assert h[257] == h[257..263][0] == MAGIC[0];
  }

  // A text field, and what the root directory's numbers look like.
  ghost predicate HoldsText(field: Bytes, s: Bytes) {
    && |s| <= |field| && (forall k | 0 <= k < |s| :: field[k] == s[k])
    && forall k | |s| <= k < |field| :: field[k] == 0
  }

  lemma FieldHolds(s: Bytes, length: nat)
    requires |s| <= length
    ensures HoldsText(Field(s, length), s)
  {}

  // Zero, in the two lengths, and 493, which is 755 in octal.
  lemma OctalsAre()
    ensures FitsOctal(0, 8) && Octal(0, 8) == [0x30, 0x30, 0x30, 0x30, 0x30, 0x30, 0x30, 0]
    ensures FitsOctal(0, 12) && Octal(0, 12) == [0x30, 0x30, 0x30, 0x30, 0x30, 0x30, 0x30, 0x30, 0x30, 0x30, 0x30, 0]
    ensures FitsOctal(493, 8) && Octal(493, 8) == [0x30, 0x30, 0x30, 0x30, 0x37, 0x35, 0x35, 0]
    ensures Pow8(7) == 2097152 && Pow8(11) == 8589934592
  {
    assert Digits(7) == [0x37] && Digits(61) == [0x37, 0x35] && Digits(493) == [0x37, 0x35, 0x35];
    assert Pow8(3) == 512 && Pow8(7) == 4096 * Pow8(3) && Pow8(11) == 4096 * Pow8(7);
  }

  lemma FrontLayout(e: Entry)
    requires Representable(e)
    ensures var f := Front(e);
            && HoldsText(f[..100], TarPath(e.path).value.name)
            && Number(f[100..108]) == e.mode && f[107] == 0
            && f[108..116] == [0x30, 0x30, 0x30, 0x30, 0x30, 0x30, 0x30, 0] && f[116..124] == f[108..116]
            && Number(f[124..136]) == SizeOf(e.kind) && f[135] == 0
            && f[136..148] == [0x30, 0x30, 0x30, 0x30, 0x30, 0x30, 0x30, 0x30, 0x30, 0x30, 0x30, 0]
  {
    FrontFields(e);
    FieldHolds(TarPath(e.path).value.name, 100);
    NumberOfOctal(e.mode, 8);
    NumberOfOctal(SizeOf(e.kind), 12);
    OctalsAre();
    assert Octal(e.mode, 8)[7] == 0 && Octal(SizeOf(e.kind), 12)[11] == 0;
    hide TarPath, Octal, Field, Number, HoldsText, Front;
    assert Front(e)[107] == Front(e)[100..108][7] && Front(e)[135] == Front(e)[124..136][11];
  }

  lemma BackLayout(e: Entry)
    requires Representable(e)
    ensures var b := Back(e);
            && b[0] == (match e.kind case Directory => 0x35 case Symlink(_) => 0x32 case File(_) => 0x30)
            && HoldsText(b[1..101], if e.kind.Symlink? then e.kind.target else [])
            && b[101..109] == [0x75, 0x73, 0x74, 0x61, 0x72, 0, 0x30, 0x30]
            && HoldsText(b[109..141], [0x72, 0x6F, 0x6F, 0x74]) && HoldsText(b[141..173], [0x72, 0x6F, 0x6F, 0x74])
            && b[173..181] == [0x30, 0x30, 0x30, 0x30, 0x30, 0x30, 0x30, 0] && b[181..189] == b[173..181]
            && HoldsText(b[189..344], TarPath(e.path).value.prefix) && HoldsText(b[344..], [])
  {
    BackFields(e);
    FieldHolds(LinkOf(e.kind), 100);
    FieldHolds(OWNER, 32);
    FieldHolds(TarPath(e.path).value.prefix, 155);
    FieldHolds([], 12);
    assert Zeros(12) == Field([], 12);
    OctalsAre();
    hide TarPath, Octal, Field, HoldsText, Zeros, Back;
    assert Back(e)[101..109] == Back(e)[101..107] + Back(e)[107..109];
  }

  /** The header field by field, as the format has it: the last byte of each number is
      zero, and the checksum is that of the block with spaces for it. */
  lemma HeaderLayout(e: Entry)
    requires Representable(e)
    ensures var h, split := Header(e), TarPath(e.path).value;
            && HoldsText(h[..100], split.name) && Number(h[100..108]) == e.mode && h[107] == 0
            && h[108..116] == [0x30, 0x30, 0x30, 0x30, 0x30, 0x30, 0x30, 0] && h[116..124] == h[108..116]
            && Number(h[124..136]) == SizeOf(e.kind) && h[135] == 0
            && h[136..148] == [0x30, 0x30, 0x30, 0x30, 0x30, 0x30, 0x30, 0x30, 0x30, 0x30, 0x30, 0]
            && Number(h[148..156]) == Sum(h[..148]) + 256 + Sum(h[156..]) && h[154] == 0 && h[155] == 0x20
            && h[156] == (match e.kind case Directory => 0x35 case Symlink(_) => 0x32 case File(_) => 0x30)
            && HoldsText(h[157..257], if e.kind.Symlink? then e.kind.target else [])
            && h[257..265] == [0x75, 0x73, 0x74, 0x61, 0x72, 0, 0x30, 0x30]
            && HoldsText(h[265..297], [0x72, 0x6F, 0x6F, 0x74]) && HoldsText(h[297..329], [0x72, 0x6F, 0x6F, 0x74])
            && h[329..337] == [0x30, 0x30, 0x30, 0x30, 0x30, 0x30, 0x30, 0] && h[337..345] == h[329..337]
            && HoldsText(h[345..500], split.prefix) && HoldsText(h[500..], [])
  {
    HeaderParts(e);
    FrontLayout(e);
    BackLayout(e);
    ChecksumFits(Front(e), Back(e));
    ChecksumReads(Checksum(Front(e), Back(e)));
    ChecksumAdds(Front(e), Back(e));
    FrontSlices(Header(e));
    BackSlices(Header(e));
    hide Header, Front, Back, Digits, PadStart, Checksum, Sum, Number, HoldsText, TarPath, SizeOf, Representable;
    assert Header(e)[154] == Header(e)[148..156][6] && Header(e)[155] == Header(e)[148..156][7];
  }

  lemma {:induction false} SumRepeats(b: Byte, n: nat)
    ensures Sum(Repeat(b, n)) == b * n
  {
    if n > 0 {
      SumRepeats(b, n - 1);
      assert Repeat(b, n)[..n - 1] == Repeat(b, n - 1);
    }
  }

  lemma ChecksumAdds(front: Bytes, back: Bytes)
    ensures Checksum(front, back) == Sum(front) + 256 + Sum(back)
  {
    hide Sum;
    SumRepeats(SPACE, 8);
    SumConcat(front + Repeat(SPACE, 8), back);
    SumConcat(front, Repeat(SPACE, 8));
  }

  lemma FrontSlices(h: Bytes)
    requires |h| == 512
    ensures var f := h[..148];
            && h[..100] == f[..100] && h[100..108] == f[100..108] && h[107] == f[107] && h[108..116] == f[108..116]
            && h[116..124] == f[116..124] && h[124..136] == f[124..136] && h[135] == f[135]
            && h[136..148] == f[136..148]
  {}

  lemma BackSlices(h: Bytes)
    requires |h| == 512
    ensures var b := h[156..];
            && h[156] == b[0] && h[157..257] == b[1..101] && h[257..265] == b[101..109] && h[265..297] == b[109..141]
            && h[297..329] == b[141..173] && h[329..337] == b[173..181] && h[337..345] == b[181..189]
            && h[345..500] == b[189..344] && h[500..] == b[344..]
  {}

  // The reader's fields within the two parts of a header.
  lemma SlicesOf(h: Bytes)
    requires |h| == 512
    ensures h[..100] == h[..148][..100] && h[100..108] == h[..148][100..108] && h[124..136] == h[..148][124..136]
    ensures h[156] == h[156..][0] && h[157..257] == h[156..][1..101] && h[257..263] == h[156..][101..107]
    ensures h[263..265] == h[156..][107..109] && h[345..500] == h[156..][189..344]
  {
  }

  // ----- Archives -----

  function Padding(bytes: nat): nat { (512 - bytes % 512) % 512 }

  function ContentOf(k: Kind): Bytes { if k.File? then k.content else [] }

  function Blocks(e: Entry): Bytes
    requires Representable(e)
  {
    Header(e) + ContentOf(e.kind) + Zeros(Padding(SizeOf(e.kind)))
  }

  function Archive(es: seq<Entry>): Bytes
    requires forall e | e in es :: Representable(e)
  {
    if es == [] then Zeros(1024) else Blocks(es[0]) + Archive(es[1..])
  }

  function ReadKind(i: Info, content: Bytes): Option<Kind> {
    if i.flag == 0x35 then Some(Directory)
    else if i.flag == 0x32 then Some(Symlink(i.link))
    else if i.flag == 0x30 then Some(File(content))
    else None
  }

  /** Entries up to the block of zeros that ends an archive. */
  function ReadArchive(b: Bytes): Option<seq<Entry>>
    decreases |b|
  {
    if |b| < 512 then None
    else if AllZero(b[..512]) then Some([])
    else
      match ReadHeader(b[..512])
      case None => None
      case Some(i) =>
        if i.size < 0 || |b| < 512 + i.size + Padding(i.size) || i.mode < 0 then None
        else
          var kind, rest := ReadKind(i, b[512..512 + i.size]), ReadArchive(b[512 + i.size + Padding(i.size)..]);
          if kind.None? || rest.None? then None else Some([Entry(i.path, i.mode, kind.value)] + rest.value)
  }

  lemma PaddingLeast(n: nat)
    ensures Padding(n) < 512 && (512 + n + Padding(n)) % 512 == 0
  {}

  lemma BlocksAligned(e: Entry)
    requires Representable(e)
    ensures |Blocks(e)| == 512 + SizeOf(e.kind) + Padding(SizeOf(e.kind)) && |Blocks(e)| % 512 == 0
  {
    hide Header, Padding;
    PaddingLeast(SizeOf(e.kind));
  }

  lemma {:induction false} ArchiveAligned(es: seq<Entry>)
    requires forall e | e in es :: Representable(e)
    ensures |Archive(es)| % 512 == 0
  {
    hide Blocks;
    if es != [] {
      BlocksAligned(es[0]);
      ArchiveAligned(es[1..]);
      assert Archive(es) == Blocks(es[0]) + Archive(es[1..]);
    }
  }

  lemma BlocksParts(e: Entry, rest: Bytes)
    requires Representable(e)
    ensures var b, n := Blocks(e) + rest, SizeOf(e.kind);
            && |b| == 512 + n + Padding(n) + |rest| && b[..512] == Header(e)
            && b[512..512 + n] == ContentOf(e.kind) && b[512 + n + Padding(n)..] == rest
  {
    hide Header;
    BlocksAligned(e);
  }

  // One step of the reader, for blocks whose header it has read.
  lemma ReadStep(b: Bytes, rest: Bytes, i: Info, kind: Kind)
    requires |b| >= 512 && !AllZero(b[..512]) && ReadHeader(b[..512]) == Some(i) && i.size >= 0 && i.mode >= 0
    requires |b| == 512 + i.size + Padding(i.size) + |rest| && b[512 + i.size + Padding(i.size)..] == rest
    requires ReadKind(i, b[512..512 + i.size]) == Some(kind) && ReadArchive(rest).Some?
    ensures ReadArchive(b) == Some([Entry(i.path, i.mode, kind)] + ReadArchive(rest).value)
  {
    hide ReadHeader, ReadKind, AllZero, Padding;
  }

  lemma ReadBlock(e: Entry, rest: Bytes)
    requires Representable(e) && Clean(e) && !LosesSlash(e.path) && ReadArchive(rest).Some?
    ensures ReadArchive(Blocks(e) + rest) == Some([e] + ReadArchive(rest).value)
  {
    hide Header, Blocks, ReadHeader, ReadArchive, Clean, LosesSlash, AllZero, Padding;
    HeaderRoundTrips(e);
    BlocksParts(e, rest);
    var b := Blocks(e) + rest;
    var i := ReadHeader(b[..512]).value;
    ReadStep(b, rest, i, e.kind);
  }

  /** The archive ends with two blocks of zeros, behind each entry's header, content and
      zeros up to the next block. */
  lemma {:induction false} ArchiveLayout(es: seq<Entry>)
    requires forall e | e in es :: Representable(e)
    ensures var a := Archive(es);
            && |a| >= 1024 && (forall k | |a| - 1024 <= k < |a| :: a[k] == 0)
            && if es == [] then |a| == 1024
               else
                 var n := SizeOf(es[0].kind);
                 && |a| >= 512 + n && a[..512] == Header(es[0])
                 && (es[0].kind.File? ==> a[512..512 + n] == es[0].kind.content) && (!es[0].kind.File? ==> n == 0)
                 && exists to :: 512 + n <= to < 512 + n + 512 && to % 512 == 0 && to <= |a|
                      && a[to..] == Archive(es[1..]) && forall k | 512 + n <= k < to :: a[k] == 0
  {
    hide Header, Representable, Blocks;
    if es != [] {
      var rest, n := Archive(es[1..]), SizeOf(es[0].kind);
      ArchiveLayout(es[1..]);
      BlocksParts(es[0], rest);
      PaddingLeast(n);
      var a, to := Archive(es), 512 + n + Padding(n);
      assert a == Blocks(es[0]) + rest && a[to..] == rest;
      EndsAlike(a, to);
      hide Padding, Archive;
      BlocksZeros(es[0], rest);
    }
  }

  lemma EndsAlike(a: Bytes, to: nat)
    requires to <= |a| && |a| - to >= 1024 && forall k | |a[to..]| - 1024 <= k < |a[to..]| :: a[to..][k] == 0
    ensures forall k | |a| - 1024 <= k < |a| :: a[k] == 0
  {
    forall k | |a| - 1024 <= k < |a| ensures a[k] == 0 { assert a[to..][k - to] == a[k]; }
  }

  lemma BlocksZeros(e: Entry, rest: Bytes)
    requires Representable(e)
    ensures var b, n := Blocks(e) + rest, SizeOf(e.kind);
            |b| >= 512 + n + Padding(n) && forall k | 512 + n <= k < 512 + n + Padding(n) :: b[k] == 0
  {
    hide Header, Padding;
  }

  /** A reader of the archive gets back its entries: paths, modes, kinds, link
      targets and contents. */
  lemma {:induction false} ArchiveRoundTrips(es: seq<Entry>)
    requires forall e | e in es :: Representable(e) && Clean(e) && !LosesSlash(e.path)
    ensures ReadArchive(Archive(es)) == Some(es)
  {
    if es == [] {
      assert AllZero(Zeros(1024)[..512]);
    } else {
      ArchiveRoundTrips(es[1..]);
      ReadBlock(es[0], Archive(es[1..]));
      hide Blocks, Representable, Clean, LosesSlash, ReadArchive;
      assert [es[0]] + es[1..] == es;
    }
  }

  /** And for one entry alone the condition is exact: with a slash to lose it
      comes back under another path. */
  lemma SlashIsLost(e: Entry)
    requires Representable(e) && Clean(e) && LosesSlash(e.path)
    ensures ReadHeader(Header(e)).Some? && ReadHeader(Header(e)).value.path == e.path[1..]
  {
    var h := Header(e);
    HeaderParts(e);
    FrontFields(e);
    BackFields(e);
    PathRoundTrips(e.path);
    TarPathKeepsBytes(e.path);
    SplitBeforeIsLast(e.path, |e.path|);
    var split := TarPath(e.path).value;
    TextOf(split.name, 100);
    TextOf(split.prefix, 155);
    ChecksumFits(Front(e), Back(e));
    ChecksumReads(Checksum(Front(e), Back(e)));
    SlicesOf(h);
    hide Header, Front, Back, Digits, PadStart, Checksum, Text, Value, Octal, Field, Representable;
  }
}

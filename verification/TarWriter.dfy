/** The archive as it is written: a header filled in place, and the operating
    system byte pinned in the compressed stream
    (scripts/runtime-release-lib.js:280-376). */
module TarWriter {
  import opened Utf8
  import opened Wrappers
  import opened Ustar

  // A value into its place; what was behind it in the field stays.
  method WriteString(header: array<Byte>, offset: nat, length: nat, value: Bytes) returns (ok: bool)
    requires offset + length <= header.Length
    modifies header
    ensures ok <==> |value| <= length
    ensures header[..] == if ok then old(header[..offset]) + value + old(header[offset + |value|..])
        else old(header[..])
  {
    if |value| > length { return false; }
    forall k | 0 <= k < |value| { header[offset + k] := value[k]; }
    return true;
  }

  // The next field of a header that is zero from there on. front and back are
  // what stands before it.
  method WriteField(header: array<Byte>, offset: nat, length: nat, value: Bytes, ghost front: Bytes, ghost back: Bytes)
    returns (ok: bool)
    requires header.Length == 512 && offset == |front| + |back| && offset + length <= 512
    requires header[..] == front + back + Zeros(512 - offset)
    modifies header
    ensures ok <==> |value| <= length
    ensures ok ==> header[..] == front + (back + Field(value, length)) + Zeros(512 - offset - length)
  {
    ok := WriteString(header, offset, length, value);
    if ok {
      assert old(header[..])[..offset] == front + back;
      assert old(header[..])[offset + |value|..] == Zeros(length - |value|) + Zeros(512 - offset - length);
      Assemble(front, back, value, Zeros(length - |value|), Zeros(512 - offset - length));
    }
  }

  lemma Assemble(a: Bytes, b: Bytes, c: Bytes, d: Bytes, e: Bytes)
    ensures a + b + c + (d + e) == a + (b + (c + d)) + e
  {
  }

  method WriteOctal(header: array<Byte>, offset: nat, length: nat, value: nat, ghost front: Bytes, ghost back: Bytes)
    returns (ok: bool)
    requires header.Length == 512 && offset == |front| + |back| && offset + length <= 512 && length > 0
    requires header[..] == front + back + Zeros(512 - offset)
    modifies header
    ensures ok <==> FitsOctal(value, length)
    ensures ok ==> header[..] == front + (back + Octal(value, length)) + Zeros(512 - offset - length)
  {
    hide Digits;
    var encoded := PadStart(Digits(value), length - 1);
    if |encoded| >= length { return false; }
    ok := WriteField(header, offset, length, encoded + [0], front, back);
    assert Field(encoded + [0], length) == Octal(value, length);
  }

  method SumOf(header: array<Byte>) returns (sum: nat)
    ensures sum == Sum(header[..])
  {
    sum := 0;
    for i := 0 to header.Length
      invariant sum == Sum(header[..i])
    {
      assert header[..i + 1][..i] == header[..i];
      sum := sum + header[i];
    }
    assert header[..header.Length] == header[..];
  }

  // The fields before the checksum.
  method WriteFront(header: array<Byte>, e: Entry) returns (ok: bool)
    requires header.Length == 512 && header[..] == [] + [] + Zeros(512) && TarPath(e.path).Some?
    modifies header
    ensures ok <==> FitsOctal(e.mode, 8) && FitsOctal(SizeOf(e.kind), 12)
    ensures ok ==> header[148..] == Zeros(364)
    ensures ok && |LinkOf(e.kind)| <= 100 ==> header[..148] == Front(e)
  {
    hide Octal, FitsOctal, TarPath, Field;
    var split := TarPath(e.path).value;
    TarPathFits(e.path);
    FitsOctalZero(8);
    FitsOctalZero(12);
    ghost var done: Bytes := [];
    ok := WriteField(header, 0, 100, split.name, [], done);
    done := Field(split.name, 100);
    ok := WriteOctal(header, 100, 8, e.mode, [], done);
    if !ok { return; }
    done := done + Octal(e.mode, 8);
    ok := WriteOctal(header, 108, 8, 0, [], done);
    done := done + Octal(0, 8);
    ok := WriteOctal(header, 116, 8, 0, [], done);
    done := done + Octal(0, 8);
    ok := WriteOctal(header, 124, 12, if e.kind.File? then |e.kind.content| else 0, [], done);
    if !ok { return; }
    done := done + Octal(SizeOf(e.kind), 12);
    ok := WriteOctal(header, 136, 12, 0, [], done);
    done := done + Octal(0, 12);
    FrontDone(header[..], done);
  }

  lemma FrontDone(h: Bytes, done: Bytes)
    requires h == [] + done + Zeros(364) && |done| == 148
    ensures h[..148] == done && h[148..] == Zeros(364)
  {
  }

  // The fields behind it.
  method WriteBack(header: array<Byte>, e: Entry, ghost front: Bytes) returns (ok: bool)
    requires header.Length == 512 && |front| == 156 && header[..] == front + Zeros(356)
    requires TarPath(e.path).Some? && FitsOctal(e.mode, 8) && FitsOctal(SizeOf(e.kind), 12)
    modifies header
    ensures ok <==> |LinkOf(e.kind)| <= 100
    ensures ok ==> header[..] == front + Back(e)
  {
    hide Octal, FitsOctal, TarPath;
    var split := TarPath(e.path).value;
    TarPathFits(e.path);
    FitsOctalZero(8);
    ghost var done: Bytes := [];
    var flag: Byte := if e.kind.Directory? then 0x35 else if e.kind.Symlink? then 0x32 else 0x30;
    ok := WriteField(header, 156, 1, [flag], front, done);
    done := [TypeFlag(e.kind)];
    ok := WriteField(header, 157, 100, LinkOf(e.kind), front, done);
    if !ok { return; }
    done := done + Field(LinkOf(e.kind), 100);
    ok := WriteField(header, 257, 6, MAGIC, front, done);
    done := done + MAGIC;
    ok := WriteField(header, 263, 2, VERSION, front, done);
    done := done + VERSION;
    ok := WriteField(header, 265, 32, OWNER, front, done);
    done := done + Field(OWNER, 32);
    ok := WriteField(header, 297, 32, OWNER, front, done);
    done := done + Field(OWNER, 32);
    ok := WriteOctal(header, 329, 8, 0, front, done);
    done := done + Octal(0, 8);
    ok := WriteOctal(header, 337, 8, 0, front, done);
    done := done + Octal(0, 8);
    ok := WriteField(header, 345, 155, split.prefix, front, done);
    done := done + Field(split.prefix, 155);
    assert header[..] == front + (done + Zeros(12));
  }

  /** A header, or a refusal of what the format cannot hold. */
  method TarHeader(e: Entry) returns (ok: bool, header: array<Byte>)
    ensures ok <==> Representable(e)
    ensures ok ==> header[..] == Header(e)
  {
    hide Front, Back, Digits, FitsOctal;
    header := new Byte[512](_ => 0);
    assert header[..] == [] + [] + Zeros(512);
    if TarPath(e.path).None? { return false, header; }
    ok := WriteFront(header, e);
    if !ok { return; }
    ghost var front := header[..148];
    forall k | 148 <= k < 156 { header[k] := SPACE; }
    assert header[..] == front + Repeat(SPACE, 8) + Zeros(356);
    ok := WriteBack(header, e, front + Repeat(SPACE, 8));
    if !ok { return; }
    assert header[..] == Front(e) + Repeat(SPACE, 8) + Back(e);
    var checksum := SumOf(header);
    ChecksumFits(Front(e), Back(e));
    ok := WriteString(header, 148, 8, PadStart(Digits(checksum), 6) + [0, SPACE]);
    Placed(Front(e), Repeat(SPACE, 8), Back(e), PadStart(Digits(checksum), 6) + [0, SPACE]);
  }

  lemma Placed(front: Bytes, before: Bytes, back: Bytes, after: Bytes)
    requires |front| == 148 && |before| == |after| == 8
    ensures (front + before + back)[..148] + after + (front + before + back)[156..] == front + after + back
  {
  }

  /** The blocks of the entries, and the zeros that end an archive. */
  method CreateArchive(entries: seq<Entry>) returns (ok: bool, archive: Bytes)
    ensures ok <==> forall e | e in entries :: Representable(e)
    ensures ok ==> archive == Archive(entries)
  {
    hide Header, Representable, Archive, Blocks;
    ok, archive := true, [];
    var index := 0;
    while index < |entries|
      invariant index <= |entries| && forall e | e in entries[..index] :: Representable(e)
      invariant archive == BlocksOf(entries[..index])
    {
      var e := entries[index];
      var header: array<Byte>;
      ok, header := TarHeader(e);
      if !ok {
        assert e in entries;
        return;
      }
      assert entries[..index + 1] == entries[..index] + [e];
      assert (entries[..index] + [e])[..index] == entries[..index];
      archive := archive + header[..];
      BlocksIs(e);
      if e.kind.File? {
        archive := archive + e.kind.content;
        var padding := Padding(|e.kind.content|);
        if padding > 0 { archive := archive + Zeros(padding); }
      }
      assert archive == BlocksOf(entries[..index]) + Blocks(e);
      index := index + 1;
    }
    assert entries[..index] == entries;
    archive := archive + Zeros(1024);
    BlocksThenEnd(entries);
  }

  lemma BlocksIs(e: Entry)
    requires Representable(e)
    ensures Blocks(e) == Header(e) + (if e.kind.File? then e.kind.content else []) + Zeros(Padding(SizeOf(e.kind)))
    ensures !e.kind.File? ==> Zeros(Padding(SizeOf(e.kind))) == []
    ensures Padding(SizeOf(e.kind)) == 0 ==> Zeros(Padding(SizeOf(e.kind))) == []
  {
    hide Header;
  }

  // The blocks written so far.
  function BlocksOf(es: seq<Entry>): Bytes
    requires forall e | e in es :: Representable(e)
  {
    if es == [] then [] else BlocksOf(es[..|es| - 1]) + Blocks(es[|es| - 1])
  }

  lemma {:induction false} BlocksThenEnd(es: seq<Entry>)
    requires forall e | e in es :: Representable(e)
    ensures BlocksOf(es) + Zeros(1024) == Archive(es)
  {
    hide Blocks, Representable;
    ArchiveFrom(es, []);
    assert es + [] == es;
    assert Archive([]) == Zeros(1024);
  }

  lemma {:induction false} ArchiveFrom(es: seq<Entry>, more: seq<Entry>)
    requires forall e | e in es + more :: Representable(e)
    ensures (forall e | e in es :: Representable(e)) && (forall e | e in more :: Representable(e))
    ensures Archive(es + more) == BlocksOf(es) + Archive(more)
    decreases |es|
  {
    hide Blocks, Representable;
    forall e | e in es ensures Representable(e) { assert e in es + more; }
    forall e | e in more ensures Representable(e) { assert e in es + more; }
    if es == [] {
      assert es + more == more;
    } else {
      var init, last := es[..|es| - 1], es[|es| - 1];
      assert init + ([last] + more) == es + more;
      ArchiveFrom(init, [last] + more);
      assert ([last] + more)[1..] == more;
    }
  }

  // ----- The compressed stream -----

  // A stream with its byte 9, the operating system, replaced, when it has one.
  function Pinned(stream: Bytes, os: Byte): Bytes { if |stream| < 10 then stream else stream[9 := os] }

  /** Nothing is added or lost, and only the tenth byte is another, where there is one. */
  lemma PinnedTenth(stream: Bytes, os: Byte)
    ensures var p := Pinned(stream, os);
            |p| == |stream| && forall k | 0 <= k < |stream| :: p[k] == if k == 9 then os else stream[k]
  {}

  class GzipOsPin {
    const os: Byte
    var header: Bytes
    var pinned: bool
    var output: Bytes
    ghost var input: Bytes

    constructor (os: Byte)
      ensures Valid() && input == [] && this.os == os
    {
      this.os, header, pinned, output, input := os, [], false, [], [];
    }

    ghost predicate Valid()
      reads this
    {
      if pinned then |input| >= 10 && output == Pinned(input, os)
      else header == input && |input| < 10 && output == []
    }

    method Transform(chunk: Bytes)
      requires Valid()
      modifies this
      ensures Valid() && input == old(input) + chunk
    {
      input := input + chunk;
      if pinned {
        output := output + chunk;
        return;
      }
      header := header + chunk;
      if |header| < 10 { return; }
      header := header[9 := os];
      pinned := true;
      output := header;
      header := [];
    }

    /** In whatever pieces a stream came, it leaves whole, its tenth byte pinned. */
    method Flush()
      requires Valid()
      modifies `output
      ensures output == Pinned(input, os)
    {
      if !pinned && |header| > 0 { output := output + header; }
    }
  }
}

/** Lines out of a byte stream that comes in pieces (src/ndjson.js:1-53). */
module Ndjson {
  import opened Utf8
  import TextLines

  const LF: Byte := 0x0A
  const CR: Byte := 0x0D

  type Bytes = seq<Byte>

  // ----- What the lines of a stream are -----

  // One trailing carriage return goes; an empty line is none.
  function Cleaned(raw: Bytes): seq<Bytes> {
    var line := if raw != [] && raw[|raw| - 1] == CR then raw[..|raw| - 1] else raw;
    if line == [] then [] else [line]
  }

  /** The lines of a stream split on LF: all but the last piece, up to the first
      piece that is too long. */
  function LinesOf(raws: seq<Bytes>, max: nat): seq<Bytes> {
    if |raws| <= 1 || |raws[0]| > max then [] else Cleaned(raws[0]) + LinesOf(raws[1..], max)
  }

  predicate Overflows(raws: seq<Bytes>, max: nat) { exists k | 0 <= k < |raws| :: |raws[k]| > max }

  function Raws(stream: Bytes): (raws: seq<Bytes>)
    ensures raws != []
  {
    TextLines.Lines(stream)
  }

  predicate NoBreak(s: Bytes) { forall k | 0 <= k < |s| :: s[k] != LF }

  lemma {:induction false} RawsOfPlain(stream: Bytes, more: Bytes)
    requires NoBreak(more)
    ensures var raws := Raws(stream); Raws(stream + more) == raws[..|raws| - 1] + [raws[|raws| - 1] + more]
    decreases |stream| + |more|
  {
    if stream == [] {
      assert [] + more == more;
      OnePiece(more);
    } else {
      assert (stream + more)[1..] == stream[1..] + more;
      RawsOfPlain(stream[1..], more);
      LastGrows(stream[0], Raws(stream[1..]), more);
    }
  }

  lemma {:induction false} OnePiece(s: Bytes)
    requires NoBreak(s)
    ensures Raws(s) == [s]
  {
    if s != [] {
      OnePiece(s[1..]);
      assert [s[0]] + s[1..] == s;
    }
  }

  // A byte in front of a split whose last piece grew.
  lemma LastGrows(b: Byte, rest: seq<Bytes>, more: Bytes)
    requires rest != []
    ensures var grown := rest[..|rest| - 1] + [rest[|rest| - 1] + more];
            var before := if b == LF then [[]] + rest else [[b] + rest[0]] + rest[1..];
            (if b == LF then [[]] + grown else [[b] + grown[0]] + grown[1..])
              == before[..|before| - 1] + [before[|before| - 1] + more]
  {
    if |rest| == 1 { assert [b] + (rest[0] + more) == [b] + rest[0] + more; }
  }

  lemma {:induction false} RawsOfBreak(stream: Bytes)
    ensures Raws(stream + [LF]) == Raws(stream) + [[]]
  {
    if stream == [] {
      assert [] + [LF] == [LF] && [LF][1..] == [];
    } else {
      assert (stream + [LF])[1..] == stream[1..] + [LF];
      RawsOfBreak(stream[1..]);
      var rest := Raws(stream[1..]);
      assert (rest + [[]])[1..] == rest[1..] + [[]];
    }
  }

  lemma LinesAhead(raws: seq<Bytes>, max: nat)
    requires raws != []
    ensures LinesOf(raws, max) == if |raws| == 1 || |raws[0]| > max then []
        else Cleaned(raws[0]) + LinesOf(raws[1..], max)
  {}

  lemma FitAhead(raws: seq<Bytes>, max: nat)
    requires raws != [] && !Overflows(raws, max)
    ensures |raws[0]| <= max && !Overflows(raws[1..], max)
  {
    assert forall k | 0 <= k < |raws[1..]| :: raws[1..][k] == raws[k + 1];
  }

  /** A piece more: the one before it becomes a line. */
  lemma {:induction false} LinesOfMore(raws: seq<Bytes>, last: Bytes, max: nat)
    requires raws != [] && !Overflows(raws, max)
    ensures LinesOf(raws + [last], max) == LinesOf(raws, max) + Cleaned(raws[|raws| - 1])
  {
    hide Cleaned, LinesOf, Overflows;
    FitAhead(raws, max);
    LinesAhead(raws, max);
    LinesAhead(raws + [last], max);
    if |raws| == 1 {
      assert (raws + [last])[1..] == [last];
      LinesAhead([last], max);
    } else {
      LinesOfMore(raws[1..], last, max);
      assert (raws + [last])[1..] == raws[1..] + [last];
    }
  }

  // What the last piece is does not matter yet.
  lemma {:induction false} LinesOfOpen(raws: seq<Bytes>, last: Bytes, max: nat)
    requires raws != [] && !Overflows(raws, max)
    ensures LinesOf(raws[..|raws| - 1] + [last], max) == LinesOf(raws, max)
  {
    hide Cleaned, LinesOf, Overflows;
    var changed := raws[..|raws| - 1] + [last];
    FitAhead(raws, max);
    LinesAhead(raws, max);
    LinesAhead(changed, max);
    if |raws| > 1 {
      LinesOfOpen(raws[1..], last, max);
      assert changed[1..] == raws[1..][..|raws[1..]| - 1] + [last];
    }
  }

  // Past a piece that is too long nothing more is said of a stream.
  lemma {:induction false} OverflowStays(raws: seq<Bytes>, more: seq<Bytes>, max: nat)
    requires Overflows(raws, max) && |more| >= |raws| && (forall k | 0 <= k < |raws| - 1 :: more[k] == raws[k])
    requires |more[|raws| - 1]| >= |raws[|raws| - 1]|
    ensures Overflows(more, max) && LinesOf(more, max) == LinesOf(raws, max)
  {
    var k :| 0 <= k < |raws| && |raws[k]| > max;
    assert |more[k]| > max;
    if |raws| > 1 && |raws[0]| <= max {
      assert raws[1..][k - 1] == raws[k];
      OverflowStays(raws[1..], more[1..], max);
    }
  }

  /** Lines as a sender frames them: each ended by LF, or by CR and LF. */
  ghost function Framed(lines: seq<Bytes>, crlf: seq<bool>): Bytes
    requires |crlf| == |lines|
  {
    if lines == [] then []
    else lines[0] + (if crlf[0] then [0x0D, 0x0A] else [0x0A]) + Framed(lines[1..], crlf[1..])
  }

  lemma {:induction false} RawsFirst(line: Bytes, more: Bytes)
    requires 0x0A !in line
    ensures Raws(line + [0x0A] + more) == [line] + Raws(more)
  {
    var stream := line + [0x0A] + more;
    if line == [] {
      assert stream[1..] == more;
    } else {
      assert stream[1..] == line[1..] + [0x0A] + more;
      RawsFirst(line[1..], more);
      assert [line[0]] + line[1..] == line;
    }
  }

  // The stream a frame begins.
  lemma FrameFirst(line: Bytes, crlf: bool, rest: Bytes, max: nat)
    requires 0x0A !in line && (line != [] ==> line[|line| - 1] != 0x0D) && |line| + (if crlf then 1 else 0) <= max
    ensures LinesOf(Raws(line + (if crlf then [0x0D, 0x0A] else [0x0A]) + rest), max)
         == (if line == [] then [] else [line]) + LinesOf(Raws(rest), max)
  {
    var raw := if crlf then line + [0x0D] else line;
    assert line + (if crlf then [0x0D, 0x0A] else [0x0A]) + rest == raw + [0x0A] + rest;
    RawsFirst(raw, rest);
    hide Raws;
    assert ([raw] + Raws(rest))[1..] == Raws(rest);
    assert crlf ==> raw[..|raw| - 1] == line;
  }

  /** What was framed comes back: the lines that are not empty, in their order, whichever
      way each was ended and whatever follows that is not ended yet. */
  lemma {:induction false} FramesComeBack(lines: seq<Bytes>, crlf: seq<bool>, open: Bytes, max: nat)
    requires |crlf| == |lines| && 0x0A !in open
    requires forall k | 0 <= k < |lines| ::
               && 0x0A !in lines[k] && (lines[k] != [] ==> lines[k][|lines[k]| - 1] != 0x0D)
               && |lines[k]| + (if crlf[k] then 1 else 0) <= max
    ensures LinesOf(Raws(Framed(lines, crlf) + open), max) == NotEmpty(lines)
  {
    hide Raws, LinesOf;
    if lines == [] {
      assert [] + open == open;
      OpenIsNone(open, max);
    } else {
      var rest := Framed(lines[1..], crlf[1..]);
      FramesComeBack(lines[1..], crlf[1..], open, max);
      FrameFirst(lines[0], crlf[0], rest + open, max);
      var ended := lines[0] + (if crlf[0] then [0x0D, 0x0A] else [0x0A]);
      assert Framed(lines, crlf) + open == ended + (rest + open);
    }
  }

  ghost function NotEmpty(lines: seq<Bytes>): seq<Bytes> {
    if lines == [] then [] else (if lines[0] == [] then [] else [lines[0]]) + NotEmpty(lines[1..])
  }

  lemma OpenIsNone(open: Bytes, max: nat)
    requires 0x0A !in open
    ensures LinesOf(Raws(open), max) == []
  {
    OnePiece(open);
  }

  // ----- The reader -----

  class NdjsonReader {
    const maxLineBytes: nat
    var chunks: Bytes
    var closed: bool
    var lines: seq<Bytes>
    var overflows: nat
    ghost var stream: Bytes

    constructor (maxLineBytes: nat)
      ensures Valid() && stream == [] && !closed && this.maxLineBytes == maxLineBytes
    {
      this.maxLineBytes, chunks, closed, lines, overflows, stream := maxLineBytes, [], false, [], 0, [];
    }

    /** The lines are those of the whole stream so far, however it came, and it is
        closed, once, exactly when one was too long. */
    ghost predicate Valid()
      reads this
    {
      var raws := Raws(stream);
      && lines == LinesOf(raws, maxLineBytes) && |chunks| <= maxLineBytes
      && (closed <==> Overflows(raws, maxLineBytes)) && overflows == (if closed then 1 else 0)
      && chunks == if closed then [] else raws[|raws| - 1]
    }

    // Part of a line: whether it still fits.
    method Append(buffer: Bytes) returns (ok: bool)
      requires Valid() && !closed && NoBreak(buffer)
      modifies this
      ensures Valid() && ok == !closed && stream == old(stream) + buffer
    {
      ghost var raws := Raws(stream);
      RawsOfPlain(stream, buffer);
      stream := stream + buffer;
      ghost var now := Raws(stream);
      LinesOfOpen(raws, raws[|raws| - 1] + buffer, maxLineBytes);
      if |buffer| == 0 {
        assert stream == old(stream);
        return true;
      }
      if |chunks| + |buffer| > maxLineBytes {
        assert |now[|now| - 1]| > maxLineBytes;
        chunks, closed := [], true;
        overflows := overflows + 1;
        return false;
      }
      chunks := chunks + buffer;
      assert forall k | 0 <= k < |now| :: |now[k]| <= maxLineBytes;
      return true;
    }

    method EmitLine()
      requires Valid() && !closed
      modifies this
      ensures Valid() && !closed && stream == old(stream) + [LF]
    {
      ghost var raws := Raws(stream);
      RawsOfBreak(stream);
      LinesOfMore(raws, [], maxLineBytes);
      stream := stream + [LF];
      var line := chunks;
      if |line| > 0 && line[|line| - 1] == CR { line := line[..|line| - 1]; }
      chunks := [];
      if |line| > 0 { lines := lines + [line]; }
      assert lines == LinesOf(raws, maxLineBytes) + Cleaned(raws[|raws| - 1]);
      assert forall k | 0 <= k < |raws| :: (raws + [[]])[k] == raws[k];
    }

    /** A piece of the stream. */
    method HandleData(buffer: Bytes)
      requires Valid()
      modifies this
      ensures Valid() && stream == old(stream) + buffer
    {
      hide Valid;
      if closed {
        Ignore(buffer);
        return;
      }
      var start := 0;
      var index := 0;
      assert buffer[..0] == [];
      while index < |buffer|
        invariant 0 <= start <= index <= |buffer| && NoBreak(buffer[start..index])
        invariant Valid() && !closed && stream == old(stream) + buffer[..start]
      {
        if buffer[index] != LF {
          assert buffer[start..index + 1] == buffer[start..index] + [buffer[index]];
          index := index + 1;
          continue;
        }
        assert buffer[..start] + buffer[start..index] + [LF] == buffer[..index + 1];
        var ok := Append(buffer[start..index]);
        if !ok {
          assert buffer[..start] + buffer[start..index] + buffer[index..] == buffer;
          Ignore(buffer[index..]);
          return;
        }
        EmitLine();
        start := index + 1;
        index := start;
      }
      assert buffer[..start] + buffer[start..] == buffer && buffer[start..index] == buffer[start..];
      var _ := Append(buffer[start..]);
    }

    // What comes after the reader has closed changes nothing.
    ghost method Ignore(more: Bytes)
      requires Valid() && closed
      modifies `stream
      ensures Valid() && stream == old(stream) + more
    {
      IgnoredStream(stream, more, maxLineBytes);
      stream := stream + more;
    }
  }

  lemma {:induction false} IgnoredStream(stream: Bytes, more: Bytes, max: nat)
    requires Overflows(Raws(stream), max)
    ensures Overflows(Raws(stream + more), max) && LinesOf(Raws(stream + more), max) == LinesOf(Raws(stream), max)
    decreases |more|
  {
    if more == [] {
      assert stream + more == stream;
    } else {
      var next := stream + [more[0]];
      assert next + more[1..] == stream + more;
      if more[0] == LF { RawsOfBreak(stream); } else { RawsOfPlain(stream, [more[0]]); }
      OverflowStays(Raws(stream), Raws(next), max);
      IgnoredStream(next, more[1..], max);
    }
  }
}

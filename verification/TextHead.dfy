/** Byte caps that never end inside a character (src/bounded-utf8.js:4-99):
    looking one byte ahead, and trimming what was read. */
module TextHead {
  import opened Utf8

  /** The longest run of first characters that encodes to at most limit bytes. */
  function Head(cs: seq<Scalar>, limit: nat): seq<Scalar> {
    if cs == [] || |EncodeScalar(cs[0])| > limit then []
    else [cs[0]] + Head(cs[1..], limit - |EncodeScalar(cs[0])|)
  }

  lemma {:induction false} HeadIsLongest(cs: seq<Scalar>, limit: nat, k: nat)
    requires k <= |cs|
    ensures |Head(cs, limit)| <= |cs| && Head(cs, limit) == cs[..|Head(cs, limit)|]
    ensures |Encode(Head(cs, limit))| <= limit
    ensures |Encode(cs[..k])| <= limit ==> k <= |Head(cs, limit)|
  {
    hide EncodeScalar;
    if cs != [] && |EncodeScalar(cs[0])| <= limit {
      HeadIsLongest(cs[1..], limit - |EncodeScalar(cs[0])|, if k == 0 then 0 else k - 1);
      if k > 0 { assert cs[..k][1..] == cs[1..][..k - 1]; }
      var h := Head(cs[1..], limit - |EncodeScalar(cs[0])|);
      assert ([cs[0]] + h)[1..] == h;
      assert cs[..1 + |h|] == [cs[0]] + cs[1..][..|h|];
    } else if k > 0 {
      assert cs[..k][0] == cs[0];
    }
  }

  // ----- utf8ByteHead: back from the byte after the cap -----

  function HeadEnd(bytes: seq<Byte>, end: nat): (cut: nat)
    requires end < |bytes|
    ensures cut <= end
  {
    if end > 0 && Continuation(bytes[end]) then HeadEnd(bytes, end - 1) else end
  }

  method Utf8ByteHead(text: seq<CodeUnit>, maxBytes: nat) returns (head: seq<Byte>)
    ensures head == Encode(Head(Scalars(text), maxBytes))
  {
    var bytes := Bytes(text);
    if |bytes| <= maxBytes {
      HeadOfAll(Scalars(text), maxBytes);
      return bytes;
    }
    var end: nat := maxBytes;
    while end > 0 && Continuation(bytes[end])
      invariant end <= maxBytes && HeadEnd(bytes, end) == HeadEnd(bytes, maxBytes)
    {
      end := end - 1;
    }
    LookAheadCuts(Scalars(text), maxBytes);
    return bytes[..end];
  }

  lemma {:induction false} HeadOfAll(cs: seq<Scalar>, limit: nat)
    requires |Encode(cs)| <= limit
    ensures Head(cs, limit) == cs
  {
    if cs != [] { HeadOfAll(cs[1..], limit - |EncodeScalar(cs[0])|); }
  }

  lemma {:induction false} HeadEndShift(e: seq<Byte>, r: seq<Byte>, end: nat)
    requires end < |r| && !Continuation(r[0])
    ensures HeadEnd(e + r, |e| + end) == |e| + HeadEnd(r, end)
  {
    if end > 0 && Continuation(r[end]) { HeadEndShift(e, r, end - 1); }
  }

  lemma {:induction false} HeadEndInFirst(e: seq<Byte>, r: seq<Byte>, end: nat)
    requires end < |e| && (forall k :: 1 <= k < |e| ==> Continuation(e[k]))
    ensures HeadEnd(e + r, end) == 0
  {
    if end > 0 { HeadEndInFirst(e, r, end - 1); }
  }

  lemma {:induction false} LookAheadCuts(cs: seq<Scalar>, limit: nat)
    requires limit < |Encode(cs)|
    ensures Encode(cs)[..HeadEnd(Encode(cs), limit)] == Encode(Head(cs, limit))
  {
    hide EncodeScalar;
    var e, r := EncodeScalar(cs[0]), Encode(cs[1..]);
    if limit < |e| {
      HeadEndInFirst(e, r, limit);
    } else {
      EncodeStartsAligned(cs[1..]);
      HeadEndShift(e, r, limit - |e|);
      LookAheadCuts(cs[1..], limit - |e|);
      var h := Head(cs[1..], limit - |e|);
      assert ([cs[0]] + h)[1..] == h;
      assert (e + r)[..|e| + HeadEnd(r, limit - |e|)] == e + r[..HeadEnd(r, limit - |e|)];
    }
  }

  // ----- trimIncompleteUtf8: back over what was read -----

  // How many of the last bytes of s are continuation bytes.
  function Trailing(s: seq<Byte>): (n: nat)
    ensures n <= |s|
  {
    if s == [] || !Continuation(s[|s| - 1]) then 0 else 1 + Trailing(s[..|s| - 1])
  }

  function Needed(lead: Byte): nat {
    if lead < 0x80 then 0 else if lead < 0xE0 then 1 else if lead < 0xF0 then 2 else 3
  }

  /** s without an incomplete character at its end. */
  function Whole(s: seq<Byte>): (w: seq<Byte>)
    ensures w <= s
  {
    var n := Trailing(s);
    if n == |s| then []
    else if Needed(s[|s| - n - 1]) > n then s[..|s| - n - 1] else s
  }

  method TrimIncompleteUtf8(buffer: seq<Byte>) returns (r: seq<Byte>)
    ensures r == Whole(buffer)
  {
    var index := |buffer| - 1;
    var continuations := 0;
    assert buffer[..|buffer|] == buffer;
    while index >= 0 && Continuation(buffer[index])
      invariant -1 <= index < |buffer| && continuations == |buffer| - 1 - index
      invariant Trailing(buffer) == continuations + Trailing(buffer[..index + 1])
    {
      continuations := continuations + 1;
      assert buffer[..index + 1][..index] == buffer[..index];
      index := index - 1;
    }
    if index < 0 { return []; }
    return if Needed(buffer[index]) > continuations then buffer[..index] else buffer;
  }

  lemma LeadNeeds(c: Scalar)
    ensures Needed(EncodeScalar(c)[0]) == |EncodeScalar(c)| - 1
  {
  }

  lemma {:induction false} TrailingOf(a: seq<Byte>, e: seq<Byte>)
    requires e != [] && !Continuation(e[0]) && forall k :: 1 <= k < |e| ==> Continuation(e[k])
    ensures Trailing(a + e) == |e| - 1
  {
    assert (a + e)[..|a + e| - 1] == a + e[..|e| - 1];
    if |e| > 1 { TrailingOf(a, e[..|e| - 1]); }
  }

  // The last character of s, complete or begun.
  lemma WholeOf(a: seq<Byte>, c: Scalar, j: nat)
    requires 0 < j <= |EncodeScalar(c)|
    ensures Whole(a + EncodeScalar(c)[..j]) == if j < |EncodeScalar(c)| then a else a + EncodeScalar(c)
  {
    hide EncodeScalar, Needed;
    var e := EncodeScalar(c);
    LeadNeeds(c);
    TrailingOf(a, e[..j]);
    assert (a + e[..j])[|a|] == e[0] && (a + e[..j])[..|a|] == a && e[..|e|] == e;
  }

  // The first character, whole or cut short.
  lemma HeadParts(cs: seq<Scalar>, limit: nat)
    requires 0 < limit <= |Encode(cs)|
    ensures cs != []
    ensures var e, r := EncodeScalar(cs[0]), Encode(cs[1..]);
            if limit < |e| then Encode(cs)[..limit] == e[..limit] && Encode(Head(cs, limit)) == []
            else
              && limit - |e| <= |r| && Encode(cs)[..limit] == e + r[..limit - |e|]
              && Encode(Head(cs, limit)) == e + Encode(Head(cs[1..], limit - |e|))
  {
    hide EncodeScalar;
    var h := Head(cs, limit);
    if limit >= |EncodeScalar(cs[0])| { assert h[1..] == Head(cs[1..], limit - |EncodeScalar(cs[0])|); }
  }

  /** Trimming agrees with looking ahead: of UTF-8 cut anywhere, both keep the
      characters that are whole. */
  lemma {:induction false} TrimCuts(before: seq<Byte>, cs: seq<Scalar>, limit: nat)
    requires limit <= |Encode(cs)| && (before == [] || Whole(before) == before)
    ensures Whole(before + Encode(cs)[..limit]) == before + Encode(Head(cs, limit))
    decreases cs
  {
    hide EncodeScalar, Whole, Encode, Head;
    if limit == 0 {
      HeadOfNone(cs);
      WholeNothing();
      assert before + [] == before;
    } else {
      HeadParts(cs, limit);
      var e, r := EncodeScalar(cs[0]), Encode(cs[1..]);
      if limit < |e| {
        WholeOf(before, cs[0], limit);
        assert before + [] == before;
      } else {
        WholeOf(before, cs[0], |e|);
        assert e[..|e|] == e;
        TrimCuts(before + e, cs[1..], limit - |e|);
        var h := Encode(Head(cs[1..], limit - |e|));
        assert before + (e + r[..limit - |e|]) == before + e + r[..limit - |e|];
        assert before + (e + h) == before + e + h;
      }
    }
  }

  lemma HeadOfNone(cs: seq<Scalar>)
    ensures Encode(Head(cs, 0)) == []
  {
    if cs != [] { assert |EncodeScalar(cs[0])| > 0; }
  }

  lemma WholeNothing()
    ensures Whole([]) == []
  {
  }

  lemma BothCutsAgree(cs: seq<Scalar>, limit: nat)
    requires limit < |Encode(cs)|
    ensures Whole(Encode(cs)[..limit]) == Encode(cs)[..HeadEnd(Encode(cs), limit)] == Encode(Head(cs, limit))
  {
    LookAheadCuts(cs, limit);
    TrimCuts([], cs, limit);
    assert [] + Encode(cs)[..limit] == Encode(cs)[..limit];
  }

  // ----- Reading the head of a file -----

  /** An open file of fixed content. A read may stop short of what was asked for,
      and returns nothing only at the end or when nothing was asked for. */
  class FileHandle {
    const content: seq<Byte>

    constructor (content: seq<Byte>)
      ensures this.content == content
    {
      this.content := content;
    }

    method Read(buffer: array<Byte>, offset: nat, length: nat, position: nat) returns (bytesRead: nat)
      requires offset + length <= buffer.Length
      modifies buffer
      ensures bytesRead <= length && (bytesRead == 0 <==> length == 0 || position >= |content|)
      ensures position < |content| ==> position + bytesRead <= |content|
      ensures bytesRead > 0 ==> buffer[offset..offset + bytesRead] == content[position..position + bytesRead]
      ensures forall k :: 0 <= k < buffer.Length && !(offset <= k < offset + bytesRead) ==> buffer[k] == old(buffer[k])
    {
      if length == 0 || position >= |content| { return 0; }
      var n: nat :| 1 <= n <= length && position + n <= |content|;
      forall k | 0 <= k < n { buffer[offset + k] := content[position + k]; }
      return n;
    }
  }

  /** Fills buffer from the start of a file, through short reads. */
  method ReadInto(handle: FileHandle, buffer: array<Byte>) returns (bytesRead: nat)
    modifies buffer
    ensures bytesRead == if |handle.content| < buffer.Length then |handle.content| else buffer.Length
    ensures buffer[..bytesRead] == handle.content[..bytesRead]
  {
    bytesRead := 0;
    while bytesRead < buffer.Length
      invariant bytesRead <= buffer.Length && bytesRead <= |handle.content|
      invariant buffer[..bytesRead] == handle.content[..bytesRead]
    {
      var n := handle.Read(buffer, bytesRead, buffer.Length - bytesRead, bytesRead);
      if n == 0 { break; }
      assert buffer[..bytesRead + n] == buffer[..bytesRead] + buffer[bytesRead..bytesRead + n];
      bytesRead := bytesRead + n;
    }
  }

  /** The head of a file and whether it was cut. */
  method ReadTextHead(handle: FileHandle, maxBytes: nat) returns (head: seq<Byte>, truncated: bool)
    ensures truncated <==> |handle.content| > maxBytes
    ensures head == if truncated then Whole(handle.content[..maxBytes]) else handle.content
  {
    var buffer := new Byte[maxBytes + 3](_ => 0);
    var bytesRead := ReadInto(handle, buffer);
    if bytesRead <= maxBytes {
      assert handle.content[..|handle.content|] == handle.content;
      return buffer[..bytesRead], false;
    }
    assert buffer[..maxBytes] == buffer[..bytesRead][..maxBytes] == handle.content[..maxBytes];
    head := TrimIncompleteUtf8(buffer[..maxBytes]);
    truncated := true;
  }
}

/** BoundedUtf8Text as it stores its bytes (src/bounded-utf8.js:199-396), proved
    against the accumulator of module BoundedText. */
module Accumulator {
  import opened Utf8
  import opened Wrappers
  import opened BoundedText

  datatype Result<+T> = Ok(value: T) | RangeError

  /** A slot of the chunk list: a Buffer view of a backing store, or undefined
      once its bytes were evicted. */
  datatype Slot = Released | View(store: array<Byte>, start: nat, end: nat)

  // ----- Sealed pieces, joined -----

  function Flat(pieces: seq<seq<Byte>>): seq<Byte> {
    if pieces == [] then [] else pieces[0] + Flat(pieces[1..])
  }

  lemma {:induction false} FlatConcat(a: seq<seq<Byte>>, b: seq<seq<Byte>>)
    ensures Flat(a + b) == Flat(a) + Flat(b)
  {
    if a == [] {
      assert a + b == b;
    } else {
      assert (a + b)[1..] == a[1..] + b;
      FlatConcat(a[1..], b);
    }
  }

  lemma FlatOne(piece: seq<Byte>)
    ensures Flat([piece]) == piece
  {
    assert Flat([piece]) == piece + Flat([]);
  }

  lemma FlatAppend(pieces: seq<seq<Byte>>, last: seq<Byte>)
    ensures Flat(pieces + [last]) == Flat(pieces) + last
  {
    FlatConcat(pieces, [last]);
    FlatOne(last);
  }

  lemma FlatTake(pieces: seq<seq<Byte>>, index: nat)
    requires index < |pieces|
    ensures Flat(pieces[..index + 1]) == Flat(pieces[..index]) + pieces[index]
    ensures |Flat(pieces[..index + 1])| <= |Flat(pieces)|
  {
    FlatAppend(pieces[..index], pieces[index]);
    assert pieces[..index] + [pieces[index]] == pieces[..index + 1];
    FlatConcat(pieces[..index + 1], pieces[index + 1..]);
    assert pieces == pieces[..index + 1] + pieces[index + 1..];
  }

  lemma NothingStored()
    ensures Flat([]) == [] && Bytes([]) == [] && Decode([]) == Some([])
  {
    NothingCarried();
  }

  // ----- Eviction from the front -----

  function Without(a: Acc, start: nat): Acc
    requires start <= |a.live|
  {
    Acc(a.live[start..], a.trimmed + a.live[..start], a.pending)
  }

  /** gone bytes went from the front of a, to a character boundary, and none past
      the excess but the rest of a character. */
  ghost predicate EvictedBy(a: Acc, b: Acc, excess: nat, gone: nat) {
    && 0 < gone <= |a.live|
    && b == Without(a, gone)
    && Aligned(b.live)
    && forall k :: excess <= k < gone ==> Continuation(a.live[k])
  }

  /** The invariant of eviction: it went no further than the cut that is due. */
  ghost predicate EvictedSoFar(was: Acc, now: Acc, room: int, gone: nat) {
    && gone <= |was.live|
    && now == Without(was, gone)
    && (gone > 0 ==> |was.live| > room)
    && Aligned(now.live)
    && forall k: nat :: |was.live| - Max(room, 0) <= k < gone ==> Continuation(was.live[k])
  }

  lemma EvictedNone(was: Acc, room: int)
    requires Aligned(was.live)
    ensures EvictedSoFar(was, was, room, 0)
  {
    assert was.live[0..] == was.live && was.trimmed + was.live[..0] == was.trimmed;
  }

  lemma EvictedFurther(was: Acc, mid: Acc, now: Acc, room: int, gone: nat, more: nat)
    requires EvictedSoFar(was, mid, room, gone) && |mid.live| > room
    requires EvictedBy(mid, now, |mid.live| - room, more)
    ensures EvictedSoFar(was, now, room, gone + more)
    ensures |now.live| < |mid.live| && now.pending == mid.pending
  {
    var live := was.live;
    assert live[gone..][more..] == live[gone + more..];
    assert live[..gone] + live[gone..][..more] == live[..gone + more];
    assert was.trimmed + (live[..gone] + mid.live[..more]) == (was.trimmed + live[..gone]) + mid.live[..more];
    forall k: nat | |live| - Max(room, 0) <= k < gone + more
      ensures Continuation(live[k])
    {
      if k >= gone { assert live[gone..][k - gone] == live[k]; }
    }
  }

  lemma EvictedEnough(was: Acc, now: Acc, max: nat, gone: nat)
    requires EvictedSoFar(was, now, Room(was, max), gone)
    requires |now.live| <= Room(was, max) || now.live == []
    ensures now == Evicted(was, max)
  {
    var live, room := was.live, Room(was, max);
    if |live| > room {
      assert gone < |live| ==> live[gone..][0] == live[gone];
      BoundaryIs(live, |live| - Max(room, 0), gone);
    }
  }

  lemma EvictedFits(a: Acc, max: nat)
    ensures if Room(a, max) < 0 then Evicted(a, max).live == [] else |Evicted(a, max).live| <= Room(a, max)
    ensures Evicted(a, max).pending == a.pending
  {
    hide Boundary;
    CutFits(a.live, Room(a, max));
  }

  // One eviction, of a prefix of the front piece or of the open region.
  lemma FrontShrinks(a: Acc, pieces: seq<seq<Byte>>, open: seq<Byte>, excess: nat, start: nat)
    requires pieces != [] && a.live == Flat(pieces) + open && 0 < start < |pieces[0]|
    requires excess <= |pieces[0]| && start == Boundary(pieces[0], excess)
    ensures start <= |a.live| && a.live[..start] == pieces[0][..start]
    ensures Flat(pieces[0 := pieces[0][start..]]) + open == a.live[start..]
    ensures EvictedBy(a, Without(a, start), excess, start)
    ensures Aligned(pieces[0][start..])
  {
    BoundaryAligns(pieces[0], excess);
    var rest := pieces[0][start..];
    assert pieces[0 := rest][1..] == pieces[1..];
    assert a.live == pieces[0] + (Flat(pieces[1..]) + open);
    assert rest[0] == a.live[start..][0];
  }

  lemma FrontDrops(a: Acc, pieces: seq<seq<Byte>>, open: seq<Byte>, excess: nat)
    requires pieces != [] && a.live == Flat(pieces) + open && pieces[0] != []
    requires |pieces[0]| <= excess || Boundary(pieces[0], excess) == |pieces[0]|
    requires Aligned(open) && (|pieces| > 1 ==> pieces[1] != [] && Aligned(pieces[1]))
    ensures |pieces[0]| <= |a.live| && a.live[..|pieces[0]|] == pieces[0]
    ensures Flat(pieces[1..]) + open == a.live[|pieces[0]|..]
    ensures EvictedBy(a, Without(a, |pieces[0]|), excess, |pieces[0]|)
  {
    if |pieces[0]| > excess { BoundaryAligns(pieces[0], excess); }
    var rest := Flat(pieces[1..]) + open;
    assert a.live == pieces[0] + rest;
    assert a.live[|pieces[0]|..] == rest;
    if |pieces| > 1 { assert rest[0] == pieces[1][0]; }
  }

  lemma OpenShrinks(a: Acc, open: seq<Byte>, excess: nat, start: nat)
    requires a.live == open && 0 < start <= |open|
    requires start == if |open| <= excess then |open| else Boundary(open, excess)
    ensures a.live[..start] == open[..start]
    ensures Aligned(open[start..]) && EvictedBy(a, Without(a, start), excess, start)
  {
    if |open| > excess { BoundaryAligns(open, excess); }
  }

  // ----- The buffer primitives -----

  // Buffer.copy of from[start..end] to offset in to.
  method CopyInto(from: array<Byte>, start: nat, end: nat, to: array<Byte>, offset: nat)
    requires from != to && start <= end <= from.Length && offset + (end - start) <= to.Length
    modifies to
    ensures to[..offset + (end - start)] == old(to[..offset]) + from[start..end]
  {
    forall k | 0 <= k < end - start { to[offset + k] := from[start + k]; }
  }

  // Buffer.write of encoded bytes at offset.
  method WriteInto(to: array<Byte>, offset: nat, bytes: seq<Byte>)
    requires offset + |bytes| <= to.Length
    modifies to
    ensures forall k :: 0 <= k < offset ==> to[k] == old(to[k])
    ensures to[offset..offset + |bytes|] == bytes
  {
    forall k | 0 <= k < |bytes| { to[offset + k] := bytes[k]; }
  }

  // utf8Boundary on the view store[from..to].
  method NextBoundary(store: array<Byte>, from: nat, to: nat, offset: nat) returns (start: nat)
    requires from <= to <= store.Length && offset <= to - from
    ensures start == Boundary(store[from..to], offset)
  {
    start := offset;
    while start < to - from && Continuation(store[from + start])
      invariant offset <= start <= to - from
      invariant Boundary(store[from..to], offset) == Boundary(store[from..to], start)
    {
      start := start + 1;
    }
  }

  // released: a view that pins a store mostly evicted is copied out of it.
  method Rest(view: Slot) returns (r: Slot)
    requires view.View? && view.start < view.end <= view.store.Length
    ensures r.View? && r.start < r.end <= r.store.Length
        && (r == view || (fresh(r.store) && r.store.Length == r.end - r.start))
    ensures r.store[r.start..r.end] == view.store[view.start..view.end]
    ensures r.store.Length <= Max(MAX_BLOCK_BYTES, 2 * (r.end - r.start))
  {
    var length := view.end - view.start;
    if view.store.Length <= MAX_BLOCK_BYTES || length * 2 >= view.store.Length { return view; }
    var copy := new Byte[length](i requires 0 <= i < length reads view.store => view.store[view.start + i]);
    return View(copy, 0, length);
  }

  // ----- The stored form -----

  // Each sealed view holds its piece, ends where the open part of its block
  // begins, and pins no store much larger than itself; slots before head are
  // released.
  ghost predicate Sealed(chunks: seq<Slot>, head: nat, pieces: seq<seq<Byte>>, block: array?<Byte>, blockStart: nat,
                         stores: set<array<Byte>>)
    reads stores
  {
    && head + |pieces| == |chunks|
    && (forall i :: 0 <= i < head ==> chunks[i] == Released)
    && forall i :: head <= i < |chunks| ==> chunks[i].View? && chunks[i].store in stores
                                            && SealedAs(chunks[i], pieces[i - head], block, blockStart)
  }

  ghost predicate SealedAs(slot: Slot, piece: seq<Byte>, block: array?<Byte>, blockStart: nat)
    requires slot.View?
    reads slot.store
  {
    && slot.start < slot.end <= slot.store.Length
    && (slot.store == block ==> slot.end <= blockStart)
    && slot.store.Length <= Max(MAX_BLOCK_BYTES, 2 * (slot.end - slot.start))
    && slot.store[slot.start..slot.end] == piece
    && piece != [] && Aligned(piece)
  }

  ghost predicate Opened(block: array?<Byte>, blockStart: nat, blockEnd: nat, open: seq<Byte>)
    reads block
  {
    && (block == null ==> blockStart == blockEnd == 0 && open == [])
    && (block != null ==> blockStart <= blockEnd <= block.Length <= MAX_BLOCK_BYTES
                          && open == block[blockStart..blockEnd])
    && Aligned(open)
  }

  lemma SealedFront(chunks: seq<Slot>, head: nat, pieces: seq<seq<Byte>>, block: array?<Byte>, blockStart: nat,
                    stores: set<array<Byte>>, k: nat)
    requires Sealed(chunks, head, pieces, block, blockStart, stores) && k < |pieces|
    ensures head + k < |chunks| && chunks[head + k].View? && chunks[head + k].store in stores
    ensures SealedAs(chunks[head + k], pieces[k], block, blockStart)
  {
    hide SealedAs;
    assert pieces[head + k - head] == pieces[k];
  }

  lemma SealedMore(chunks: seq<Slot>, head: nat, pieces: seq<seq<Byte>>, block: array?<Byte>, blockStart: nat,
                   stores: set<array<Byte>>, view: Slot, piece: seq<Byte>)
    requires Sealed(chunks, head, pieces, block, blockStart, stores)
    requires view.View? && SealedAs(view, piece, block, blockStart)
    ensures Sealed(chunks + [view], head, pieces + [piece], block, blockStart, stores + {view.store})
  {
    hide SealedAs;
  }

  lemma SealedShrinks(chunks: seq<Slot>, head: nat, pieces: seq<seq<Byte>>, block: array?<Byte>, blockStart: nat,
                      stores: set<array<Byte>>, view: Slot, piece: seq<Byte>)
    requires Sealed(chunks, head, pieces, block, blockStart, stores) && pieces != []
    requires view.View? && SealedAs(view, piece, block, blockStart)
    ensures Sealed(chunks[head := view], head, pieces[0 := piece], block, blockStart, stores + {view.store})
  {
    hide SealedAs;
  }

  lemma SealedDrops(chunks: seq<Slot>, head: nat, pieces: seq<seq<Byte>>, block: array?<Byte>, blockStart: nat,
                    stores: set<array<Byte>>)
    requires Sealed(chunks, head, pieces, block, blockStart, stores) && pieces != []
    ensures Sealed(chunks[head := Released], head + 1, pieces[1..], block, blockStart, stores)
  {
    hide SealedAs;
  }

  lemma SealedCompacts(chunks: seq<Slot>, head: nat, pieces: seq<seq<Byte>>, block: array?<Byte>, blockStart: nat,
                       stores: set<array<Byte>>)
    requires Sealed(chunks, head, pieces, block, blockStart, stores)
    ensures Sealed(chunks[head..], 0, pieces, block, blockStart, stores)
  {
    hide SealedAs;
  }

  // The open part of the block can only recede from the sealed views, and a
  // block none of them is a view of can take its place.
  lemma SealedStays(chunks: seq<Slot>, head: nat, pieces: seq<seq<Byte>>, block: array?<Byte>, blockStart: nat,
                    stores: set<array<Byte>>, next: array?<Byte>, nextStart: nat)
    requires Sealed(chunks, head, pieces, block, blockStart, stores)
    requires (next == block && blockStart <= nextStart) || next == null || next !in stores
    ensures Sealed(chunks, head, pieces, next, nextStart, stores)
    ensures next != null ==> Sealed(chunks, head, pieces, next, nextStart, stores + {next})
  {
  }

  // Writing behind the open region changes no sealed view.
  method WriteBehind(block: array<Byte>, offset: nat, bytes: seq<Byte>, ghost blockStart: nat,
                     ghost chunks: seq<Slot>, ghost head: nat, ghost pieces: seq<seq<Byte>>,
                         ghost stores: set<array<Byte>>)
    requires blockStart <= offset && offset + |bytes| <= block.Length
    requires Sealed(chunks, head, pieces, block, blockStart, stores)
    modifies block
    ensures Sealed(chunks, head, pieces, block, blockStart, stores)
    ensures block[blockStart..offset + |bytes|] == old(block[blockStart..offset]) + bytes
  {
    hide Aligned;
    WriteInto(block, offset, bytes);
    forall i | head <= i < |chunks|
      ensures SealedAs(chunks[i], pieces[i - head], block, blockStart)
    {
      var slot := chunks[i];
      assert old(SealedAs(slot, pieces[i - head], block, blockStart));
      assert slot.store[slot.start..slot.end] == old(slot.store[slot.start..slot.end]);
    }
    assert block[blockStart..offset + |bytes|] == block[blockStart..offset] + block[offset..offset + |bytes|];
  }

  // ----- What an append does to the text -----

  lemma BytesAligned(t: seq<CodeUnit>)
    ensures Aligned(Bytes(t))
  {
    EncodeStartsAligned(Scalars(t));
  }

  // What an accumulator holds decodes to the tail it is the encoding of.
  lemma HeldDecodes(a: Acc, max: nat, text: seq<CodeUnit>)
    requires Holds(a, max, text)
    ensures Decode(a.live) == Some(Tail(Scalars(text[..|text| - |a.pending|]), Room(a, max)))
  {
    hide Tail, Scalars, Decode, Encode;
    DecodeInvertsEncode(Tail(Scalars(text[..|text| - |a.pending|]), Room(a, max)));
  }

  class BoundedUtf8Text {
    const maxBytes: nat
    var chunks: seq<Slot>
    var head: nat
    var block: array?<Byte>
    var blockStart: nat
    var blockEnd: nat
    var nextBlockBytes: nat
    var totalBytes: nat
    var trimmedBytes: nat
    var pendingHighSurrogate: seq<CodeUnit>
    var pendingBytes: nat
    // What onTrim was called with so far, joined.
    var onTrim: seq<Byte>

    // The bytes of the sealed chunks from head on, and of the open region; and
    // every backing store in use.
    ghost var pieces: seq<seq<Byte>>
    ghost var open: seq<Byte>
    ghost var Stores: set<array<Byte>>
    // Everything appended since the last reset.
    ghost var given: seq<CodeUnit>

    ghost function State(): Acc
      reads this
    {
      Acc(Flat(pieces) + open, onTrim, pendingHighSurrogate)
    }

    ghost predicate Counted()
      reads this
    {
      && maxBytes >= 1
      && MIN_BLOCK_BYTES <= nextBlockBytes <= MAX_BLOCK_BYTES
      && totalBytes == |State().live|
      && trimmedBytes == |onTrim|
      && pendingBytes == |Bytes(pendingHighSurrogate)|
    }

    ghost predicate Stored()
      reads this, Stores
    {
      && Sealed(chunks, head, pieces, block, blockStart, Stores)
      && (block == null || block in Stores)
      && Opened(block, blockStart, blockEnd, open)
      && Counted()
    }

    ghost predicate Valid()
      reads this, Stores
    {
      && Stored()
      && totalBytes + pendingBytes <= maxBytes
      && Holds(State(), maxBytes, given)
    }

    constructor Bounded(maxBytes: nat)
      requires maxBytes >= 1
      ensures Valid() && Stores == {} && State() == EMPTY && given == [] && this.maxBytes == maxBytes
    {
      this.maxBytes := maxBytes;
      chunks, head, block, blockStart, blockEnd := [], 0, null, 0, 0;
      nextBlockBytes := MIN_BLOCK_BYTES;
      totalBytes, trimmedBytes, pendingHighSurrogate, pendingBytes := 0, 0, [], 0;
      onTrim, pieces, open := [], [], [];
      Stores, given := {}, [];
      new;
      NothingStored();
      EmptyHolds(maxBytes);
    }

    // The constructor of the source: a bound that is not a positive integer is
    // a RangeError.
    static method Create(maxBytes: int) returns (r: Result<BoundedUtf8Text>)
      ensures r.Ok? <==> maxBytes >= 1
      ensures r.Ok? ==> fresh(r.value) && r.value.Stores == {} && r.value.Valid()
      ensures r.Ok? ==> r.value.maxBytes == maxBytes && r.value.State() == EMPTY && r.value.given == []
    {
      if maxBytes < 1 { return RangeError; }
      var text := new BoundedUtf8Text.Bounded(maxBytes);
      return Ok(text);
    }

    // Ends the open region: its bytes become a sealed view of the block.
    method Seal()
      requires Stored()
      modifies this
      ensures Stored() && given == old(given) && Stores == old(Stores) && State() == old(State())
      ensures block == old(block) && blockEnd == old(blockEnd) && open == []
    {
      hide Flat, Bytes, Aligned, Sealed;
      NothingAligned();
      SealedStays(chunks, head, pieces, block, blockStart, Stores, block, blockEnd);
      if blockEnd > blockStart {
        var view := View(block, blockStart, blockEnd);
        SealedMore(chunks, head, pieces, block, blockEnd, Stores, view, open);
        assert Stores + {view.store} == Stores;
        FlatAppend(pieces, open);
        chunks := chunks + [view];
        pieces, open := pieces + [open], [];
      }
      blockStart := blockEnd;
    }

    // Room in the open block for a small append, in a new block if need be.
    method MakeRoom(bytes: nat)
      requires Stored() && bytes < SMALL_APPEND_BYTES
      modifies this
      ensures Stored() && given == old(given) && old(Stores) <= Stores && fresh(Stores - old(Stores))
          && State() == old(State())
      ensures block != null && block.Length - blockEnd >= bytes
    {
      hide Flat, Bytes, Aligned, Sealed;
      if block != null && block.Length - blockEnd >= bytes { return; }
      Seal();
      var cap := Min(MAX_BLOCK_BYTES, Max(MIN_BLOCK_BYTES, maxBytes));
      var room := new Byte[Max(bytes, Min(cap, nextBlockBytes))](_ => 0);
      SealedStays(chunks, head, pieces, block, blockStart, Stores, room, 0);
      block, blockStart, blockEnd := room, 0, 0;
      nextBlockBytes := Min(cap, nextBlockBytes * 2);
      Stores := Stores + {room};
    }

    // A small append is copied behind the open region.
    method WriteOpen(bytes: seq<Byte>)
      requires Stored() && block != null && block.Length - blockEnd >= |bytes| && Aligned(bytes)
      modifies this, block
      ensures Stored() && given == old(given) && Stores == old(Stores)
      ensures State() == old(State()).(live := old(State()).live + bytes)
    {
      hide Flat, Bytes, Aligned, Sealed;
      BothAligned(open, bytes);
      WriteBehind(block, blockEnd, bytes, blockStart, chunks, head, pieces, Stores);
      open := open + bytes;
      blockEnd := blockEnd + |bytes|;
      totalBytes := totalBytes + |bytes|;
    }

    // A large append is a chunk of its own, in a store of exactly its size.
    method PushChunk(bytes: seq<Byte>)
      requires Stored() && bytes != [] && Aligned(bytes)
      modifies this
      ensures Stored() && given == old(given) && old(Stores) <= Stores && fresh(Stores - old(Stores))
      ensures State() == old(State()).(live := old(State()).live + bytes)
    {
      hide Flat, Bytes, Aligned, Sealed;
      Seal();
      var chunk := new Byte[|bytes|](i requires 0 <= i < |bytes| => bytes[i]);
      assert chunk[0..|bytes|] == bytes;
      FlatAppend(pieces, bytes);
      SealedMore(chunks, head, pieces, block, blockStart, Stores, View(chunk, 0, |bytes|), bytes);
      chunks := chunks + [View(chunk, 0, |bytes|)];
      pieces := pieces + [bytes];
      totalBytes := totalBytes + |bytes|;
      Stores := Stores + {chunk};
    }

    // A full block with nothing live left in it is only memory.
    method DropSpentBlock()
      requires Stored()
      modifies `block, `blockStart, `blockEnd
      ensures Stored() && State() == old(State())
    {
      hide Flat, Bytes, Aligned, Sealed;
      if block == null || blockEnd != blockStart || blockEnd != block.Length { return; }
      SealedStays(chunks, head, pieces, block, blockStart, Stores, null, 0);
      block, blockStart, blockEnd := null, 0, 0;
    }

    // What #evicted records, with the call of onTrim before it.
    method Evict(gone: seq<Byte>)
      requires |gone| <= totalBytes
      modifies `totalBytes, `trimmedBytes, `onTrim
      ensures onTrim == old(onTrim) + gone
      ensures totalBytes == old(totalBytes) - |gone| && trimmedBytes == old(trimmedBytes) + |gone|
    {
      onTrim := onTrim + gone;
      totalBytes := totalBytes - |gone|;
      trimmedBytes := trimmedBytes + |gone|;
    }

    // The front chunk loses its first bytes; view is what stays of it.
    method ReplaceFront(start: nat, view: Slot)
      requires Stored() && pieces != [] && view.View? && 0 < start < |pieces[0]|
      requires SealedAs(view, pieces[0][start..], block, blockStart)
      requires start <= |State().live| && State().live[..start] == pieces[0][..start]
      requires Flat(pieces[0 := pieces[0][start..]]) + open == State().live[start..]
      modifies this
      ensures Stored() && given == old(given) && Stores == old(Stores) + {view.store}
          && pendingBytes == old(pendingBytes)
      ensures State() == Without(old(State()), start)
    {
      hide Flat, Bytes, Aligned, Sealed, SealedAs, Opened;
      SealedShrinks(chunks, head, pieces, block, blockStart, Stores, view, pieces[0][start..]);
      FrontBytes(start);
      Evict(chunks[head].store[chunks[head].start..chunks[head].start + start]);
      chunks := chunks[head := view];
      pieces := pieces[0 := pieces[0][start..]];
      Stores := Stores + {view.store};
    }

    lemma FrontBytes(start: nat)
      requires Stored() && pieces != [] && start <= |pieces[0]|
      ensures head < |chunks| && chunks[head].View?
          && chunks[head].start + start <= chunks[head].end <= chunks[head].store.Length
      ensures chunks[head].store[chunks[head].start..chunks[head].start + start] == pieces[0][..start]
      ensures chunks[head].store[chunks[head].start + start..chunks[head].end] == pieces[0][start..]
    {
      hide Flat, Bytes, Aligned, Sealed, Opened;
      SealedFront(chunks, head, pieces, block, blockStart, Stores, 0);
      var front := chunks[head];
      assert front.store[front.start..front.end][..start] == front.store[front.start..front.start + start];
      assert front.store[front.start..front.end][start..] == front.store[front.start + start..front.end];
    }

    // It is copied out where most of its store is evicted.
    method ShrinkFront(excess: nat, start: nat)
      requires Stored() && pieces != [] && 0 < start < |pieces[0]|
      requires excess <= |pieces[0]| && start == Boundary(pieces[0], excess)
      modifies this
      ensures Stored() && given == old(given) && old(Stores) <= Stores && fresh(Stores - old(Stores))
          && pendingBytes == old(pendingBytes)
      ensures EvictedBy(old(State()), State(), excess, start)
    {
      hide Flat, Bytes, Aligned, Boundary, EvictedBy, Sealed, Opened, Without;
      SealedFront(chunks, head, pieces, block, blockStart, Stores, 0);
      FrontShrinks(State(), pieces, open, excess, start);
      FrontBytes(start);
      var front := chunks[head];
      var view := Rest(View(front.store, front.start + start, front.end));
      ReplaceFront(start, view);
    }

    // The front chunk is evicted whole, and released at once.
    method DropFront(excess: nat)
      requires Stored() && pieces != []
      requires |pieces[0]| <= excess || Boundary(pieces[0], excess) == |pieces[0]|
      modifies this
      ensures Stored() && given == old(given) && Stores == old(Stores) && pendingBytes == old(pendingBytes)
      ensures EvictedBy(old(State()), State(), excess, |old(pieces[0])|)
    {
      hide Flat, Bytes, Aligned, Boundary, EvictedBy, Sealed;
      SealedFront(chunks, head, pieces, block, blockStart, Stores, 0);
      if |pieces| > 1 { SealedFront(chunks, head, pieces, block, blockStart, Stores, 1); }
      FrontDrops(State(), pieces, open, excess);
      SealedDrops(chunks, head, pieces, block, blockStart, Stores);
      var front := chunks[head];
      Evict(front.store[front.start..front.end]);
      chunks := chunks[head := Released];
      head := head + 1;
      pieces := pieces[1..];
    }

    // One turn of the loop in #trim on the oldest sealed chunk.
    method EvictFront(excess: nat) returns (ghost gone: nat)
      requires Stored() && pieces != [] && excess > 0
      modifies this
      ensures Stored() && given == old(given) && old(Stores) <= Stores && fresh(Stores - old(Stores))
          && pendingBytes == old(pendingBytes)
      ensures EvictedBy(old(State()), State(), excess, gone)
    {
      hide Flat, Bytes, Aligned, Boundary, EvictedBy, Sealed, Opened, Counted;
      SealedFront(chunks, head, pieces, block, blockStart, Stores, 0);
      var front := chunks[head];
      var start := front.end - front.start;
      if excess < start {
        start := NextBoundary(front.store, front.start, front.end, excess);
      }
      gone := start;
      if start < front.end - front.start {
        ShrinkFront(excess, start);
      } else {
        DropFront(excess);
      }
    }

    // The open region loses its first start bytes.
    method ShrinkOpen(start: nat)
      requires Stored() && 0 < start <= |open| && Aligned(open[start..]) && State().live == open
      modifies `blockStart, `open, `totalBytes, `trimmedBytes, `onTrim
      ensures Stored() && State() == Without(old(State()), start)
    {
      hide Flat, Bytes, Aligned, Sealed;
      SealedStays(chunks, head, pieces, block, blockStart, Stores, block, blockStart + start);
      assert |State().live| == |Flat(pieces)| + |open|;
      assert Flat(pieces) == [];
      assert block[blockStart..blockEnd][..start] == block[blockStart..blockStart + start];
      Evict(block[blockStart..blockStart + start]);
      blockStart := blockStart + start;
      open := open[start..];
      assert State().live == open;
    }

    // And on the open region, once no sealed chunk is left.
    method EvictOpen(excess: nat) returns (ghost gone: nat)
      requires Stored() && pieces == [] && blockEnd > blockStart && excess > 0
      modifies this
      ensures Stored() && given == old(given) && Stores == old(Stores) && pendingBytes == old(pendingBytes)
      ensures EvictedBy(old(State()), State(), excess, gone)
    {
      hide Flat, Bytes, Boundary, Aligned, EvictedBy, Sealed, Without;
      NothingStored();
      assert State().live == open;
      var start := blockEnd - blockStart;
      if excess < start {
        start := NextBoundary(block, blockStart, blockEnd, excess);
      }
      OpenShrinks(State(), open, excess, start);
      gone := start;
      ShrinkOpen(start);
    }

    lemma LiveFacts()
      requires Stored()
      ensures Aligned(State().live) && totalBytes == |State().live| && pendingBytes == |Bytes(pendingHighSurrogate)|
      ensures head + |pieces| == |chunks| && (pieces == [] && blockEnd <= blockStart ==> State().live == [])
    {
      hide Bytes, Sealed;
      assert head + |pieces| == |chunks| by { SlotsCount(); }
      if pieces != [] {
        SealedFront(chunks, head, pieces, block, blockStart, Stores, 0);
        assert State().live[0] == pieces[0][0];
      }
    }

    lemma SlotsCount()
      requires Stored()
      ensures head + |pieces| == |chunks|
    {
    }

    // One turn of the loop in #trim.
    method EvictSome(excess: nat) returns (ghost gone: nat)
      requires Stored() && excess > 0 && (head < |chunks| || blockEnd > blockStart)
      modifies this
      ensures Stored() && given == old(given) && old(Stores) <= Stores && fresh(Stores - old(Stores))
          && pendingBytes == old(pendingBytes)
      ensures EvictedBy(old(State()), State(), excess, gone)
    {
      hide Flat, Bytes, Aligned, EvictedBy, Stored;
      LiveFacts();
      if head < |chunks| {
        gone := EvictFront(excess);
      } else {
        gone := EvictOpen(excess);
      }
    }

    // The loop of #trim: evicts from the front until the rest fits.
    method EvictExcess()
      requires Stored()
      modifies this
      ensures Stored() && given == old(given) && old(Stores) <= Stores && fresh(Stores - old(Stores))
          && pendingBytes == old(pendingBytes)
      ensures State() == Evicted(old(State()), maxBytes)
    {
      hide Flat, Bytes, Aligned, Boundary, EvictedBy, EvictedSoFar, Evicted, Stored;
      ghost var was, room := State(), Room(State(), maxBytes);
      ghost var gone: nat := 0;
      LiveFacts();
      EvictedNone(was, room);
      while totalBytes + pendingBytes > maxBytes && (head < |chunks| || blockEnd > blockStart)
        invariant Stored() && given == old(given) && old(Stores) <= Stores && fresh(Stores - old(Stores))
            && pendingBytes == old(pendingBytes)
        invariant State().pending == was.pending && totalBytes == |State().live|
        invariant EvictedSoFar(was, State(), room, gone)
        decreases totalBytes
      {
        ghost var mid := State();
        ghost var more := EvictSome(totalBytes + pendingBytes - maxBytes);
        EvictedFurther(was, mid, State(), room, gone, more);
        LiveFacts();
        gone := gone + more;
      }
      LiveFacts();
      EvictedEnough(was, State(), maxBytes, gone);
    }

    // A carried surrogate that does not fit is handed to onTrim and dropped.
    method DropPending()
      requires Stored()
      modifies this
      ensures Stored() && given == old(given) && Stores == old(Stores) && totalBytes == old(totalBytes)
          && pendingBytes == 0
      ensures State() == Acc(old(State()).live, old(State()).trimmed + Bytes(old(State()).pending), [])
    {
      hide Flat, Bytes, Aligned, Sealed, Opened;
      NothingCarried();
      onTrim := onTrim + Bytes(pendingHighSurrogate);
      trimmedBytes := trimmedBytes + pendingBytes;
      pendingHighSurrogate := [];
      pendingBytes := 0;
    }

    // Released slots leave the list once they are most of it.
    method CompactSlots()
      requires Stored()
      modifies `chunks, `head
      ensures Stored() && State() == old(State())
    {
      hide Flat, Bytes, Aligned, Sealed, Opened;
      SlotsCount();
      SealedCompacts(chunks, head, pieces, block, blockStart, Stores);
      if head == |chunks| {
        assert chunks[head..] == [];
        if head > 0 { chunks := []; }
        head := 0;
      } else if head >= COMPACT_AFTER_SLOTS && head * 2 >= |chunks| {
        chunks := chunks[head..];
        head := 0;
      }
    }

    method Trim()
      requires Stored()
      modifies this
      ensures Stored() && given == old(given) && old(Stores) <= Stores && fresh(Stores - old(Stores))
      ensures State() == Trimmed(old(State()), maxBytes)
      ensures totalBytes + pendingBytes <= maxBytes
    {
      hide Flat, Bytes, Aligned, Boundary, Cut, Evicted, Stored;
      EvictedFits(State(), maxBytes);
      EvictExcess();
      CompactSlots();
      DropSpentBlock();
      LiveFacts();
      if totalBytes + pendingBytes > maxBytes { DropPending(); }
    }

    method SetPending(pending: seq<CodeUnit>)
      requires Stored()
      modifies `pendingHighSurrogate, `pendingBytes
      ensures Stored() && State() == old(State()).(pending := pending)
    {
      hide Flat, Bytes, Aligned, Sealed, Opened;
      pendingHighSurrogate := pending;
      pendingBytes := |Bytes(pending)|;
    }

    // Settled text goes behind everything retained.
    method Store(bytes: seq<Byte>)
      requires Stored() && Aligned(bytes)
      modifies this, Stores
      ensures Stored() && given == old(given) && old(Stores) <= Stores && fresh(Stores - old(Stores))
      ensures State() == old(State()).(live := old(State()).live + bytes)
    {
      hide Flat, Bytes, Aligned, Sealed, Opened, Counted;
      if |bytes| >= SMALL_APPEND_BYTES {
        PushChunk(bytes);
      } else if |bytes| > 0 {
        MakeRoom(|bytes|);
        WriteOpen(bytes);
      } else {
        assert State().live + bytes == State().live;
      }
    }

    /** Appends text, whatever it ends or begins in the middle of. */
    method Append(text: seq<CodeUnit>)
      requires Valid()
      modifies this, Stores
      ensures Valid() && old(Stores) <= Stores && fresh(Stores - old(Stores))
      ensures given == old(given) + text
      ensures State() == AppendTo(old(State()), maxBytes, text)
    {
      hide Flat, Bytes, Encode, EncodeScalar, Scalars, Aligned, Trimmed, Sealed, Opened, Holds;
      AppendHolds(State(), maxBytes, given, text);
      given := given + text;
      if text == [] { return; }
      var value := pendingHighSurrogate + text;
      SetPending(Carried(value));
      BytesAligned(Settled(value));
      Store(Bytes(Settled(value)));
      Trim();
    }

    // What reset assigns: first the stored form, then what is counted.
    method ClearStored()
      requires Counted()
      modifies this
      ensures chunks == [] && block == null && pieces == [] && open == [] && Stores == {}
      ensures Sealed(chunks, head, pieces, block, blockStart, Stores) && Opened(block, blockStart, blockEnd, open)
      ensures nextBlockBytes == MIN_BLOCK_BYTES
    {
      hide Flat, Bytes, Aligned, Sealed, Opened;
      SealedNone();
      chunks, head, pieces, open, Stores := [], 0, [], [], {};
      block, blockStart, blockEnd, nextBlockBytes := null, 0, 0, MIN_BLOCK_BYTES;
    }

    method Clear()
      requires Valid()
      modifies this
      ensures Stored() && Stores == {} && State() == EMPTY && totalBytes == pendingBytes == 0
    {
      hide Flat, Bytes, Aligned, Sealed, Opened, Holds;
      NothingStored();
      ClearStored();
      totalBytes, trimmedBytes, onTrim := 0, 0, [];
      pendingHighSurrogate, pendingBytes := [], 0;
    }

    method Reset(text: seq<CodeUnit>)
      requires Valid()
      modifies this, Stores
      ensures Valid() && fresh(Stores)
      ensures given == text && State() == AppendTo(EMPTY, maxBytes, text)
    {
      hide Flat, AppendTo, Bytes, EncodeScalar, Sealed, Opened, Holds;
      EmptyHolds(maxBytes);
      Clear();
      given := [];
      Append(text);
    }

    // The sealed bytes, then room for size bytes in all.
    method CopySealed(size: nat) returns (merged: array<Byte>)
      requires Stored() && |Flat(pieces)| <= size
      ensures fresh(merged) && merged.Length == size
      ensures merged[..|Flat(pieces)|] == Flat(pieces)
    {
      hide Flat, Bytes, Aligned, Sealed, Opened;
      assert pieces[..0] == [] && pieces[..|pieces|] == pieces;
      NothingStored();
      SlotsCount();
      merged := new Byte[size](_ => 0);
      var offset := 0;
      for index := head to |chunks|
        invariant offset == |Flat(pieces[..index - head])| <= |Flat(pieces)|
        invariant merged[..offset] == Flat(pieces[..index - head])
      {
        SealedFront(chunks, head, pieces, block, blockStart, Stores, index - head);
        FlatTake(pieces, index - head);
        var chunk := chunks[index];
        CopyInto(chunk.store, chunk.start, chunk.end, merged, offset);
        offset := offset + (chunk.end - chunk.start);
      }
    }

    // A copy of everything retained, in one store.
    method Copied() returns (merged: array<Byte>)
      requires Stored()
      ensures fresh(merged) && merged[..] == State().live
    {
      hide Flat, Bytes, Aligned, Sealed;
      merged := CopySealed(totalBytes);
      if block != null {
        CopyInto(block, blockStart, blockEnd, merged, totalBytes - (blockEnd - blockStart));
      }
      assert merged[..totalBytes] == merged[..];
    }

    // One chunk takes the place of every other one and of the open region.
    method Replace(merged: array<Byte>)
      requires Stored() && merged !in Stores && merged.Length > 0 && merged[..] == State().live
      modifies `chunks, `head, `pieces, `open, `blockStart, `Stores
      ensures Stored() && Stores == old(Stores) + {merged} && State() == old(State())
      ensures |chunks| == 1 && head == 0 && open == []
    {
      hide Flat, Bytes, Aligned, Sealed;
      LiveFacts();
      NothingAligned();
      FlatOne(merged[..]);
      SealedOne(merged, block, blockEnd, Stores + {merged});
      chunks, head := [View(merged, 0, merged.Length)], 0;
      pieces, open := [merged[..]], [];
      blockStart := blockEnd;
      Stores := Stores + {merged};
    }

    // The sealed chunks and the open region collapse into one chunk.
    method Merge()
      requires Stored() && head < |chunks|
      modifies this
      ensures Stored() && given == old(given) && old(Stores) <= Stores && fresh(Stores - old(Stores))
          && State() == old(State())
      ensures |chunks| == 1 && head == 0 && open == []
      ensures pendingBytes == old(pendingBytes) && totalBytes == old(totalBytes)
    {
      hide Flat, Bytes, Aligned, Sealed, Opened, Counted;
      SlotsCount();
      SealedFront(chunks, head, pieces, block, blockStart, Stores, 0);
      FlatTake(pieces, 0);
      var merged := Copied();
      Replace(merged);
    }

    // Decodes the only chunk, when nothing is open.
    method ReadChunk() returns (text: seq<Scalar>)
      requires Stored() && head + 1 == |chunks| && open == [] && Decode(State().live).Some?
      ensures text == Decode(State().live).value
    {
      hide Flat, Bytes, Aligned, Decode, Sealed, Opened;
      SlotsCount();
      SealedFront(chunks, head, pieces, block, blockStart, Stores, 0);
      FlatOne(pieces[0]);
      assert pieces == [pieces[0]];
      assert State().live == pieces[0];
      text := Decode(chunks[head].store[chunks[head].start..chunks[head].end]).value;
    }

    // Decodes the open region, when nothing is sealed.
    method ReadOpen() returns (text: seq<Scalar>)
      requires Stored() && head == |chunks| && Decode(State().live).Some?
      ensures text == Decode(State().live).value
    {
      hide Flat, Bytes, Aligned, Sealed;
      NothingStored();
      SlotsCount();
      assert State().live == open;
      text := if block != null && blockEnd > blockStart then Decode(block[blockStart..blockEnd]).value else [];
    }

    /** The retained text: of all that was appended since the last reset, less
        a surrogate it ends with, the longest run of last characters that fits.
        Reading may collapse the chunks; it changes nothing an append or a read
        can tell. */
    method ToString() returns (text: seq<Scalar>)
      requires Valid()
      modifies this
      ensures Valid() && old(Stores) <= Stores && fresh(Stores - old(Stores))
      ensures State() == old(State()) && given == old(given)
      ensures text == Tail(Scalars(given[..|given| - |State().pending|]), maxBytes - |Bytes(State().pending)|)
    {
      hide Flat, Bytes, Decode, Encode, EncodeScalar, Scalars, Tail, Sealed, Opened, Aligned, Counted;
      HeldDecodes(State(), maxBytes, given);
      SlotsCount();
      if head == |chunks| {
        text := ReadOpen();
      } else {
        if |chunks| - head != 1 || blockEnd != blockStart {
          Merge();
          DropSpentBlock();
        } else {
          NothingOpen();
        }
        text := ReadChunk();
      }
    }

    lemma NothingOpen()
      requires Stored() && blockStart == blockEnd
      ensures open == []
    {
    }

    /** What every sealed chunk keeps allocated. */
    lemma Pinned(k: nat)
      requires Valid() && head <= k < |chunks|
      ensures chunks[k].View?
      ensures chunks[k].store.Length <= Max(MAX_BLOCK_BYTES, 2 * (chunks[k].end - chunks[k].start))
      ensures trimmedBytes == |onTrim| && totalBytes == |State().live| && totalBytes + pendingBytes <= maxBytes
    {
    }
  }

  lemma SealedNone()
    ensures Sealed([], 0, [], null, 0, {}) && Opened(null, 0, 0, [])
  {
  }

  lemma SealedOne(store: array<Byte>, block: array?<Byte>, blockStart: nat, stores: set<array<Byte>>)
    requires store in stores && store.Length > 0 && store != block && Aligned(store[..])
    ensures Sealed([View(store, 0, store.Length)], 0, [store[..]], block, blockStart, stores)
  {
    assert store[0..store.Length] == store[..];
  }

  lemma NothingAligned()
    ensures Aligned([])
  {
  }

  lemma BothAligned(a: seq<Byte>, b: seq<Byte>)
    requires Aligned(a) && Aligned(b)
    ensures Aligned(a + b)
  {
  }
}

/** Keyset paging of the attention view's two lists (src/attention.js:41-60,
    src/gateway-service.js:3042-3080). */
module Attention {
  import opened Wrappers

  /** When an item was raised or became terminal, and its id. */
  datatype Key = Key(at: string, id: string)

  datatype Item = Item(key: Key, body: nat)

  // ----- The order of keys -----

  // How JavaScript compares strings: by their first difference.
  predicate StringLess(a: string, b: string) {
    b != "" && (a == "" || a[0] < b[0] || (a[0] == b[0] && StringLess(a[1..], b[1..])))
  }

  /** -1, 0 or 1. */
  function CompareKeys(left: Key, right: Key): int {
    if left.at != right.at then (if StringLess(left.at, right.at) then -1 else 1)
    else if left.id != right.id then (if StringLess(left.id, right.id) then -1 else 1)
    else 0
  }

  predicate Less(a: Key, b: Key) { CompareKeys(a, b) < 0 }

  lemma {:induction false} StringsAreOrdered(a: string, b: string)
    ensures !(StringLess(a, b) && StringLess(b, a)) && !StringLess(a, a)
    ensures a != b ==> StringLess(a, b) || StringLess(b, a)
  {
    if a != "" && b != "" {
      StringsAreOrdered(a[1..], b[1..]);
      assert a == [a[0]] + a[1..] && b == [b[0]] + b[1..];
    }
    if a != "" { StringsAreOrdered(a[1..], a[1..]); }
  }

  lemma {:induction false} StringsChain(a: string, b: string, c: string)
    requires StringLess(a, b) && StringLess(b, c)
    ensures StringLess(a, c)
  {
    if a != "" && a[0] == b[0] && b[0] == c[0] { StringsChain(a[1..], b[1..], c[1..]); }
  }

  /** compareKeys is a total order: antisymmetric, transitive, zero on equals alone. */
  lemma KeysAreOrdered(a: Key, b: Key, c: Key)
    ensures CompareKeys(a, b) == -CompareKeys(b, a)
    ensures CompareKeys(a, b) == 0 <==> a == b
    ensures CompareKeys(a, b) <= 0 && CompareKeys(b, c) <= 0 ==> CompareKeys(a, c) <= 0
    ensures (Less(a, b) && CompareKeys(b, c) <= 0) || (CompareKeys(a, b) <= 0 && Less(b, c)) ==> Less(a, c)
  {
    StringsAreOrdered(a.at, b.at);
    StringsAreOrdered(a.id, b.id);
    StringsAreOrdered(b.at, c.at);
    StringsAreOrdered(b.id, c.id);
    StringsAreOrdered(a.at, c.at);
    StringsAreOrdered(a.id, c.id);
    if StringLess(a.at, b.at) && StringLess(b.at, c.at) { StringsChain(a.at, b.at, c.at); }
    if StringLess(a.id, b.id) && StringLess(b.id, c.id) { StringsChain(a.id, b.id, c.id); }
  }

  // ----- One page -----

  predicate IsAfter(key: Key, position: Option<Key>) { position.None? || CompareKeys(key, position.value) > 0 }

  function After(items: seq<Item>, position: Option<Key>): seq<Item> {
    if items == [] then []
    else (if IsAfter(items[0].key, position) then [items[0]] else []) + After(items[1..], position)
  }

  datatype Page = Page(items: seq<Item>, more: bool, position: Option<Key>)

  function PageAfter(items: seq<Item>, position: Option<Key>, limit: nat): Page {
    var after := After(items, position);
    var page := if |after| <= limit then after else after[..limit];
    Page(page, |after| > limit, if page != [] then Some(page[|page| - 1].key) else position)
  }

  ghost predicate Ascending(items: seq<Item>) {
    forall i, j | 0 <= i < j < |items| :: Less(items[i].key, items[j].key)
  }

  // ----- Following the cursors -----

  /** What one call finds, and the most it may return of each list. */
  datatype Round = Round(requests: seq<Item>, updates: seq<Item>, limit: nat)

  datatype Paging = Paging(
    needsMain: Option<Key>, updates: Option<Key>, gotRequests: seq<Item>, gotUpdates: seq<Item>, ended: bool)

  function Begin(): Paging { Paging(None, None, [], [], false) }

  /** One call with the cursor of the one before; without a next cursor there is no
      further one. */
  function Call(p: Paging, r: Round): Paging {
    if p.ended then p
    else
      var requests, updates := PageAfter(r.requests, p.needsMain, r.limit), PageAfter(r.updates, p.updates, r.limit);
      Paging(requests.position, updates.position, p.gotRequests + requests.items, p.gotUpdates + updates.items,
             !(requests.more || updates.more))
  }

  function Follow(rounds: seq<Round>): Paging {
    if rounds == [] then Begin() else Call(Follow(rounds[..|rounds| - 1]), rounds[|rounds| - 1])
  }

  // ----- One of the two lists -----

  datatype Which = NeedsMain | Updates

  function Items(which: Which, r: Round): seq<Item> { if which.NeedsMain? then r.requests else r.updates }

  function Position(which: Which, p: Paging): Option<Key> { if which.NeedsMain? then p.needsMain else p.updates }

  function Got(which: Which, p: Paging): seq<Item> { if which.NeedsMain? then p.gotRequests else p.gotUpdates }

  /** What every call finds: both lists sorted, and room for an item. */
  ghost predicate Listed(rounds: seq<Round>) {
    forall r | r in rounds :: r.limit >= 1 && Ascending(r.requests) && Ascending(r.updates)
  }

  /** The position is the key of the last item got. */
  ghost predicate Ordered(got: seq<Item>, position: Option<Key>) {
    Ascending(got) && position == if got == [] then None else Some(got[|got| - 1].key)
  }

  ghost predicate Found(which: Which, rounds: seq<Round>, x: Item) {
    exists n :: 0 <= n < |rounds| && x in Items(which, rounds[n])
  }

  /** x is in the list from round n on. */
  ghost predicate Stays(which: Which, rounds: seq<Round>, n: nat, x: Item) {
    forall m | n <= m < |rounds| :: x in Items(which, rounds[m])
  }

  lemma {:induction false} AfterHolds(items: seq<Item>, position: Option<Key>, x: Item)
    ensures x in After(items, position) <==> x in items && IsAfter(x.key, position)
  {
    if items != [] {
      AfterHolds(items[1..], position, x);
      hide IsAfter;
      assert items == [items[0]] + items[1..];
    }
  }

  lemma AscendingParts(items: seq<Item>)
    requires Ascending(items) && items != []
    ensures Ascending(items[1..]) && forall y | y in items[1..] :: Less(items[0].key, y.key)
  {
    hide Less;
  }

  lemma AscendingJoins(x: Item, rest: seq<Item>)
    requires Ascending(rest) && forall y | y in rest :: Less(x.key, y.key)
    ensures Ascending([x] + rest)
  {
    hide Less;
    var items := [x] + rest;
    forall i, j | 0 <= i < j < |items| ensures Less(items[i].key, items[j].key) {
      assert items[j] == rest[j - 1];
      if i > 0 { assert items[i] == rest[i - 1]; }
    }
  }

  lemma {:induction false} AfterAscends(items: seq<Item>, position: Option<Key>)
    requires Ascending(items)
    ensures Ascending(After(items, position))
  {
    hide Ascending, Less, IsAfter;
    if items == [] {
      assert After(items, position) == items;
    } else {
      AscendingParts(items);
      AfterAscends(items[1..], position);
      var rest := After(items[1..], position);
      assert [] + rest == rest;
      forall y | y in rest ensures y in items[1..] { AfterHolds(items[1..], position, y); }
      AscendingJoins(items[0], rest);
    }
  }

  lemma AfterIs(items: seq<Item>, position: Option<Key>)
    requires Ascending(items)
    ensures forall x :: x in After(items, position) <==> x in items && IsAfter(x.key, position)
    ensures Ascending(After(items, position))
  {
    forall x ensures x in After(items, position) <==> x in items && IsAfter(x.key, position) {
      AfterHolds(items, position, x);
    }
    AfterAscends(items, position);
  }

  // What does not fit on the page lies past it.
  lemma BeyondPage(after: seq<Item>, limit: nat, x: Item)
    requires Ascending(after) && 1 <= limit < |after| && x in after && x !in after[..limit]
    ensures IsAfter(x.key, Some(after[limit - 1].key))
  {
    hide CompareKeys;
    var i :| 0 <= i < |after| && after[i] == x;
    assert forall j | 0 <= j < limit :: after[..limit][j] == after[j];
    assert Less(after[limit - 1].key, after[i].key);
    KeysAreOrdered(after[limit - 1].key, after[i].key, after[i].key);
  }

  /** A page goes on where the last one stopped, in order and without a gap. */
  lemma PageIs(items: seq<Item>, position: Option<Key>, limit: nat)
    requires Ascending(items) && limit >= 1
    ensures var page := PageAfter(items, position, limit);
            && Ascending(page.items) && |page.items| <= limit
            && (forall x | x in page.items :: x in items && IsAfter(x.key, position))
            && (forall x | x in items && IsAfter(x.key, position) ::
                  x in page.items || (page.more && IsAfter(x.key, page.position)))
            && (page.items == [] ==> page.position == position && !page.more)
            && (page.items != [] ==> page.position == Some(page.items[|page.items| - 1].key))
  {
    hide After, Less, IsAfter;
    AfterIs(items, position);
    var after := After(items, position);
    if |after| > limit {
      forall x | x in after && x !in after[..limit] ensures IsAfter(x.key, Some(after[limit - 1].key)) {
        BeyondPage(after, limit, x);
      }
    }
  }

  // A page more goes behind what was got.
  lemma PageMore(items: seq<Item>, got: seq<Item>, position: Option<Key>, limit: nat)
    requires Ascending(items) && limit >= 1 && Ordered(got, position)
    ensures var page := PageAfter(items, position, limit); Ordered(got + page.items, page.position)
  {
    hide PageAfter, CompareKeys;
    var page := PageAfter(items, position, limit);
    PageIs(items, position, limit);
    var more := got + page.items;
    forall i, j | 0 <= i < j < |more| ensures Less(more[i].key, more[j].key) {
      if i < |got| <= j {
        assert page.items[j - |got|] == more[j] && IsAfter(more[j].key, position);
        GotBelow(got, position, i);
        KeysAreOrdered(more[i].key, position.value, more[j].key);
        KeysAreOrdered(position.value, more[j].key, more[j].key);
      }
    }
  }

  lemma GotBelow(got: seq<Item>, position: Option<Key>, i: nat)
    requires Ordered(got, position) && i < |got|
    ensures position.Some? && CompareKeys(got[i].key, position.value) <= 0
  {
    KeysAreOrdered(got[i].key, got[i].key, got[i].key);
    assert i < |got| - 1 ==> Less(got[i].key, got[|got| - 1].key);
  }

  // A page never takes the position back.
  lemma PassedStays(items: seq<Item>, position: Option<Key>, limit: nat, x: Item)
    requires Ascending(items) && limit >= 1 && !IsAfter(x.key, position)
    ensures !IsAfter(x.key, PageAfter(items, position, limit).position)
  {
    hide PageAfter;
    var page := PageAfter(items, position, limit);
    PageIs(items, position, limit);
    if page.items != [] {
      var last := page.items[|page.items| - 1];
      assert last in page.items;
      KeysAreOrdered(x.key, position.value, last.key);
      KeysAreOrdered(position.value, last.key, last.key);
    }
  }

  /** Of the items there, a page takes exactly those that its position passes. */
  lemma PageTakes(items: seq<Item>, position: Option<Key>, limit: nat, x: Item)
    requires Ascending(items) && limit >= 1 && x in items
    ensures var page := PageAfter(items, position, limit);
            && (x in page.items <==> IsAfter(x.key, position) && !IsAfter(x.key, page.position))
            && (IsAfter(x.key, page.position) ==> IsAfter(x.key, position))
            && (IsAfter(x.key, page.position) ==> page.more)
  {
    hide PageAfter, CompareKeys;
    var page := PageAfter(items, position, limit);
    PageIs(items, position, limit);
    if !IsAfter(x.key, position) {
      PassedStays(items, position, limit, x);
    } else if x in page.items {
      var last := page.items[|page.items| - 1];
      var i :| 0 <= i < |page.items| && page.items[i] == x;
      KeysAreOrdered(x.key, last.key, last.key);
      assert i < |page.items| - 1 ==> Less(x.key, last.key);
    }
  }

  // ----- Both lists -----

  lemma ListedBefore(rounds: seq<Round>, which: Which)
    requires Listed(rounds) && rounds != []
    ensures Listed(rounds[..|rounds| - 1]) && rounds[|rounds| - 1].limit >= 1
    ensures Ascending(Items(which, rounds[|rounds| - 1]))
  {
    assert rounds[|rounds| - 1] in rounds;
  }

  lemma CallSide(p: Paging, r: Round, which: Which)
    requires !p.ended
    ensures var page := PageAfter(Items(which, r), Position(which, p), r.limit);
            && Position(which, Call(p, r)) == page.position && Got(which, Call(p, r)) == Got(which, p) + page.items
            && (Call(p, r).ended ==> !page.more)
  {}

  // What has ended stays so.
  lemma NotEndedBefore(rounds: seq<Round>)
    requires !Follow(rounds).ended
    ensures rounds != [] ==> !Follow(rounds[..|rounds| - 1]).ended
  {}

  lemma {:induction false} FollowOrdered(rounds: seq<Round>, which: Which)
    requires Listed(rounds) && (rounds != [] ==> !Follow(rounds[..|rounds| - 1]).ended)
    ensures Ordered(Got(which, Follow(rounds)), Position(which, Follow(rounds)))
    ensures forall x | x in Got(which, Follow(rounds)) :: Found(which, rounds, x)
  {
    hide Call, PageAfter, Listed, Ordered, Items;
    if rounds == [] {
      assert Ordered([], None) by { NothingOrdered(); }
    } else {
      var before, last := rounds[..|rounds| - 1], rounds[|rounds| - 1];
      ListedBefore(rounds, which);
      NotEndedBefore(before);
      FollowOrdered(before, which);
      var p := Follow(before);
      CallSide(p, last, which);
      PageMore(Items(which, last), Got(which, p), Position(which, p), last.limit);
      PageIs(Items(which, last), Position(which, p), last.limit);
      forall x | x in Got(which, Follow(rounds)) ensures Found(which, rounds, x) {
        if x in Got(which, p) {
          var n :| 0 <= n < |before| && x in Items(which, before[n]);
          assert rounds[n] == before[n];
        } else {
          assert x in Items(which, rounds[|rounds| - 1]);
        }
      }
    }
  }

  lemma NothingOrdered()
    ensures Ordered([], None)
  {}

  // From when an item is there to stay, it is got exactly once the position passes it.
  lemma {:induction false} FollowTakes(rounds: seq<Round>, which: Which, n: nat, x: Item)
    requires Listed(rounds) && (rounds != [] ==> !Follow(rounds[..|rounds| - 1]).ended)
    requires n <= |rounds| && Stays(which, rounds, n, x)
    ensures var first, now := Follow(rounds[..n]), Follow(rounds);
            && (IsAfter(x.key, Position(which, now)) ==> IsAfter(x.key, Position(which, first)))
            && (x in Got(which, now) <==>
                  x in Got(which, first)
                  || (IsAfter(x.key, Position(which, first)) && !IsAfter(x.key, Position(which, now))))
    decreases |rounds|
  {
    hide Call, PageAfter, Listed, IsAfter, Items;
    if n == |rounds| {
      assert rounds[..n] == rounds;
    } else {
      var before, last := rounds[..|rounds| - 1], rounds[|rounds| - 1];
      ListedBefore(rounds, which);
      NotEndedBefore(before);
      assert before[..n] == rounds[..n];
      assert forall m | n <= m < |before| :: before[m] == rounds[m];
      FollowTakes(before, which, n, x);
      CallSide(Follow(before), last, which);
      PageTakes(Items(which, last), Position(which, Follow(before)), last.limit, x);
    }
  }

  /** However the lists change between the calls: what is got of each comes in order,
      none twice, and was found by some call. And when there is no further cursor, an
      item that was there from some call to the last has been got if and only if it had
      been got before or lay past the position when it came: what is missed is exactly
      what arrived at or below the position. */
  lemma EachOnceInOrder(rounds: seq<Round>, which: Which)
    requires Listed(rounds) && rounds != [] && !Follow(rounds[..|rounds| - 1]).ended
    ensures var p := Follow(rounds);
            && Ascending(Got(which, p)) && (forall x | x in Got(which, p) :: Found(which, rounds, x))
            && (p.ended ==>
                  forall n, x | 0 <= n < |rounds| && Stays(which, rounds, n, x) ::
                    x in Got(which, p) <==>
                      x in Got(which, Follow(rounds[..n])) || IsAfter(x.key, Position(which, Follow(rounds[..n]))))
  {
    hide Call, PageAfter, Listed, IsAfter, Items, Found, Less;
    var p, before, last := Follow(rounds), rounds[..|rounds| - 1], rounds[|rounds| - 1];
    FollowOrdered(rounds, which);
    ListedBefore(rounds, which);
    if p.ended {
      forall n, x | 0 <= n < |rounds| && Stays(which, rounds, n, x)
        ensures x in Got(which, p) <==>
                  x in Got(which, Follow(rounds[..n])) || IsAfter(x.key, Position(which, Follow(rounds[..n])))
      {
        FollowTakes(rounds, which, n, x);
        CallSide(Follow(before), last, which);
        PageTakes(Items(which, last), Position(which, Follow(before)), last.limit, x);
      }
    }
  }

  // ----- Lists that gain only larger keys -----

  // Past every key the list held before round n.
  ghost predicate SortsLast(which: Which, rounds: seq<Round>, n: nat, x: Item)
    requires n <= |rounds|
  {
    forall m, y | 0 <= m < n && y in Items(which, rounds[m]) :: Less(y.key, x.key)
  }

  ghost predicate Comes(which: Which, rounds: seq<Round>, n: nat, x: Item)
    requires n < |rounds|
  {
    (n > 0 && x in Items(which, rounds[n - 1])) || SortsLast(which, rounds, n, x)
  }

  /** A list loses items as it likes and gains only what sorts after every key it ever
      held. */
  ghost predicate Grows(which: Which, rounds: seq<Round>) {
    forall n, x {:trigger Comes(which, rounds, n, x)} | 0 <= n < |rounds| && x in Items(which, rounds[n]) ::
      Comes(which, rounds, n, x)
  }

  // When an item in the last round came.
  lemma Arrival(which: Which, rounds: seq<Round>, x: Item) returns (n: nat)
    requires rounds != [] && x in Items(which, rounds[|rounds| - 1])
    ensures n < |rounds| && Stays(which, rounds, n, x) && (n == 0 || x !in Items(which, rounds[n - 1]))
  {
    n := |rounds| - 1;
    while n > 0 && x in Items(which, rounds[n - 1])
      invariant n < |rounds| && Stays(which, rounds, n, x)
    {
      n := n - 1;
    }
  }

  // What comes past every key before it comes past the position.
  lemma ComesAfter(which: Which, rounds: seq<Round>, n: nat, x: Item)
    requires Listed(rounds) && n < |rounds| && SortsLast(which, rounds, n, x)
    requires n > 0 ==> !Follow(rounds[..n][..n - 1]).ended
    ensures IsAfter(x.key, Position(which, Follow(rounds[..n])))
  {
    hide Follow, CompareKeys, Items, Got, Position;
    var before := rounds[..n];
    assert Listed(before) by { ListedTo(rounds, n); }
    FollowOrdered(before, which);
    var p := Follow(before);
    if Got(which, p) != [] {
      var last := Got(which, p)[|Got(which, p)| - 1];
      assert last in Got(which, p);
      var m :| 0 <= m < |before| && last in Items(which, before[m]);
      assert rounds[m] == before[m];
      assert Less(last.key, x.key);
      KeysAreOrdered(last.key, x.key, x.key);
    }
  }

  lemma ListedTo(rounds: seq<Round>, n: nat)
    requires Listed(rounds) && n <= |rounds|
    ensures Listed(rounds[..n])
  {}

  lemma {:induction false} NotEndedAt(rounds: seq<Round>, n: nat)
    requires !Follow(rounds).ended && n <= |rounds|
    ensures !Follow(rounds[..n]).ended
    decreases |rounds|
  {
    if n == |rounds| {
      assert rounds[..n] == rounds;
    } else {
      NotEndedBefore(rounds);
      NotEndedAt(rounds[..|rounds| - 1], n);
      assert rounds[..|rounds| - 1][..n] == rounds[..n];
    }
  }

  /** A list that gains only larger keys misses nothing: with no further cursor every
      item still there has been got. */
  lemma NothingMissed(rounds: seq<Round>, which: Which)
    requires Listed(rounds) && rounds != [] && !Follow(rounds[..|rounds| - 1]).ended && Follow(rounds).ended
    requires Grows(which, rounds)
    ensures forall x | x in Items(which, rounds[|rounds| - 1]) :: x in Got(which, Follow(rounds))
  {
    hide Follow, Listed, Items, Got, Position, IsAfter, SortsLast, Stays;
    EachOnceInOrder(rounds, which);
    forall x | x in Items(which, rounds[|rounds| - 1]) ensures x in Got(which, Follow(rounds)) {
      var n := Arrival(which, rounds, x);
      assert x in Items(which, rounds[n]) by { StaysThere(which, rounds, n, x); }
      assert Comes(which, rounds, n, x);
      if n == 0 {
        FirstIsAfter(which, x);
        assert rounds[..0] == [];
      } else {
        NotEndedAt(rounds[..|rounds| - 1], n - 1);
        assert rounds[..|rounds| - 1][..n - 1] == rounds[..n][..n - 1];
        ComesAfter(which, rounds, n, x);
      }
    }
  }

  lemma StaysThere(which: Which, rounds: seq<Round>, n: nat, x: Item)
    requires n < |rounds| && Stays(which, rounds, n, x)
    ensures x in Items(which, rounds[n])
  {}

  lemma FirstIsAfter(which: Which, x: Item)
    ensures IsAfter(x.key, Position(which, Follow([])))
  {}

  lemma ShortKeys(at: string)
    ensures Less(Key(at, "a"), Key(at, "b")) && Less(Key(at, "b"), Key(at, "c")) && Less(Key(at, "a"), Key(at, "c"))
  {
    assert StringLess("a", "b") && StringLess("b", "c") && StringLess("a", "c");
  }

  lemma FirstPage(b: Item, c: Item)
    ensures PageAfter([b, c], None, 1) == Page([b], true, Some(b.key))
  {
    AfterFrom([b, c], 0, None);
    assert [b, c][0..] == [b, c] && [b, c][..1] == [b];
    hide After;
  }

  lemma SecondPage(a: Item, b: Item, c: Item)
    requires !IsAfter(a.key, Some(b.key)) && !IsAfter(b.key, Some(b.key)) && IsAfter(c.key, Some(b.key))
    ensures PageAfter([a, b, c], Some(b.key), 1) == Page([c], false, Some(c.key))
  {
    hide IsAfter;
    AfterFrom([a, b, c], 2, Some(b.key));
    assert [a, b, c][2..] == [c];
    hide After;
  }

  lemma NoUpdates()
    ensures PageAfter([], None, 1) == Page([], false, None)
  {}

  /** The code does not see to that: ids are random, so of two requests of one
      millisecond the later can sort first, and then paging misses it. */
  lemma SameMillisecondIsMissed(at: string)
    ensures var a, b, c := Item(Key(at, "a"), 0), Item(Key(at, "b"), 1), Item(Key(at, "c"), 2);
            var rounds := [Round([b, c], [], 1), Round([a, b, c], [], 1)];
            Listed(rounds) && Follow(rounds).ended && Follow(rounds).gotRequests == [b, c]
  {
    hide CompareKeys, StringLess, PageAfter, Follow;
    ShortKeys(at);
    var a, b, c := Item(Key(at, "a"), 0), Item(Key(at, "b"), 1), Item(Key(at, "c"), 2);
    var first, second := Round([b, c], [], 1), Round([a, b, c], [], 1);
    KeysAreOrdered(a.key, b.key, c.key);
    KeysAreOrdered(b.key, c.key, c.key);
    KeysAreOrdered(b.key, b.key, b.key);
    FirstPage(b, c);
    SecondPage(a, b, c);
    NoUpdates();
    FollowTwo(first, second);
    assert Call(Begin(), first) == Paging(Some(b.key), None, [] + [b], [] + [], false);
    assert [] + [b] + [c] == [b, c];
  }

  lemma FollowTwo(first: Round, second: Round)
    ensures Follow([first, second]) == Call(Call(Begin(), first), second)
  {
    hide Call;
    assert [first, second][..1] == [first] && [first][..0] == [];
    assert Follow([first]) == Call(Follow([]), first);
  }

  // ----- Lists that stay as they are -----

  function PositionAt(items: seq<Item>, k: nat): Option<Key>
    requires k <= |items|
  {
    if k == 0 then None else Some(items[k - 1].key)
  }

  // Past the first k of a list lie the others.
  lemma {:induction false} AfterFrom(items: seq<Item>, k: nat, position: Option<Key>)
    requires k <= |items| && (forall i | 0 <= i < k :: !IsAfter(items[i].key, position))
    requires forall i | k <= i < |items| :: IsAfter(items[i].key, position)
    ensures After(items, position) == items[k..]
  {
    if items != [] {
      AfterFrom(items[1..], if k == 0 then 0 else k - 1, position);
      assert [] + items[k..] == items[k..];
    }
  }

  lemma PositionParts(items: seq<Item>, k: nat)
    requires Ascending(items) && k <= |items|
    ensures After(items, PositionAt(items, k)) == items[k..]
  {
    var position := PositionAt(items, k);
    if k > 0 {
      forall i | 0 <= i < |items| ensures IsAfter(items[i].key, position) == (i >= k) {
        KeysAreOrdered(items[i].key, items[k - 1].key, items[i].key);
        assert i < k - 1 ==> Less(items[i].key, items[k - 1].key);
        assert i > k - 1 ==> Less(items[k - 1].key, items[i].key);
      }
    }
    AfterFrom(items, k, position);
  }

  lemma PageAt(items: seq<Item>, k: nat, limit: nat)
    requires Ascending(items) && k <= |items| && limit >= 1
    ensures var to := if k + limit < |items| then k + limit else |items|;
            PageAfter(items, PositionAt(items, k), limit) == Page(items[k..to], to < |items|, PositionAt(items, to))
  {
    hide After, Ascending;
    PositionParts(items, k);
  }

  function Calls(r: Round, n: nat): (rounds: seq<Round>)
    ensures |rounds| == n
  {
    seq(n, _ => r)
  }

  // Where paging stands once so many of each list were asked for.
  ghost predicate StandsAt(p: Paging, r: Round, asked: nat) {
    var k, l := Min(asked, |r.requests|), Min(asked, |r.updates|);
    && p.gotRequests == r.requests[..k] && p.needsMain == PositionAt(r.requests, k)
    && p.gotUpdates == r.updates[..l] && p.updates == PositionAt(r.updates, l)
    && (p.ended <==> asked > 0 && asked >= |r.requests| && asked >= |r.updates|)
  }

  lemma CallStands(p: Paging, r: Round, asked: nat)
    requires r.limit >= 1 && Ascending(r.requests) && Ascending(r.updates) && StandsAt(p, r, asked)
    ensures StandsAt(Call(p, r), r, asked + r.limit)
  {
    hide PageAfter, Ascending, PositionAt;
    var k, l := Min(asked, |r.requests|), Min(asked, |r.updates|);
    PageAt(r.requests, k, r.limit);
    PageAt(r.updates, l, r.limit);
    Joined(r.requests, k, Min(asked + r.limit, |r.requests|));
    Joined(r.updates, l, Min(asked + r.limit, |r.updates|));
  }

  lemma Joined(items: seq<Item>, k: nat, to: nat)
    requires k <= to <= |items|
    ensures items[..k] + items[k..to] == items[..to]
  {}

  /** How many of each list n calls ask for. */
  function Asked(n: nat, limit: nat): nat { n * limit }

  lemma AskedMore(n: nat, limit: nat)
    requires n > 0
    ensures Asked(n, limit) == Asked(n - 1, limit) + limit
  {}

  /** Paging lists that stay as they are returns them from the front, a limit at a
      time, and ends with the call that first reaches the end of both. */
  lemma {:induction false} FixedEnds(r: Round, n: nat)
    requires r.limit >= 1 && Ascending(r.requests) && Ascending(r.updates)
    ensures var p, asked := Follow(Calls(r, n)), Asked(n, r.limit);
            && p.gotRequests == r.requests[..Min(asked, |r.requests|)]
            && p.gotUpdates == r.updates[..Min(asked, |r.updates|)]
            && (p.ended <==> n >= 1 && asked >= |r.requests| && asked >= |r.updates|)
  {
    hide Follow, StandsAt, Ascending, Asked;
    FixedStands(r, n);
    StandsMeans(Follow(Calls(r, n)), r, Asked(n, r.limit));
    Positive(n, r.limit);
  }

  lemma Positive(n: nat, limit: nat)
    requires limit >= 1
    ensures Asked(n, limit) > 0 <==> n >= 1
  {}

  lemma StandsMeans(p: Paging, r: Round, asked: nat)
    requires StandsAt(p, r, asked)
    ensures p.gotRequests == r.requests[..Min(asked, |r.requests|)]
    ensures p.gotUpdates == r.updates[..Min(asked, |r.updates|)]
    ensures p.ended <==> asked > 0 && asked >= |r.requests| && asked >= |r.updates|
  {}

  lemma BeginStands(r: Round)
    ensures StandsAt(Follow([]), r, 0)
  {}

  lemma {:induction false} FixedStands(r: Round, n: nat)
    requires r.limit >= 1 && Ascending(r.requests) && Ascending(r.updates)
    ensures StandsAt(Follow(Calls(r, n)), r, Asked(n, r.limit))
  {
    hide Call, Ascending, StandsAt;
    if n == 0 {
      BeginStands(r);
      assert Calls(r, n) == [];
    } else {
      FixedStands(r, n - 1);
      AskedMore(n, r.limit);
      hide Asked;
      assert Calls(r, n)[..n - 1] == Calls(r, n - 1);
      CallStands(Follow(Calls(r, n - 1)), r, Asked(n - 1, r.limit));
    }
  }
}

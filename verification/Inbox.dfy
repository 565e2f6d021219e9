/** The inbox's byte budgets, the size a record states of itself, and what history
    keeps (src/gateway-service.js:4307-4334, 4435-4475, 5533-5545). */
module Inbox {
  import opened Wrappers

  // ----- A record that holds its own size -----

  /** What payloadBytes can be before it is set: nothing, a number, or some other
      JSON value of so many bytes. */
  datatype Payload = Absent | Number(value: int) | Other(bytes: nat)

  function DigitCount(n: nat): (d: nat)
    ensures d >= 1
  {
    if n < 10 then 1 else 1 + DigitCount(n / 10)
  }

  /** The record's serialized length: bare without the field, and with the field
      its name and punctuation, and the value. */
  datatype Sizes = Sizes(bare: nat, field: nat)

  function Length(s: Sizes, p: Payload): nat {
    match p
    case Absent => s.bare
    case Number(v) => s.bare + s.field + if v < 0 then 1 + DigitCount(-v) else DigitCount(v)
    case Other(bytes) => s.bare + s.field + bytes
  }

  lemma {:induction false} DigitsAreFew(n: nat)
    ensures DigitCount(n) <= n / 2 + 1
  {
    if n >= 10 { DigitsAreFew(n / 10); }
  }

  lemma {:induction false} DigitsGrow(m: nat, n: nat)
    requires m <= n
    ensures DigitCount(m) <= DigitCount(n)
  {
    if m >= 10 { DigitsGrow(m / 10, n / 10); }
  }

  function Pow10(n: nat): nat { if n == 0 then 1 else 10 * Pow10(n - 1) }

  /** A number has as many digits as powers of ten it reaches. */
  lemma {:induction false} DigitsExactly(n: nat)
    ensures var d := DigitCount(n);
            n < Pow10(d) && (n > 0 ==> Pow10(d - 1) <= n) && (n == 0 ==> d == 1)
  {
    if n < 10 {
      assert Pow10(1) == 10 * Pow10(0);
    } else {
      DigitsExactly(n / 10);
      var d := DigitCount(n / 10);
      assert Pow10(d + 1) == 10 * Pow10(d) && Pow10(d) == 10 * Pow10(d - 1);
    }
  }

  /** A sign is one byte more, and what replaces another value differs by the values alone. */
  lemma LengthsDiffer(s: Sizes, n: int, bytes: nat)
    requires n > 0
    ensures Length(s, Number(-n)) == Length(s, Number(n)) + 1
    ensures Length(s, Number(n)) - Length(s, Other(bytes)) == DigitCount(n) - bytes
    ensures Length(s, Number(n)) == Length(s, Absent) + s.field + DigitCount(n)
  {}

  // Past this every length is below the number it holds.
  function Ceiling(s: Sizes): nat { 2 * (s.bare + s.field) + 2 }

  lemma LengthFallsBack(s: Sizes, n: nat)
    ensures n >= Ceiling(s) ==> Length(s, Number(n)) <= n
    ensures n <= Ceiling(s) ==> Length(s, Number(n)) <= Ceiling(s)
  {
    DigitsAreFew(n);
    DigitsAreFew(Ceiling(s));
    if n <= Ceiling(s) { DigitsGrow(n, Ceiling(s)); }
  }

  // How far a value can be from where it settles, by the side it comes from.
  function Distance(s: Sizes, previous: int, value: int): int {
    if value == previous then 0 else if value > previous then 1 + Ceiling(s) - value else 1 + value
  }

  lemma DistanceShrinks(s: Sizes, previous: nat)
    ensures var value := Length(s, Number(previous));
            var next := Length(s, Number(value));
            && (value > previous ==> next >= value && value <= Ceiling(s))
            && (value < previous ==> next <= value)
  {
    var value := Length(s, Number(previous));
    LengthFallsBack(s, previous);
    if previous <= value { DigitsGrow(previous, value); } else { DigitsGrow(value, previous); }
  }

  /** Ends from any start, at the record's own length with that number in it; but
      a record that says -1 already is left as it is. */
  method SetStablePayloadBytes(s: Sizes, start: Payload) returns (payload: Payload)
    ensures start == Number(-1) ==> payload == start
    ensures (payload.Number? && payload.value == Length(s, payload)) <==> start != Number(-1)
  {
    var previous := Number(-1);
    payload := start;
    if payload == previous { return; }
    previous := payload;
    payload := Number(Length(s, payload));
    if payload == previous { return; }
    previous := payload;
    payload := Number(Length(s, payload));
    while payload != previous
      invariant previous.Number? && previous.value >= 0 && payload == Number(Length(s, previous))
      decreases Distance(s, previous.value, payload.value)
    {
      DistanceShrinks(s, previous.value);
      LengthFallsBack(s, previous.value);
      previous := payload;
      payload := Number(Length(s, payload));
    }
  }

  // ----- Rows -----

  /** A row of the inbox; bytes is the size it states, age when it was resolved. */
  datatype Row = Row(id: nat, session: nat, root: nat, pending: bool, bytes: nat, age: nat)

  datatype Budgets = Budgets(item: nat, session: nat, root: nat, history: nat)

  function PendingBytes(rows: seq<Row>, keeps: Row -> bool): nat {
    if rows == [] then 0
    else (if rows[0].pending && keeps(rows[0]) then rows[0].bytes else 0) + PendingBytes(rows[1..], keeps)
  }

  function SessionBytes(rows: seq<Row>, session: nat): nat { PendingBytes(rows, (r: Row) => r.session == session) }

  function RootBytes(rows: seq<Row>, root: nat): nat { PendingBytes(rows, (r: Row) => r.root == root) }

  /** Whether the budgets have room for one more row. */
  predicate Admits(rows: seq<Row>, b: Budgets, row: Row) {
    && row.bytes <= b.item
    && SessionBytes(rows, row.session) + row.bytes <= b.session
    && RootBytes(rows, row.root) + row.bytes <= b.root
  }

  function Insert(rows: seq<Row>, b: Budgets, row: Row): seq<Row> {
    if Admits(rows, b, row) then rows + [row] else rows
  }

  function Resolve(rows: seq<Row>, id: nat, now: nat): seq<Row> {
    if rows == [] then []
    else if rows[0].id == id && rows[0].pending then [rows[0].(pending := false, age := now)] + rows[1..]
    else [rows[0]] + Resolve(rows[1..], id, now)
  }

  // Resolved rows of a root, in the order of the map.
  predicate InHistory(r: Row, root: nat) { !r.pending && r.root == root }

  function History(rows: seq<Row>, root: nat): seq<Row> {
    if rows == [] then [] else (if InHistory(rows[0], root) then [rows[0]] else []) + History(rows[1..], root)
  }

  // Array#sort by age: stable.
  function Place(sorted: seq<Row>, r: Row): seq<Row> {
    if sorted == [] || sorted[|sorted| - 1].age <= r.age then sorted + [r]
    else Place(sorted[..|sorted| - 1], r) + [sorted[|sorted| - 1]]
  }

  function Sorted(rows: seq<Row>): seq<Row> {
    if rows == [] then [] else Place(Sorted(rows[..|rows| - 1]), rows[|rows| - 1])
  }

  function Without(rows: seq<Row>, gone: seq<Row>): seq<Row> {
    if rows == [] then [] else (if rows[0] in gone then [] else [rows[0]]) + Without(rows[1..], gone)
  }

  function Evicted(rows: seq<Row>, root: nat, limit: nat): (gone: seq<Row>) {
    var history := History(rows, root);
    if |history| <= limit then [] else Sorted(history)[..|Sorted(history)| - Min(limit, |Sorted(history)|)]
  }

  /** Only a root's newest resolved rows stay past the limit. */
  function Evict(rows: seq<Row>, root: nat, limit: nat): seq<Row> { Without(rows, Evicted(rows, root, limit)) }

  predicate UniqueIds(rows: seq<Row>) { forall i, j | 0 <= i < j < |rows| :: rows[i].id != rows[j].id }

  /** Resolving settles the one pending row with that id, in its place, and no other. */
  lemma {:induction false} ResolvesOne(rows: seq<Row>, id: nat, now: nat)
    requires UniqueIds(rows)
    ensures var after := Resolve(rows, id, now);
            |after| == |rows| && forall k | 0 <= k < |rows| ::
              after[k] == if rows[k].id == id && rows[k].pending then rows[k].(pending := false, age := now)
                          else rows[k]
  {
    if rows != [] {
      var first, rest, after := rows[0], rows[1..], Resolve(rows, id, now);
      assert UniqueIds(rest) by { assert forall k | 0 <= k < |rest| :: rest[k] == rows[k + 1]; }
      if first.id == id && first.pending {
        forall k | 0 < k < |rows| ensures after[k] == rows[k] && rows[k].id != id {}
      } else {
        ResolvesOne(rest, id, now);
        assert after == [first] + Resolve(rest, id, now);
        forall k | 0 < k < |rows| ensures after[k] == Resolve(rest, id, now)[k - 1] && rows[k] == rest[k - 1] {}
      }
    }
  }

  // ----- What eviction leaves -----

  lemma {:induction false} PlaceKeeps(sorted: seq<Row>, r: Row)
    ensures |Place(sorted, r)| == |sorted| + 1 && multiset(Place(sorted, r)) == multiset(sorted) + multiset{r}
  {
    if sorted != [] && sorted[|sorted| - 1].age > r.age {
      PlaceKeeps(sorted[..|sorted| - 1], r);
      assert sorted == sorted[..|sorted| - 1] + [sorted[|sorted| - 1]];
    }
  }

  lemma {:induction false} PlaceLength(sorted: seq<Row>, r: Row)
    ensures |Place(sorted, r)| == |sorted| + 1
  {
    if sorted != [] { PlaceLength(sorted[..|sorted| - 1], r); }
  }

  lemma {:induction false} PlaceSorts(sorted: seq<Row>, r: Row)
    requires forall i, j | 0 <= i < j < |sorted| :: sorted[i].age <= sorted[j].age
    ensures var p := Place(sorted, r);
            && (forall i, j | 0 <= i < j < |p| :: p[i].age <= p[j].age)
            && (forall i | 0 <= i < |p| ::
                  p[i].age <= r.age || (|sorted| > 0 && p[i].age <= sorted[|sorted| - 1].age))
  {
    if sorted != [] && sorted[|sorted| - 1].age > r.age {
      var front, last := sorted[..|sorted| - 1], sorted[|sorted| - 1];
      PlaceSorts(front, r);
      PlaceLength(front, r);
      var placed := Place(front, r);
      forall i | 0 <= i < |placed| ensures placed[i].age <= last.age {
        assert placed[i].age <= r.age || (|front| > 0 && placed[i].age <= front[|front| - 1].age);
        assert |front| > 0 ==> front[|front| - 1] == sorted[|front| - 1] && front[|front| - 1].age <= last.age;
      }
    }
  }

  lemma {:induction false} SortedSorts(rows: seq<Row>)
    ensures var s := Sorted(rows);
            |s| == |rows| && multiset(s) == multiset(rows) && forall i, j | 0 <= i < j < |s| :: s[i].age <= s[j].age
  {
    if rows != [] {
      SortedSorts(rows[..|rows| - 1]);
      PlaceKeeps(Sorted(rows[..|rows| - 1]), rows[|rows| - 1]);
      PlaceSorts(Sorted(rows[..|rows| - 1]), rows[|rows| - 1]);
      hide Place;
      assert rows == rows[..|rows| - 1] + [rows[|rows| - 1]];
    }
  }

  lemma {:induction false} HistoryIs(rows: seq<Row>, root: nat)
    ensures forall r :: r in History(rows, root) <==> r in rows && InHistory(r, root)
    ensures forall r :: r in History(rows, root) <==> r in rows && !r.pending && r.root == root
    ensures UniqueIds(rows) ==> UniqueIds(History(rows, root))
  {
    if rows != [] {
      HistoryIs(rows[1..], root);
      assert rows == [rows[0]] + rows[1..];
      assert UniqueIds(rows) ==> UniqueIds(rows[1..]) && forall r | r in rows[1..] :: r.id != rows[0].id;
    }
  }

  lemma {:induction false} WithoutIs(rows: seq<Row>, gone: seq<Row>)
    ensures forall r :: r in Without(rows, gone) <==> r in rows && r !in gone
  {
    if rows != [] {
      WithoutIs(rows[1..], gone);
      assert rows == [rows[0]] + rows[1..];
    }
  }

  lemma {:induction false} WithoutHistory(rows: seq<Row>, gone: seq<Row>, root: nat)
    ensures History(Without(rows, gone), root) == Without(History(rows, root), gone)
  {
    if rows != [] {
      var r, rest := rows[0], Without(rows[1..], gone);
      WithoutHistory(rows[1..], gone, root);
      assert [] + rest == rest && ([r] + rest)[1..] == rest;
      var history := History(rows[1..], root);
      assert [] + history == history && ([r] + history)[1..] == history;
      assert [] + Without(history, gone) == Without(history, gone);
    }
  }

  function Elements(s: seq<Row>): set<Row> { set r | r in s }

  lemma {:induction false} ElementsCount(s: seq<Row>)
    ensures |Elements(s)| <= |s|
    ensures UniqueIds(s) ==> |Elements(s)| == |s|
  {
    if s == [] {
      assert Elements(s) == {};
    } else {
      ElementsCount(s[1..]);
      assert s == [s[0]] + s[1..];
      assert Elements(s) == {s[0]} + Elements(s[1..]);
      assert UniqueIds(s) ==> UniqueIds(s[1..]) && s[0] !in Elements(s[1..]);
    }
  }

  // The first m of a sequence without repetitions are m.
  lemma PrefixCount(s: seq<Row>, m: nat)
    requires m <= |s| && |Elements(s)| == |s|
    ensures |Elements(s[..m])| == m
  {
    ElementsCount(s[..m]);
    ElementsCount(s[m..]);
    assert s == s[..m] + s[m..];
    assert Elements(s) == Elements(s[..m]) + Elements(s[m..]);
    assert |Elements(s[..m]) + Elements(s[m..])| <= |Elements(s[..m])| + |Elements(s[m..])|;
  }

  lemma {:induction false} WithoutUnique(rows: seq<Row>, gone: seq<Row>)
    requires UniqueIds(rows)
    ensures UniqueIds(Without(rows, gone))
  {
    if rows != [] {
      WithoutUnique(rows[1..], gone);
      WithoutIs(rows[1..], gone);
      var rest := Without(rows[1..], gone);
      assert [] + rest == rest;
      forall i | 0 <= i < |rest| ensures rest[i].id != rows[0].id {
        assert rest[i] in rows[1..];
      }
    }
  }

  // The sorted history, and the part of it that goes.
  lemma EvictedIs(rows: seq<Row>, root: nat, limit: nat)
    requires |History(rows, root)| > limit
    ensures var history := History(rows, root);
            var sorted := Sorted(history);
            && |sorted| == |history| && Evicted(rows, root, limit) == sorted[..|history| - limit]
            && (forall i, j | 0 <= i < j < |sorted| :: sorted[i].age <= sorted[j].age)
            && forall r :: r in sorted <==> r in history
  {
    hide History, Sorted, Place;
    var history := History(rows, root);
    SortedSorts(history);
    SameMembers(Sorted(history), history);
  }

  lemma SameMembers(s: seq<Row>, t: seq<Row>)
    requires multiset(s) == multiset(t)
    ensures forall r :: r in s <==> r in t
  {
    forall r ensures r in s <==> r in t { assert r in multiset(s) <==> r in multiset(t); }
  }

  lemma SameElements(s: seq<Row>, t: seq<Row>)
    requires forall r :: r in s <==> r in t
    ensures Elements(s) == Elements(t)
  {}

  // Taking m different rows out of a history leaves the others.
  lemma CountWithout(history: seq<Row>, gone: seq<Row>)
    requires UniqueIds(history) && |Elements(gone)| == |gone| && Elements(gone) <= Elements(history)
    ensures |Without(history, gone)| == |history| - |gone|
  {
    WithoutIs(history, gone);
    WithoutUnique(history, gone);
    ElementsCount(Without(history, gone));
    ElementsCount(history);
    hide Without, UniqueIds;
    assert Elements(Without(history, gone)) == Elements(history) - Elements(gone);
  }

  lemma CountLeft(rows: seq<Row>, root: nat, limit: nat)
    requires UniqueIds(rows) && |History(rows, root)| > limit
    ensures |History(Evict(rows, root, limit), root)| == limit
  {
    hide History, Sorted, Without, Evicted, UniqueIds;
    var history, gone := History(rows, root), Evicted(rows, root, limit);
    var sorted := Sorted(history);
    EvictedIs(rows, root, limit);
    HistoryIs(rows, root);
    WithoutHistory(rows, gone, root);
    SameElements(sorted, history);
    ElementsCount(history);
    PrefixCount(sorted, |history| - limit);
    forall r | r in Elements(gone) ensures r in Elements(sorted) {}
    CountWithout(history, gone);
  }

  lemma NewestLeft(rows: seq<Row>, root: nat, limit: nat, evicted: Row, kept: Row)
    requires |History(rows, root)| > limit
    requires evicted in Evicted(rows, root, limit) && kept in History(rows, root) && kept !in Evicted(rows, root, limit)
    ensures evicted.age <= kept.age
  {
    hide History, Sorted, Evicted;
    EvictedIs(rows, root, limit);
    var sorted, cut := Sorted(History(rows, root)), |History(rows, root)| - limit;
    var i :| 0 <= i < cut && sorted[i] == evicted;
    var j :| 0 <= j < |sorted| && sorted[j] == kept;
    assert forall k | 0 <= k < cut :: sorted[..cut][k] == sorted[k];
  }

  /** Eviction removes only resolved rows of its root, leaves at most the limit of
      them, exactly that when there were more, and none of those it leaves is older
      than one it removed. */
  lemma EvictionKeepsNewest(rows: seq<Row>, root: nat, limit: nat)
    requires UniqueIds(rows)
    ensures var left := Evict(rows, root, limit);
            && (forall r | r in left :: r in rows)
            && (forall r | r in rows && (r.pending || r.root != root) :: r in left)
            && |History(left, root)| == Min(|History(rows, root)|, limit)
            && forall gone, kept | gone in rows && gone !in left && kept in left ::
                 !kept.pending && kept.root == root ==> gone.age <= kept.age
  {
    hide History, Sorted, Without, Evicted;
    var gone := Evicted(rows, root, limit);
    HistoryIs(rows, root);
    WithoutIs(rows, gone);
    if |History(rows, root)| <= limit {
      NothingEvicted(rows, root, limit);
      WithoutNothing(rows);
    } else {
      EvictedIs(rows, root, limit);
      CountLeft(rows, root, limit);
      forall r | r in gone ensures r in History(rows, root) {}
      forall r, kept | r in gone && kept in History(rows, root) && kept !in gone ensures r.age <= kept.age {
        NewestLeft(rows, root, limit, r, kept);
      }
    }
  }

  lemma NothingEvicted(rows: seq<Row>, root: nat, limit: nat)
    requires |History(rows, root)| <= limit
    ensures Evicted(rows, root, limit) == []
  {}

  lemma {:induction false} WithoutNothing(rows: seq<Row>)
    ensures Without(rows, []) == rows
  {
    if rows != [] { WithoutNothing(rows[1..]); }
  }

  ghost predicate Before(rows: seq<Row>, a: Row, b: Row) {
    exists i, j :: 0 <= i < j < |rows| && rows[i] == a && rows[j] == b
  }

  lemma BeforeMore(rows: seq<Row>, last: Row, a: Row, b: Row)
    ensures Before(rows, a, b) ==> Before(rows + [last], a, b)
    ensures a in rows ==> Before(rows + [last], a, last)
  {
    if Before(rows, a, b) {
      var i, j :| 0 <= i < j < |rows| && rows[i] == a && rows[j] == b;
      assert (rows + [last])[i] == a && (rows + [last])[j] == b;
    }
    if a in rows {
      var i :| 0 <= i < |rows| && rows[i] == a;
      assert (rows + [last])[i] == a && (rows + [last])[|rows|] == last;
    }
  }

  lemma BeforeLess(rows: seq<Row>, last: Row, a: Row, b: Row)
    requires Before(rows + [last], a, b)
    ensures Before(rows, a, b) || (a in rows && b == last)
  {
    var i, j :| 0 <= i < j < |rows + [last]| && (rows + [last])[i] == a && (rows + [last])[j] == b;
    if j < |rows| { assert rows[i] == a && rows[j] == b; }
  }

  lemma SomeBefore(rows: seq<Row>, a: Row, b: Row)
    requires Before(rows, a, b)
    ensures rows != []
  {}

  // A row is placed behind all that are no younger, and the others keep their order.
  lemma {:induction false} PlaceStable(sorted: seq<Row>, r: Row, a: Row, b: Row)
    requires forall i, j | 0 <= i < j < |sorted| :: sorted[i].age <= sorted[j].age
    ensures Before(sorted, a, b) ==> Before(Place(sorted, r), a, b)
    ensures a in sorted && a.age <= r.age ==> Before(Place(sorted, r), a, r)
  {
    hide Before;
    if sorted == [] || sorted[|sorted| - 1].age <= r.age {
      BeforeMore(sorted, r, a, b);
    } else {
      var front, last := sorted[..|sorted| - 1], sorted[|sorted| - 1];
      assert sorted == front + [last];
      PlaceStable(front, r, a, b);
      PlaceKeeps(front, r);
      assert a in front ==> a in multiset(front) && a in multiset(Place(front, r));
      BeforeMore(Place(front, r), last, a, b);
      BeforeMore(Place(front, r), last, a, r);
      if Before(sorted, a, b) { BeforeLess(front, last, a, b); }
    }
  }

  lemma {:induction false} SortedStable(rows: seq<Row>, a: Row, b: Row)
    requires Before(rows, a, b) && a.age <= b.age
    ensures Before(Sorted(rows), a, b)
  {
    hide Before, Place;
    SomeBefore(rows, a, b);
    if rows != [] {
      var front, last := rows[..|rows| - 1], rows[|rows| - 1];
      assert rows == front + [last];
      BeforeLess(front, last, a, b);
      SortedSorts(front);
      SameMembers(Sorted(front), front);
      PlaceStable(Sorted(front), last, a, b);
      if Before(front, a, b) { SortedStable(front, a, b); }
    }
  }

  /** Of two resolved at once the one that came first goes first. */
  lemma EvictsInOrder(rows: seq<Row>, root: nat, limit: nat, i: nat, j: nat)
    requires UniqueIds(rows) && i < |History(rows, root)| && j < |History(rows, root)|
    requires History(rows, root)[i].age == History(rows, root)[j].age
    requires History(rows, root)[i] in Evicted(rows, root, limit)
    requires History(rows, root)[j] !in Evicted(rows, root, limit)
    ensures i < j
  {
    hide History, Sorted, Place;
    var history := History(rows, root);
    if j < i {
      assert Before(history, history[j], history[i]);
      HistoryIs(rows, root);
      SortedStable(history, history[j], history[i]);
      EvictedIs(rows, root, limit);
      SortedUnique(history);
      BeforeInPrefix(Sorted(history), |history| - limit, history[j], history[i]);
    }
  }

  lemma BeforeInPrefix(rows: seq<Row>, cut: nat, a: Row, b: Row)
    requires UniqueIds(rows) && cut <= |rows| && Before(rows, a, b) && b in rows[..cut]
    ensures a in rows[..cut]
  {
    var i, j :| 0 <= i < j < |rows| && rows[i] == a && rows[j] == b;
    var k :| 0 <= k < cut && rows[..cut][k] == b;
    assert rows[k].id == rows[j].id;
    assert rows[..cut][i] == a;
  }

  lemma SortedUnique(rows: seq<Row>)
    requires UniqueIds(rows)
    ensures UniqueIds(Sorted(rows))
  {
    hide Sorted;
    SortedSorts(rows);
    var s := Sorted(rows);
    forall i, j | 0 <= i < j < |s| ensures s[i].id != s[j].id {
      if s[i].id == s[j].id {
        assert s[i] in multiset(s) && s[j] in multiset(s);
        assert s[i] in rows && s[j] in rows && s[i] == s[j];
        TwiceThere(s, i, j);
        OnceThere(rows, s[i]);
      }
    }
  }

  lemma TwiceThere(s: seq<Row>, i: nat, j: nat)
    requires i < j < |s| && s[i] == s[j]
    ensures multiset(s)[s[i]] >= 2
  {
    assert s == s[..j] + [s[j]] + s[j + 1..];
    assert s[i] == s[..j][i] && s[i] in multiset(s[..j]);
  }

  lemma {:induction false} OnceThere(rows: seq<Row>, r: Row)
    requires UniqueIds(rows) && r in rows
    ensures multiset(rows)[r] == 1
  {
    var k :| 0 <= k < |rows| && rows[k] == r;
    assert rows == rows[..k] + [r] + rows[k + 1..];
    assert r !in multiset(rows[..k]) && r !in multiset(rows[k + 1..]);
  }

  // ----- What the budgets keep -----

  ghost predicate Budgeted(rows: seq<Row>, b: Budgets) {
    && (forall r | r in rows && r.pending :: r.bytes <= b.item)
    && (forall session :: SessionBytes(rows, session) <= b.session)
    && (forall root :: RootBytes(rows, root) <= b.root)
  }

  lemma {:induction false} BytesOfMore(rows: seq<Row>, row: Row, keeps: Row -> bool)
    ensures PendingBytes(rows + [row], keeps)
         == PendingBytes(rows, keeps) + if row.pending && keeps(row) then row.bytes else 0
  {
    if rows == [] {
      assert [] + [row] == [row];
    } else {
      assert (rows + [row])[1..] == rows[1..] + [row];
      BytesOfMore(rows[1..], row, keeps);
    }
  }

  lemma {:induction false} BytesOfResolved(rows: seq<Row>, id: nat, now: nat, keeps: Row -> bool)
    ensures PendingBytes(Resolve(rows, id, now), keeps) <= PendingBytes(rows, keeps)
    ensures forall r | r in Resolve(rows, id, now) && r.pending :: r in rows
  {
    if rows != [] && !(rows[0].id == id && rows[0].pending) {
      BytesOfResolved(rows[1..], id, now, keeps);
    }
  }

  lemma {:induction false} BytesOfLess(rows: seq<Row>, gone: seq<Row>, keeps: Row -> bool)
    ensures PendingBytes(Without(rows, gone), keeps) <= PendingBytes(rows, keeps)
  {
    if rows != [] {
      BytesOfLess(rows[1..], gone, keeps);
      assert [] + Without(rows[1..], gone) == Without(rows[1..], gone);
      assert ([rows[0]] + Without(rows[1..], gone))[1..] == Without(rows[1..], gone);
    }
  }

  /** What counts against a budget: each pending row's bytes, for its session and its root. */
  lemma BudgetsCount(rows: seq<Row>, row: Row, session: nat, root: nat)
    ensures SessionBytes([], session) == 0 && RootBytes([], root) == 0
    ensures SessionBytes(rows + [row], session)
         == SessionBytes(rows, session) + if row.pending && row.session == session then row.bytes else 0
    ensures RootBytes(rows + [row], root)
         == RootBytes(rows, root) + if row.pending && row.root == root then row.bytes else 0
  {
    BytesOfMore(rows, row, (r: Row) => r.session == session);
    BytesOfMore(rows, row, (r: Row) => r.root == root);
  }

  /** A row is let in exactly where the inbox stays within every budget with it. */
  lemma AdmitsExactly(rows: seq<Row>, b: Budgets, row: Row)
    requires Budgeted(rows, b) && row.pending
    ensures Admits(rows, b, row) <==> Budgeted(rows + [row], b)
    ensures Insert(rows, b, row) == if Budgeted(rows + [row], b) then rows + [row] else rows
  {
    hide SessionBytes, RootBytes;
    forall session: nat, root: nat
      ensures SessionBytes(rows + [row], session)
           == SessionBytes(rows, session) + if row.session == session then row.bytes else 0
      ensures RootBytes(rows + [row], root) == RootBytes(rows, root) + if row.root == root then row.bytes else 0
    {
      BudgetsCount(rows, row, session, root);
    }
    assert row in rows + [row];
  }

  datatype Event = Asks(row: Row) | Resolves(id: nat, now: nat) | Evicts(root: nat)

  function Next(rows: seq<Row>, b: Budgets, e: Event): seq<Row> {
    match e
    case Asks(row) => Insert(rows, b, row)
    case Resolves(id, now) => Resolve(rows, id, now)
    case Evicts(root) => Evict(rows, root, b.history)
  }

  function Run(rows: seq<Row>, b: Budgets, es: seq<Event>): seq<Row>
    decreases |es|
  {
    if es == [] then rows else Next(Run(rows, b, es[..|es| - 1]), b, es[|es| - 1])
  }

  /** The rows are a map's, by their ids, and stay so. */
  lemma NextUnique(rows: seq<Row>, b: Budgets, e: Event)
    requires UniqueIds(rows) && (e.Asks? ==> forall r | r in rows :: r.id != e.row.id)
    ensures UniqueIds(Next(rows, b, e)) && UniqueIds([])
  {
    match e
    case Asks(_) =>
    case Resolves(id, now) => ResolvesOne(rows, id, now);
    case Evicts(root) => WithoutUnique(rows, Evicted(rows, root, b.history));
  }

  lemma NextBudgeted(rows: seq<Row>, b: Budgets, e: Event)
    requires Budgeted(rows, b)
    ensures Budgeted(Next(rows, b, e), b)
  {
    var after := Next(rows, b, e);
    match e
    case Asks(row) =>
      forall session ensures SessionBytes(after, session) <= b.session {
        BytesOfMore(rows, row, (r: Row) => r.session == session);
        assert SessionBytes(rows, session) <= b.session;
      }
      forall root ensures RootBytes(after, root) <= b.root {
        BytesOfMore(rows, row, (r: Row) => r.root == root);
        assert RootBytes(rows, root) <= b.root;
      }
    case Resolves(id, now) =>
      BytesOfResolved(rows, id, now, (r: Row) => true);
      forall session ensures SessionBytes(after, session) <= b.session {
        BytesOfResolved(rows, id, now, (r: Row) => r.session == session);
        assert SessionBytes(rows, session) <= b.session;
      }
      forall root ensures RootBytes(after, root) <= b.root {
        BytesOfResolved(rows, id, now, (r: Row) => r.root == root);
        assert RootBytes(rows, root) <= b.root;
      }
    case Evicts(root) =>
      var gone := Evicted(rows, root, b.history);
      WithoutIs(rows, gone);
      forall session ensures SessionBytes(after, session) <= b.session {
        BytesOfLess(rows, gone, (r: Row) => r.session == session);
        assert SessionBytes(rows, session) <= b.session;
      }
      forall other ensures RootBytes(after, other) <= b.root {
        BytesOfLess(rows, gone, (r: Row) => r.root == other);
        assert RootBytes(rows, other) <= b.root;
      }
  }

  /** From an inbox with nothing pending, as a start leaves it, pending rows stay
      within the item, session and root budgets. */
  lemma {:induction false} RunBudgeted(rows: seq<Row>, b: Budgets, es: seq<Event>)
    requires forall r | r in rows :: !r.pending
    ensures Budgeted(Run(rows, b, es), b)
    decreases |es|
  {
    if es == [] {
      forall session ensures SessionBytes(rows, session) == 0 {
        NothingPending(rows, (r: Row) => r.session == session);
      }
      forall root ensures RootBytes(rows, root) == 0 { NothingPending(rows, (r: Row) => r.root == root); }
    } else {
      RunBudgeted(rows, b, es[..|es| - 1]);
      NextBudgeted(Run(rows, b, es[..|es| - 1]), b, es[|es| - 1]);
      hide Budgeted, Next;
    }
  }

  lemma {:induction false} NothingPending(rows: seq<Row>, keeps: Row -> bool)
    requires forall r | r in rows :: !r.pending
    ensures PendingBytes(rows, keeps) == 0
  {
    if rows != [] {
      assert forall r | r in rows[1..] :: r in rows;
      NothingPending(rows[1..], keeps);
    }
  }

  // ----- The inbox in place -----

  class Inbox {
    const budgets: Budgets
    var rows: seq<Row>

    constructor (budgets: Budgets, recovered: seq<Row>)
      requires forall r | r in recovered :: !r.pending
      ensures rows == recovered && this.budgets == budgets
    {
      this.budgets, rows := budgets, recovered;
    }

    /** A new row goes in only within the budgets, stating its own length. */
    method InsertInboxRow(draft: Row, sizes: Sizes) returns (row: Row, admitted: bool)
      requires draft.pending
      modifies this
      ensures row == draft.(bytes := row.bytes) && row.bytes == Length(sizes, Number(row.bytes))
      ensures admitted == Admits(old(rows), budgets, row) && rows == Insert(old(rows), budgets, row)
    {
      var payload := SetStablePayloadBytes(sizes, Absent);
      row := draft.(bytes := payload.value);
      var sessionBytes, rootBytes := 0, 0;
      assert rows[..|rows|] == rows;
      for i := 0 to |rows|
        invariant rows == old(rows)
        invariant sessionBytes == SessionBytes(rows[..i], row.session) && rootBytes == RootBytes(rows[..i], row.root)
      {
        assert rows[..i + 1] == rows[..i] + [rows[i]];
        BytesOfMore(rows[..i], rows[i], (r: Row) => r.session == row.session);
        BytesOfMore(rows[..i], rows[i], (r: Row) => r.root == row.root);
        if rows[i].pending && rows[i].session == row.session { sessionBytes := sessionBytes + rows[i].bytes; }
        if rows[i].pending && rows[i].root == row.root { rootBytes := rootBytes + rows[i].bytes; }
      }
      if row.bytes > budgets.item || sessionBytes + row.bytes > budgets.session
        || rootBytes + row.bytes > budgets.root {
        return row, false;
      }
      rows := rows + [row];
      return row, true;
    }

    /** The count bound on a root's history. */
    method EvictInboxHistory(root: nat) returns (changed: bool)
      modifies this
      ensures rows == Evict(old(rows), root, budgets.history)
          && (changed <==> |History(old(rows), root)| > budgets.history)
    {
      hide History, Sorted, Without;
      var history: seq<Row> := [];
      assert rows[..|rows|] == rows;
      NoHistory(rows[..0], root);
      for i := 0 to |rows|
        invariant rows == old(rows)
        invariant history == History(rows[..i], root)
      {
        assert rows[..i + 1] == rows[..i] + [rows[i]];
        HistoryOfMore(rows[..i], rows[i], root);
        if InHistory(rows[i], root) { history := history + [rows[i]]; }
      }
      SortedSorts(history);
      if |history| <= budgets.history {
        WithoutNothing(rows);
        return false;
      }
      var sorted := Sorted(history);
      rows := Without(rows, sorted[..|sorted| - budgets.history]);
      return true;
    }
  }

  lemma NoHistory(rows: seq<Row>, root: nat)
    requires rows == []
    ensures History(rows, root) == []
  {}

  lemma {:induction false} HistoryOfMore(rows: seq<Row>, row: Row, root: nat)
    ensures History(rows + [row], root) == History(rows, root) + if InHistory(row, root) then [row] else []
  {
    hide InHistory;
    if rows == [] {
      assert [] + [row] == [row] && [row][1..] == [];
    } else {
      assert (rows + [row])[0] == rows[0] && (rows + [row])[1..] == rows[1..] + [row];
      HistoryOfMore(rows[1..], row, root);
      var first, rest := if InHistory(rows[0], root) then [rows[0]] else [], History(rows[1..], root);
      var last := if InHistory(row, root) then [row] else [];
      assert first + (rest + last) == first + rest + last;
    }
  }
}

/** Which Mains are there and what they wait on, with the events that say so
    (src/main-status.js). */
module MainStatus {
  import opened Wrappers

  type Key = string
  type Connection = nat
  type TaskId = string
  type Time = nat

  const MAX_MAINS_PER_CONNECTION := 1024

  datatype Wait = Wait(handle: nat, taskIds: seq<TaskId>)

  // A grace and the timer that ends it are one; id tells two of them apart.
  datatype Grace = Grace(id: nat, taskIds: seq<TaskId>)

  /** A Main as a consumer reads it; taskIds only while it waits. */
  datatype Main = Main(waiting: bool, since: Time, taskIds: seq<TaskId>)

  datatype Entry = Entry(connections: int, waits: seq<Wait>, grace: Option<Grace>,
                         status: Option<bool>, since: Time, shown: Option<Main>, revision: nat)

  /** What is sent of a Main: how it stands, or that it is gone. */
  datatype Item = Item(key: Key, main: Option<Main>, revision: nat)

  /** events is history: everything onChange was given. */
  datatype Registry = Registry(mains: map<Key, Entry>, connections: map<Connection, set<Key>>,
                               revision: nat, graces: nat, events: seq<Item>)

  const EMPTY := Registry(map[], map[], 0, 0, [])

  function Distinct(ids: seq<TaskId>): seq<TaskId> {
    if ids == [] then []
    else
      var rest := Distinct(ids[..|ids| - 1]);
      if ids[|ids| - 1] in rest then rest else rest + [ids[|ids| - 1]]
  }

  function Watched(waits: seq<Wait>): seq<TaskId> { if waits == [] then [] else waits[0].taskIds + Watched(waits[1..]) }

  function Public(e: Entry): Main {
    var waiting := e.status == Some(true);
    var lingering := if e.grace.Some? then e.grace.value.taskIds else [];
    Main(waiting, e.since, if waiting then Distinct(Watched(e.waits) + lingering) else [])
  }

  function FreshEntry(): Entry { Entry(0, [], None, None, 0, None, 0) }

  function EntryOf(r: Registry, key: Key): Entry { if key in r.mains then r.mains[key] else FreshEntry() }

  function Put(r: Registry, key: Key, e: Entry): Registry { r.(mains := r.mains[key := e]) }

  /** #settle: where an entry stands now, reported only when what is read of it changed. */
  function Settle(r: Registry, key: Key, now: Time): Registry {
    if key !in r.mains then r
    else
      var e := if r.mains[key].connections <= 0 then r.mains[key].(grace := None) else r.mains[key];
      if e.waits == [] && e.grace.None? && e.connections <= 0 then
        r.(mains := r.mains - {key}, revision := r.revision + 1, events := r.events + [Item(key, None, r.revision + 1)])
      else
        var status := Some(e.waits != [] || e.grace.Some?);
        var f := if status != e.status then e.(status := status, since := now) else e;
        if f.shown == Some(Public(f)) then Put(r, key, f)
        else
          var g := f.(shown := Some(Public(f)), revision := r.revision + 1);
          Put(r, key, g).(revision := r.revision + 1, events := r.events + [Item(key, g.shown, g.revision)])
  }

  function Attach(r: Registry, connection: Connection, key: Key, now: Time): Registry {
    var keys := if connection in r.connections then r.connections[connection] else {};
    if key in keys || |keys| >= MAX_MAINS_PER_CONNECTION then r
    else
      var e := EntryOf(r, key);
      var named := r.connections[connection := keys + {key}];
      Settle(Put(r, key, e.(connections := e.connections + 1)).(connections := named), key, now)
  }

  function Leave(r: Registry, key: Key, now: Time): Registry {
    if key !in r.mains then r
    else Settle(Put(r, key, r.mains[key].(connections := r.mains[key].connections - 1)), key, now)
  }

  function LeaveAll(r: Registry, keys: seq<Key>, now: Time): Registry
    decreases |keys|
  {
    if keys == [] then r else Leave(LeaveAll(r, keys[..|keys| - 1], now), keys[|keys| - 1], now)
  }

  /** The connection closed; order is the one its keys were named in. */
  function Detach(r: Registry, connection: Connection, order: seq<Key>, now: Time): Registry {
    if connection !in r.connections then r else LeaveAll(r.(connections := r.connections - {connection}), order, now)
  }

  function SetWait(waits: seq<Wait>, w: Wait): seq<Wait> {
    if waits == [] then [w] else if waits[0].handle == w.handle then [w] + waits[1..]
      else [waits[0]] + SetWait(waits[1..], w)
  }

  function DropWait(waits: seq<Wait>, handle: nat): seq<Wait> {
    if waits == [] then [] else if waits[0].handle == handle then waits[1..]
      else [waits[0]] + DropWait(waits[1..], handle)
  }

  function FindWait(waits: seq<Wait>, handle: nat): Option<seq<TaskId>> {
    if waits == [] then None else if waits[0].handle == handle then Some(waits[0].taskIds)
      else FindWait(waits[1..], handle)
  }

  function BlockWait(r: Registry, key: Key, handle: nat, taskIds: seq<TaskId>, now: Time): Registry {
    var e := EntryOf(r, key);
    Settle(Put(r, key, e.(waits := SetWait(e.waits, Wait(handle, taskIds)), grace := None)), key, now)
  }

  function CloseWait(r: Registry, key: Key, handle: nat, heartbeat: bool, now: Time): Registry {
    if key !in r.mains then r
    else
      var e := r.mains[key];
      var taskIds := FindWait(e.waits, handle);
      var dropped := e.(waits := DropWait(e.waits, handle));
      if !heartbeat then Settle(Put(r, key, dropped.(grace := None)), key, now)
      else if taskIds.Some? || e.grace.Some? then
        var grace := Grace(r.graces, if taskIds.Some? then taskIds.value else e.grace.value.taskIds);
        Settle(Put(r, key, dropped.(grace := Some(grace))).(graces := r.graces + 1), key, now)
      else Settle(Put(r, key, dropped), key, now)
  }

  function EndGrace(r: Registry, key: Key, now: Time): Registry {
    if key !in r.mains || r.mains[key].grace.None? then r
    else Settle(Put(r, key, r.mains[key].(grace := None)), key, now)
  }

  function Fire(r: Registry, key: Key, id: nat, now: Time): Registry {
    if key in r.mains && r.mains[key].grace.Some? && r.mains[key].grace.value.id == id then EndGrace(r, key, now) else r
  }

  datatype Event =
    | Attaches(connection: Connection, key: Key, now: Time)
    | Detaches(connection: Connection, order: seq<Key>, now: Time)
    | Blocks(key: Key, handle: nat, taskIds: seq<TaskId>, now: Time)
    | Closes(key: Key, handle: nat, heartbeat: bool, now: Time)
    | Acts(key: Key, now: Time)
    | Fires(key: Key, id: nat, now: Time)

  predicate Orders(order: seq<Key>, keys: set<Key>) {
    (forall k | k in keys :: k in order) && (forall k | k in order :: k in keys)
    && forall i, j | 0 <= i < j < |order| :: order[i] != order[j]
  }

  predicate Possible(r: Registry, e: Event) {
    e.Detaches? && e.connection in r.connections ==> Orders(e.order, r.connections[e.connection])
  }

  function Next(r: Registry, e: Event): Registry {
    if !Possible(r, e) then r
    else match e
      case Attaches(connection, key, now) => Attach(r, connection, key, now)
      case Detaches(connection, order, now) => Detach(r, connection, order, now)
      case Blocks(key, handle, taskIds, now) => BlockWait(r, key, handle, taskIds, now)
      case Closes(key, handle, heartbeat, now) => CloseWait(r, key, handle, heartbeat, now)
      case Acts(key, now) => EndGrace(r, key, now)
      case Fires(key, id, now) => Fire(r, key, id, now)
  }

  function Run(es: seq<Event>): Registry
    decreases |es|
  {
    if es == [] then EMPTY else Next(Run(es[..|es| - 1]), es[|es| - 1])
  }

  // ----- What holds at rest -----

  // How many live connections named key.
  function Naming(r: Registry, key: Key): set<Connection> { set c | c in r.connections && key in r.connections[c] }

  // The last thing said of a key.
  function LastOf(events: seq<Item>, key: Key): Option<Item>
    decreases |events|
  {
    if events == [] then None
    else if events[|events| - 1].key == key then Some(events[|events| - 1])
    else LastOf(events[..|events| - 1], key)
  }

  predicate Held(e: Entry) { e.connections > 0 || e.waits != [] || e.grace.Some? }

  /** What holds of one key: its entry is there exactly while something holds it,
      and reads as the last thing said of it. owed counts connections that have
      closed and are still to be taken off. */
  ghost predicate Rests(r: Registry, key: Key, owed: nat) {
    if key in r.mains then
      var e := r.mains[key];
      && e.connections == |Naming(r, key)| + owed && Held(e) && (e.grace.Some? ==> e.connections > 0)
      && e.status == Some(e.waits != [] || e.grace.Some?) && e.shown == Some(Public(e))
      && LastOf(r.events, key) == Some(Item(key, e.shown, e.revision))
    else
      && Naming(r, key) == {} && owed == 0
      && (LastOf(r.events, key).Some? ==> LastOf(r.events, key).value.main == None)
  }

  ghost predicate Rising(r: Registry) {
    && (forall i | 0 <= i < |r.events| :: r.events[i].revision <= r.revision)
    && (forall i, j | 0 <= i < j < |r.events| :: r.events[i].revision < r.events[j].revision)
  }

  ghost predicate AtRest(r: Registry) { Rising(r) && forall key :: Rests(r, key, 0) }

  lemma SettleOthers(r: Registry, key: Key, now: Time, other: Key, owed: nat)
    requires other != key && Rests(r, other, owed)
    ensures Rests(Settle(r, key, now), other, owed)
  {
    SettleSays(r, key, now, other);
    hide Settle, Public, Naming, LastOf;
  }

  // What a settle changes elsewhere: nothing.
  lemma SettleSays(r: Registry, key: Key, now: Time, other: Key)
    requires other != key
    ensures var s := Settle(r, key, now);
            && Naming(s, other) == Naming(r, other) && LastOf(s.events, other) == LastOf(r.events, other)
            && (other in s.mains <==> other in r.mains) && (other in r.mains ==> s.mains[other] == r.mains[other])
  {
    var s := Settle(r, key, now);
    if s.events != r.events { assert s.events[..|s.events| - 1] == r.events; }
    hide Public;
  }

  // An entry that was just changed, as #settle finds it.
  ghost predicate Unsettled(r: Registry, key: Key, owed: nat) {
    && key in r.mains && r.mains[key].connections == |Naming(r, key)| + owed
    && (r.mains[key].shown.Some? ==>
          LastOf(r.events, key) == Some(Item(key, r.mains[key].shown, r.mains[key].revision)))
  }

  lemma SettleRests(r: Registry, key: Key, now: Time, owed: nat)
    requires Unsettled(r, key, owed)
    ensures Rests(Settle(r, key, now), key, owed)
  {
    var s := Settle(r, key, now);
    assert Naming(s, key) == Naming(r, key);
    if s.events != r.events { assert s.events[..|s.events| - 1] == r.events; }
    hide Public, Naming;
  }

  lemma SettleRises(r: Registry, key: Key, now: Time)
    requires Rising(r)
    ensures Rising(Settle(r, key, now))
  {
    hide Public;
  }

  // A change of one entry, then its settle.
  lemma ChangeRests(r: Registry, key: Key, r': Registry, now: Time)
    requires AtRest(r) && Unsettled(r', key, 0) && r'.events == r.events && r'.revision == r.revision
    requires forall other | other != key ::
               Naming(r', other) == Naming(r, other) && (other in r'.mains <==> other in r.mains)
               && (other in r.mains ==> r'.mains[other] == r.mains[other])
    ensures AtRest(Settle(r', key, now))
  {
    SettleRests(r', key, now, 0);
    SettleRises(r', key, now);
    hide Settle, Public, Naming, LastOf;
    forall other ensures Rests(Settle(r', key, now), other, 0) {
      if other != key {
        assert Rests(r, other, 0);
        SettleOthers(r', key, now, other, 0);
      }
    }
  }

  lemma PutUnsettled(r: Registry, key: Key, e: Entry)
    requires AtRest(r) && e == EntryOf(r, key).(waits := e.waits, grace := e.grace)
    ensures Unsettled(Put(r, key, e), key, 0)
    ensures forall other :: Naming(Put(r, key, e), other) == Naming(r, other)
  {
    assert Rests(r, key, 0);
    forall other ensures Naming(Put(r, key, e), other) == Naming(r, other) {}
    hide Public;
  }

  // A change of what an entry waits on, or of its grace.
  lemma WaitRests(r: Registry, key: Key, e: Entry, graces: nat, now: Time)
    requires AtRest(r) && e == EntryOf(r, key).(waits := e.waits, grace := e.grace)
    ensures AtRest(Settle(Put(r, key, e).(graces := graces), key, now))
  {
    PutUnsettled(r, key, e);
    var r' := Put(r, key, e).(graces := graces);
    forall other ensures Naming(r', other) == Naming(Put(r, key, e), other) {}
    hide AtRest, Naming, Settle, LastOf;
    ChangeRests(r, key, r', now);
  }

  lemma NamesOne(r: Registry, r': Registry, connection: Connection, key: Key)
    requires var keys := if connection in r.connections then r.connections[connection] else {};
             r'.connections == r.connections[connection := keys + {key}] && key !in keys
    ensures |Naming(r', key)| == |Naming(r, key)| + 1
    ensures forall other | other != key :: Naming(r', other) == Naming(r, other)
  {
    assert Naming(r', key) == Naming(r, key) + {connection} && connection !in Naming(r, key);
    forall other | other != key ensures Naming(r', other) == Naming(r, other) {}
  }

  lemma AttachUnsettled(r: Registry, r': Registry, key: Key)
    requires AtRest(r) && |Naming(r', key)| == |Naming(r, key)| + 1 && r'.events == r.events
    requires r'.mains == r.mains[key := EntryOf(r, key).(connections := EntryOf(r, key).connections + 1)]
    ensures Unsettled(r', key, 0)
  {
    assert Rests(r, key, 0);
    hide Public, LastOf, Naming;
  }

  // There is an order for any keys.
  lemma {:induction false} SomeOrder(keys: set<Key>)
    ensures exists order :: Orders(order, keys)
    decreases |keys|
  {
    if keys == {} {
      assert Orders([], keys);
    } else {
      var key :| key in keys;
      SomeOrder(keys - {key});
      var order :| Orders(order, keys - {key});
      assert Orders(order + [key], keys);
    }
  }

  lemma AttachRests(r: Registry, connection: Connection, key: Key, now: Time)
    requires AtRest(r)
    ensures AtRest(Attach(r, connection, key, now))
  {
    hide AtRest, Naming, Settle, LastOf, Public, Unsettled, EntryOf;
    var keys := if connection in r.connections then r.connections[connection] else {};
    if key !in keys && |keys| < MAX_MAINS_PER_CONNECTION {
      var e := EntryOf(r, key);
      var named := r.connections[connection := keys + {key}];
      var r' := Put(r, key, e.(connections := e.connections + 1)).(connections := named);
      NamesOne(r, r', connection, key);
      AttachUnsettled(r, r', key);
      ChangeRests(r, key, r', now);
    }
  }

  // A connection's keys while they are taken off: the ones still to come are owed.
  ghost predicate Leaving(r: Registry, done: seq<Key>, keys: set<Key>) {
    Rising(r) && forall key :: Rests(r, key, if key in keys && key !in done then 1 else 0)
  }

  lemma LeaveRests(r: Registry, done: seq<Key>, keys: set<Key>, key: Key, now: Time)
    requires Leaving(r, done, keys) && key in keys && key !in done
    ensures Leaving(Leave(r, key, now), done + [key], keys)
  {
    assert Rests(r, key, 1);
    var e := r.mains[key];
    var r' := Put(r, key, e.(connections := e.connections - 1));
    forall other ensures Naming(r', other) == Naming(r, other) {}
    assert Unsettled(r', key, 0);
    SettleRests(r', key, now, 0);
    SettleRises(r', key, now);
    hide Settle, Public, Naming, LastOf;
    forall other ensures Rests(Leave(r, key, now), other, if other in keys && other !in done + [key] then 1 else 0) {
      if other != key {
        var owed := if other in keys && other !in done then 1 else 0;
        assert Rests(r, other, owed);
        assert Rests(r', other, owed);
        SettleOthers(r', key, now, other, owed);
      }
    }
  }

  lemma {:induction false} LeaveAllRests(r: Registry, order: seq<Key>, n: nat, keys: set<Key>, now: Time)
    requires Leaving(r, [], keys) && Orders(order, keys) && n <= |order|
    ensures Leaving(LeaveAll(r, order[..n], now), order[..n], keys)
    decreases n
  {
    hide Leaving, Leave;
    if n == 0 {
      assert order[..0] == [];
    } else {
      LeaveAllRests(r, order, n - 1, keys, now);
      assert order[..n][..n - 1] == order[..n - 1] && order[..n] == order[..n - 1] + [order[n - 1]];
      LeaveRests(LeaveAll(r, order[..n - 1], now), order[..n - 1], keys, order[n - 1], now);
    }
  }

  lemma LeftAll(r: Registry, done: seq<Key>, keys: set<Key>)
    requires Leaving(r, done, keys) && Orders(done, keys)
    ensures AtRest(r)
  {
    hide Rests, Rising;
    forall key ensures Rests(r, key, 0) { assert key in keys ==> key in done; }
  }

  lemma DetachRests(r: Registry, connection: Connection, order: seq<Key>, now: Time)
    requires AtRest(r) && (connection in r.connections ==> Orders(order, r.connections[connection]))
    ensures AtRest(Detach(r, connection, order, now))
  {
    if connection in r.connections {
      var keys := r.connections[connection];
      var r' := r.(connections := r.connections - {connection});
      forall key ensures Rests(r', key, if key in keys then 1 else 0) {
        assert Rests(r, key, 0);
        assert Naming(r', key) == Naming(r, key) - {connection};
        hide Public, LastOf;
      }
      assert Leaving(r', [], keys);
      LeaveAllRests(r', order, |order|, keys, now);
      assert order[..|order|] == order;
      hide Rests, Rising, LeaveAll, Orders;
      LeftAll(LeaveAll(r', order, now), order, keys);
    }
  }

  lemma NextRests(r: Registry, e: Event)
    requires AtRest(r)
    ensures AtRest(Next(r, e))
  {
    hide AtRest, Settle, Detach, Attach;
    if Possible(r, e) {
      match e
      case Attaches(connection, key, now) => AttachRests(r, connection, key, now);
      case Detaches(connection, order, now) => DetachRests(r, connection, order, now);
      case Blocks(key, handle, taskIds, now) =>
        var f := EntryOf(r, key);
        WaitRests(r, key, f.(waits := SetWait(f.waits, Wait(handle, taskIds)), grace := None), r.graces, now);
      case Closes(key, handle, heartbeat, now) => CloseRests(r, key, handle, heartbeat, now);
      case Acts(key, now) => if key in r.mains { WaitRests(r, key, r.mains[key].(grace := None), r.graces, now); }
      case Fires(key, id, now) => if key in r.mains { WaitRests(r, key, r.mains[key].(grace := None), r.graces, now); }
    }
  }

  lemma CloseRests(r: Registry, key: Key, handle: nat, heartbeat: bool, now: Time)
    requires AtRest(r)
    ensures AtRest(CloseWait(r, key, handle, heartbeat, now))
  {
    hide AtRest, Settle;
    if key in r.mains {
      var e := r.mains[key];
      var taskIds := FindWait(e.waits, handle);
      var dropped := e.(waits := DropWait(e.waits, handle));
      WaitRests(r, key, dropped.(grace := None), r.graces, now);
      WaitRests(r, key, dropped, r.graces, now);
      if taskIds.Some? || e.grace.Some? {
        var grace := Grace(r.graces, if taskIds.Some? then taskIds.value else e.grace.value.taskIds);
        WaitRests(r, key, dropped.(grace := Some(grace)), r.graces + 1, now);
      }
    }
  }

  lemma {:induction false} RunRests(es: seq<Event>)
    ensures AtRest(Run(es))
    decreases |es|
  {
    if es != [] {
      hide AtRest, Next;
      RunRests(es[..|es| - 1]);
      NextRests(Run(es[..|es| - 1]), es[|es| - 1]);
    }
  }

  /** At every rest point an entry is there exactly while a connection, a blocked
      wait or a grace holds it, it counts the live connections that named it, and
      a grace holds only a Main that is still connected. */
  lemma HeldExactly(es: seq<Event>, key: Key)
    ensures var r := Run(es);
            && (key in r.mains ==> r.mains[key].connections == |Naming(r, key)|)
            && (key in r.mains ==> Naming(r, key) != {} || r.mains[key].waits != [] || r.mains[key].grace.Some?)
            && (key in r.mains && r.mains[key].grace.Some? ==> r.mains[key].connections > 0)
            && (key !in r.mains ==> Naming(r, key) == {})
  {
    RunRests(es);
    hide Run, LastOf, Public, Naming;
    assert Rests(Run(es), key, 0);
  }

  // ----- A consumer of events and list replies -----

  // What a list reply says of a key, if it says anything.
  function Listed(r: Registry, key: Key): Option<Item> {
    if key in r.mains then Some(Item(key, Some(Public(r.mains[key])), r.mains[key].revision)) else None
  }

  // The item of a key with the highest revision among those received.
  function Best(received: seq<Item>, key: Key): Option<Item>
    decreases |received|
  {
    if received == [] then None
    else
      var last, best := received[|received| - 1], Best(received[..|received| - 1], key);
      if last.key == key && (best.None? || best.value.revision < last.revision) then Some(last) else best
  }

  lemma {:induction false} BestIsBest(received: seq<Item>, key: Key)
    ensures var b := Best(received, key);
            && (b.Some? ==> b.value in received && b.value.key == key)
            && (forall x | x in received && x.key == key :: b.Some? && x.revision <= b.value.revision)
    decreases |received|
  {
    if received != [] {
      BestIsBest(received[..|received| - 1], key);
      assert received == received[..|received| - 1] + [received[|received| - 1]];
    }
  }

  lemma {:induction false} LastIsLast(events: seq<Item>, key: Key)
    requires forall i, j | 0 <= i < j < |events| :: events[i].revision < events[j].revision
    ensures var l := LastOf(events, key);
            && (l.Some? ==> l.value in events && l.value.key == key)
            && (forall x | x in events && x.key == key :: l.Some? && (x == l.value || x.revision < l.value.revision))
    decreases |events|
  {
    if events != [] {
      LastIsLast(events[..|events| - 1], key);
      assert events == events[..|events| - 1] + [events[|events| - 1]];
    }
  }

  lemma SettleAppends(r: Registry, key: Key, now: Time)
    ensures r.events <= Settle(r, key, now).events
  {
    hide Public;
  }

  lemma {:induction false} LeaveAllAppends(r: Registry, order: seq<Key>, now: Time)
    ensures r.events <= LeaveAll(r, order, now).events
    decreases |order|
  {
    if order != [] {
      LeaveAllAppends(r, order[..|order| - 1], now);
      var m := LeaveAll(r, order[..|order| - 1], now);
      var key := order[|order| - 1];
      if key in m.mains {
        SettleAppends(Put(m, key, m.mains[key].(connections := m.mains[key].connections - 1)), key, now);
      }
      hide Settle;
    }
  }

  lemma NextAppends(r: Registry, e: Event)
    ensures r.events <= Next(r, e).events
  {
    forall s: Registry, key: Key, now: Time | s.events == r.events ensures r.events <= Settle(s, key, now).events {
      SettleAppends(s, key, now);
    }
    if e.Detaches? && e.connection in r.connections {
      LeaveAllAppends(r.(connections := r.connections - {e.connection}), e.order, e.now);
    }
    hide Settle, LeaveAll, Orders;
  }

  lemma {:induction false} RunAppends(es: seq<Event>, n: nat)
    requires n <= |es|
    ensures Run(es[..n]).events <= Run(es).events
    decreases |es|
  {
    hide Next;
    if n == |es| {
      assert es[..n] == es;
    } else {
      assert es[..|es| - 1][..n] == es[..n];
      RunAppends(es[..|es| - 1], n);
      NextAppends(Run(es[..|es| - 1]), es[|es| - 1]);
    }
  }

  lemma ListedIsEvent(es: seq<Event>, key: Key)
    requires Listed(Run(es), key).Some?
    ensures Listed(Run(es), key).value in Run(es).events
  {
    RunRests(es);
    hide Run, Public;
    var r := Run(es);
    assert Rests(r, key, 0);
    LastIsLast(r.events, key);
    hide LastOf;
  }

  // What a list reply said was sent as an event too.
  lemma ListedWasEvent(es: seq<Event>, x: Item)
    requires x in Run(es).events || exists n: nat :: n <= |es| && Listed(Run(es[..n]), x.key) == Some(x)
    ensures x in Run(es).events
  {
    hide Run, Listed;
    if x !in Run(es).events {
      var n: nat :| n <= |es| && Listed(Run(es[..n]), x.key) == Some(x);
      ListedIsEvent(es[..n], x.key);
      RunAppends(es, n);
    }
  }

  // The highest revision of all that was sent is the last that was.
  lemma BestIsLast(r: Registry, received: seq<Item>, key: Key)
    requires AtRest(r) && (forall x | x in r.events :: x in received) && forall x | x in received :: x in r.events
    ensures Listed(r, key) == var b := Best(received, key); if b.Some? && b.value.main.Some? then b else None
  {
    assert Rests(r, key, 0);
    LastIsLast(r.events, key);
    BestIsBest(received, key);
    hide LastOf, Best, Public, Naming;
  }

  /** A consumer that was sent every event, and any list replies on the way, in
      any order and as often as may be, and keeps for each Main what has the
      highest revision, ends with exactly what is listed. */
  lemma ConsumerConverges(es: seq<Event>, received: seq<Item>, key: Key)
    requires forall x | x in Run(es).events :: x in received
    requires forall x | x in received ::
               x in Run(es).events || exists n: nat :: n <= |es| && Listed(Run(es[..n]), x.key) == Some(x)
    ensures var b := Best(received, key);
            Listed(Run(es), key) == if b.Some? && b.value.main.Some? then b else None
  {
    hide Run, Listed, Best, AtRest;
    forall x | x in received ensures x in Run(es).events { ListedWasEvent(es, x); }
    RunRests(es);
    BestIsLast(Run(es), received, key);
  }

  // ----- What is listed of a Main -----

  /** The waits a Main is blocked in, and the grace that its last heartbeat left. */
  function WaitsOf(r: Registry, key: Key): set<Wait> {
    if key in r.mains then set w | w in r.mains[key].waits else {}
  }

  function GraceOf(r: Registry, key: Key): Option<Grace> { if key in r.mains then r.mains[key].grace else None }

  ghost predicate OneEach(waits: seq<Wait>) { forall i, j | 0 <= i < j < |waits| :: waits[i].handle != waits[j].handle }

  // Each handle waits once, and no grace has a number still to be given.
  ghost predicate Numbered(r: Registry) {
    forall key | key in r.mains ::
      OneEach(r.mains[key].waits) && (r.mains[key].grace.Some? ==> r.mains[key].grace.value.id < r.graces)
  }

  lemma OneMore(first: Wait, rest: seq<Wait>)
    requires OneEach(rest) && forall v | v in rest :: v.handle != first.handle
    ensures OneEach([first] + rest)
  {}

  lemma {:induction false} SetWaitSays(waits: seq<Wait>, w: Wait)
    requires OneEach(waits)
    ensures var after := SetWait(waits, w);
            OneEach(after) && forall v :: v in after <==> v == w || (v in waits && v.handle != w.handle)
  {
    if waits != [] {
      assert waits == [waits[0]] + waits[1..];
      SetWaitSays(waits[1..], w);
      if waits[0].handle == w.handle { OneMore(w, waits[1..]); }
      else { OneMore(waits[0], SetWait(waits[1..], w)); }
    }
  }

  lemma {:induction false} DropWaitSays(waits: seq<Wait>, handle: nat)
    requires OneEach(waits)
    ensures var after := DropWait(waits, handle);
            OneEach(after) && forall v :: v in after <==> v in waits && v.handle != handle
  {
    if waits != [] {
      assert waits == [waits[0]] + waits[1..];
      DropWaitSays(waits[1..], handle);
      if waits[0].handle != handle { OneMore(waits[0], DropWait(waits[1..], handle)); }
    }
  }

  lemma {:induction false} FindWaitSays(waits: seq<Wait>, handle: nat)
    requires OneEach(waits)
    ensures FindWait(waits, handle).None? <==> forall v | v in waits :: v.handle != handle
    ensures forall v | v in waits && v.handle == handle :: FindWait(waits, handle) == Some(v.taskIds)
  {
    if waits != [] {
      FindWaitSays(waits[1..], handle);
      assert waits == [waits[0]] + waits[1..];
    }
  }

  // The other entries are the same.
  ghost predicate SameElsewhere(r: Registry, s: Registry, key: Key) {
    forall other | other != key ::
      (other in s.mains <==> other in r.mains) && (other in r.mains ==> s.mains[other] == r.mains[other])
  }

  lemma SettleElsewhere(r: Registry, changed: Registry, key: Key, now: Time)
    requires SameElsewhere(r, changed, key)
    ensures SameElsewhere(r, Settle(changed, key, now), key)
  {
    hide Settle;
    forall other | other != key
      ensures var s := Settle(changed, key, now);
              (other in s.mains <==> other in r.mains) && (other in r.mains ==> s.mains[other] == r.mains[other])
    {
      SettleSays(changed, key, now, other);
    }
  }

  // What a settle makes of the waits and the grace: without a connection the grace ends.
  lemma SettleLeaves(changed: Registry, key: Key, now: Time)
    requires key in changed.mains
    ensures var s, e := Settle(changed, key, now), changed.mains[key];
            && s.connections == changed.connections && s.graces == changed.graces
            && WaitsOf(s, key) == WaitsOf(changed, key)
            && GraceOf(s, key) == (if e.connections <= 0 then None else e.grace)
            && (key in s.mains ==> s.mains[key].waits == e.waits && s.mains[key].connections == e.connections)
  {
    hide Public;
  }

  lemma NumberedStays(r: Registry, s: Registry, key: Key)
    requires Numbered(r) && SameElsewhere(r, s, key) && r.graces <= s.graces
    requires key in s.mains ==> OneEach(s.mains[key].waits)
    requires GraceOf(s, key).Some? ==> GraceOf(s, key).value.id < s.graces
    ensures Numbered(s)
  {
    hide OneEach;
  }

  lemma NumberedAt(r: Registry, key: Key)
    requires Numbered(r)
    ensures var e := EntryOf(r, key);
            && OneEach(e.waits) && (e.grace.Some? ==> e.grace.value.id < r.graces)
            && WaitsOf(r, key) == (set w | w in e.waits) && GraceOf(r, key) == e.grace
  {}

  // One entry was changed, and settled.
  lemma SettledDoes(r: Registry, changed: Registry, key: Key, now: Time)
    requires Numbered(r) && key in changed.mains && SameElsewhere(r, changed, key)
    requires OneEach(changed.mains[key].waits) && r.graces <= changed.graces
    requires changed.mains[key].grace.Some? ==> changed.mains[key].grace.value.id < changed.graces
    ensures var s, e := Settle(changed, key, now), changed.mains[key];
            && Numbered(s) && SameElsewhere(r, s, key)
            && s.connections == changed.connections && s.graces == changed.graces
            && WaitsOf(s, key) == (set w | w in e.waits)
            && GraceOf(s, key) == (if e.connections <= 0 then None else e.grace)
            && (key in s.mains ==> s.mains[key].connections == e.connections)
  {
    hide Settle, OneEach, Numbered, SameElsewhere;
    SettleElsewhere(r, changed, key, now);
    SettleLeaves(changed, key, now);
    NumberedStays(r, Settle(changed, key, now), key);
  }

  /** A wait that blocks is one of the Main's, in place of any under its handle, and ends
      the grace. */
  lemma BlockDoes(r: Registry, key: Key, handle: nat, taskIds: seq<TaskId>, now: Time)
    requires Numbered(r)
    ensures var s := BlockWait(r, key, handle, taskIds, now);
            && WaitsOf(s, key) == (set w | w in WaitsOf(r, key) && w.handle != handle) + {Wait(handle, taskIds)}
            && GraceOf(s, key) == None && Numbered(s) && s.connections == r.connections && SameElsewhere(r, s, key)
  {
    hide Settle, SetWait;
    var e := EntryOf(r, key);
    SetWaitSays(e.waits, Wait(handle, taskIds));
    var f := e.(waits := SetWait(e.waits, Wait(handle, taskIds)), grace := None);
    SettledDoes(r, Put(r, key, f), key, now);
  }

  // The one wait under a handle, if there is one.
  lemma WaitUnder(waits: seq<Wait>, handle: nat)
    requires OneEach(waits) && FindWait(waits, handle).Some?
    ensures Wait(handle, FindWait(waits, handle).value) in waits
  {
    FindWaitSays(waits, handle);
  }

  /** An answered wait is the Main's no longer. A heartbeat leaves it in a grace of its
      own number, for what the wait watched, or what a grace before it did; any other
      answer ends the grace, and so does there being no connection. */
  lemma CloseDoes(r: Registry, key: Key, handle: nat, heartbeat: bool, now: Time)
    requires Numbered(r)
    ensures var s := CloseWait(r, key, handle, heartbeat, now);
            && WaitsOf(s, key) == (set w | w in WaitsOf(r, key) && w.handle != handle)
            && Numbered(s) && s.connections == r.connections && SameElsewhere(r, s, key)
            && (!heartbeat || key !in r.mains || r.mains[key].connections <= 0 ==> 
                  GraceOf(s, key) == None || key !in r.mains)
            && (heartbeat && key in r.mains && r.mains[key].connections > 0 ==>
                  && (forall w | w in WaitsOf(r, key) && w.handle == handle ::
                        GraceOf(s, key) == Some(Grace(r.graces, w.taskIds)))
                  && ((forall w | w in WaitsOf(r, key) :: w.handle != handle) ==>
                        GraceOf(s, key) == if GraceOf(r, key).None? then None
                                           else Some(Grace(r.graces, GraceOf(r, key).value.taskIds))))
  {
    hide Settle, DropWait, FindWait;
    if key in r.mains {
      var e := r.mains[key];
      DropWaitSays(e.waits, handle);
      FindWaitSays(e.waits, handle);
      var taskIds, dropped := FindWait(e.waits, handle), e.(waits := DropWait(e.waits, handle));
      if !heartbeat { SettledDoes(r, Put(r, key, dropped.(grace := None)), key, now); }
      else if taskIds.Some? || e.grace.Some? {
        var grace := Grace(r.graces, if taskIds.Some? then taskIds.value else e.grace.value.taskIds);
        SettledDoes(r, Put(r, key, dropped.(grace := Some(grace))).(graces := r.graces + 1), key, now);
      } else { SettledDoes(r, Put(r, key, dropped), key, now); }
    }
  }

  /** Another call of the Main ends its grace; a timer ends the grace it was set for and
      no later one. Neither ends a wait. */
  lemma GraceDoes(r: Registry, key: Key, id: nat, now: Time)
    requires Numbered(r)
    ensures forall s | s in {EndGrace(r, key, now), Fire(r, key, id, now)} ::
              && Numbered(s) && s.connections == r.connections && SameElsewhere(r, s, key)
              && WaitsOf(s, key) == WaitsOf(r, key)
    ensures GraceOf(EndGrace(r, key, now), key) == None
    ensures GraceOf(r, key).Some? && GraceOf(r, key).value.id == id ==> GraceOf(Fire(r, key, id, now), key) == None
    ensures GraceOf(r, key).None? || GraceOf(r, key).value.id != id ==> Fire(r, key, id, now) == r
  {
    hide Settle;
    if key in r.mains { SettledDoes(r, Put(r, key, r.mains[key].(grace := None)), key, now); }
  }

  // How an entry is named once more.
  lemma AttachNames(r: Registry, connection: Connection, key: Key, now: Time)
    ensures var keys := if connection in r.connections then r.connections[connection] else {};
            var s := Attach(r, connection, key, now);
            && (key in keys || |keys| >= 1024 ==> s == r)
            && (key !in keys && |keys| < 1024 ==> s.connections == r.connections[connection := keys + {key}])
  {
    hide Public;
  }

  /** A connection names a Main once, up to 1,024 of them. */
  lemma AttachDoes(r: Registry, connection: Connection, key: Key, now: Time)
    ensures var keys := if connection in r.connections then r.connections[connection] else {};
            var s := Attach(r, connection, key, now);
            && (key in keys || |keys| >= 1024 ==> s == r)
            && (key !in keys && |keys| < 1024 ==> Naming(s, key) == Naming(r, key) + {connection})
            && (forall other | other != key :: Naming(s, other) == Naming(r, other))
  {
    AttachNames(r, connection, key, now);
    hide Attach;
    var keys := if connection in r.connections then r.connections[connection] else {};
    if key !in keys && |keys| < MAX_MAINS_PER_CONNECTION {
      NamesOne(r, Attach(r, connection, key, now), connection, key);
    }
  }

  // And no wait of it changes.
  lemma AttachWaits(r: Registry, connection: Connection, key: Key, now: Time)
    requires AtRest(r) && Numbered(r)
    ensures var s := Attach(r, connection, key, now);
            && Numbered(s) && SameElsewhere(r, s, key)
            && WaitsOf(s, key) == WaitsOf(r, key) && GraceOf(s, key) == GraceOf(r, key)
  {
    assert Rests(r, key, 0);
    hide Settle, AtRest, Numbered, Naming;
    NumberedAt(r, key);
    var keys := if connection in r.connections then r.connections[connection] else {};
    if key !in keys && |keys| < MAX_MAINS_PER_CONNECTION {
      var e, named := EntryOf(r, key), r.connections[connection := keys + {key}];
      SettledDoes(r, Put(r, key, e.(connections := e.connections + 1)).(connections := named), key, now);
    }
  }

  lemma {:induction false} LeaveAllDoes(r: Registry, order: seq<Key>, now: Time, key: Key)
    requires Numbered(r)
    ensures var s := LeaveAll(r, order, now);
            && Numbered(s) && s.connections == r.connections && WaitsOf(s, key) == WaitsOf(r, key)
            && (GraceOf(s, key) == GraceOf(r, key) || GraceOf(s, key) == None)
            && (key in s.mains && s.mains[key].connections > 0 ==> GraceOf(s, key) == GraceOf(r, key))
            && (key in s.mains ==> key in r.mains && s.mains[key].connections <= r.mains[key].connections)
    decreases |order|
  {
    hide Settle, Public;
    if order != [] {
      var m, last := LeaveAll(r, order[..|order| - 1], now), order[|order| - 1];
      LeaveAllDoes(r, order[..|order| - 1], now, key);
      LeaveDoes(m, last, now, key);
    }
  }

  lemma LeaveDoes(r: Registry, leaving: Key, now: Time, key: Key)
    requires Numbered(r)
    ensures var s := Leave(r, leaving, now);
            && Numbered(s) && s.connections == r.connections && WaitsOf(s, key) == WaitsOf(r, key)
            && (GraceOf(s, key) == GraceOf(r, key) || GraceOf(s, key) == None)
            && (key in s.mains && s.mains[key].connections > 0 ==> GraceOf(s, key) == GraceOf(r, key))
            && (key in s.mains ==> key in r.mains && s.mains[key].connections <= r.mains[key].connections)
  {
    hide Settle, OneEach, Numbered;
    if leaving in r.mains {
      var e := r.mains[leaving];
      NumberedAt(r, leaving);
      SettledDoes(r, Put(r, leaving, e.(connections := e.connections - 1)), leaving, now);
    }
  }

  /** A connection that closes names nothing any more. No wait changes, and a grace ends
      exactly where no connection is left. */
  lemma DetachDoes(r: Registry, connection: Connection, order: seq<Key>, now: Time, key: Key)
    requires AtRest(r) && Numbered(r) && (connection in r.connections ==> Orders(order, r.connections[connection]))
    ensures var s := Detach(r, connection, order, now);
            && Numbered(s) && Naming(s, key) == Naming(r, key) - {connection} && WaitsOf(s, key) == WaitsOf(r, key)
            && GraceOf(s, key) == if Naming(s, key) == {} then None else GraceOf(r, key)
  {
    DetachRests(r, connection, order, now);
    var s := Detach(r, connection, order, now);
    assert Rests(r, key, 0) && Rests(s, key, 0);
    if connection in r.connections {
      LeaveAllDoes(r.(connections := r.connections - {connection}), order, now, key);
      hide LeaveAll, Public, LastOf, AtRest;
      assert Naming(s, key) == Naming(r, key) - {connection};
    }
  }

  /** What the events say a Main is blocked in: each wait from when it blocked until it
      was answered. */
  ghost function BlockedIn(es: seq<Event>, key: Key): set<Wait>
    decreases |es|
  {
    if es == [] then {}
    else
      var before := BlockedIn(es[..|es| - 1], key);
      match es[|es| - 1]
      case Blocks(k, handle, taskIds, _) =>
        if k == key then (set w | w in before && w.handle != handle) + {Wait(handle, taskIds)} else before
      case Closes(k, handle, _, _) => if k == key then set w | w in before && w.handle != handle else before
      case _ => before
  }

  lemma {:induction false} RunBlocked(es: seq<Event>, key: Key)
    ensures WaitsOf(Run(es), key) == BlockedIn(es, key) && Numbered(Run(es))
    decreases |es|
  {
    if es != [] {
      var before, e := es[..|es| - 1], es[|es| - 1];
      RunBlocked(before, key);
      RunRests(before);
      assert Run(es) == Next(Run(before), e);
      hide Run, AtRest, Next, Numbered;
      NextBlocks(Run(before), e, key);
    }
  }

  lemma NextBlocks(r: Registry, e: Event, key: Key)
    requires AtRest(r) && Numbered(r)
    ensures Numbered(Next(r, e))
    ensures WaitsOf(Next(r, e), key) ==
      match e
      case Blocks(k, handle, taskIds, _) =>
        if k == key then (set w | w in WaitsOf(r, key) && w.handle != handle) + {Wait(handle, taskIds)}
        else WaitsOf(r, key)
      case Closes(k, handle, _, _) =>
        if k == key then set w | w in WaitsOf(r, key) && w.handle != handle else WaitsOf(r, key)
      case _ => WaitsOf(r, key)
  {
    hide AtRest, Numbered, Attach, Detach, BlockWait, CloseWait, EndGrace, Fire, GraceOf, Orders;
    match e
    case Attaches(connection, k, now) => AttachWaits(r, connection, k, now);
    case Detaches(connection, order, now) =>
      if Possible(r, e) { DetachDoes(r, connection, order, now, key); }
    case Blocks(k, handle, taskIds, now) => BlockDoes(r, k, handle, taskIds, now);
    case Closes(k, handle, heartbeat, now) => CloseDoes(r, k, handle, heartbeat, now);
    case Acts(k, now) => GraceDoes(r, k, 0, now);
    case Fires(k, id, now) => GraceDoes(r, k, id, now);
  }

  ghost predicate Once(ids: seq<TaskId>) { forall i, j | 0 <= i < j < |ids| :: ids[i] != ids[j] }

  lemma {:induction false} DistinctIs(ids: seq<TaskId>)
    ensures var d := Distinct(ids);
            Once(d) && forall id :: id in d <==> id in ids
    decreases |ids|
  {
    if ids != [] {
      var rest, last := ids[..|ids| - 1], ids[|ids| - 1];
      DistinctIs(rest);
      assert ids == rest + [last];
      assert forall id :: id in Distinct(rest) + [last] <==> id in Distinct(rest) || id == last;
    }
  }

  lemma {:induction false} WatchedIs(waits: seq<Wait>, id: TaskId)
    ensures id in Watched(waits) <==> exists w :: w in waits && id in w.taskIds
  {
    if waits != [] {
      WatchedIs(waits[1..], id);
      assert waits == [waits[0]] + waits[1..];
    }
  }

  lemma AllWatched(waits: seq<Wait>, linger: seq<TaskId>, blocked: set<Wait>)
    requires blocked == set w | w in waits
    ensures forall id :: id in Distinct(Watched(waits) + linger) <==>
                           (exists w :: w in blocked && id in w.taskIds) || id in linger
    ensures Once(Distinct(Watched(waits) + linger))
    ensures blocked == {} <==> waits == []
  {
    hide Distinct, Watched;
    DistinctIs(Watched(waits) + linger);
    forall id ensures id in Watched(waits) <==> exists w :: w in blocked && id in w.taskIds { WatchedIs(waits, id); }
    if waits != [] { assert waits[0] in blocked; }
  }

  /** A Main is listed as waiting exactly while a wait of it is blocked or its grace
      lasts, with exactly the tasks these watch, each once. */
  lemma WaitingExactly(es: seq<Event>, key: Key)
    requires Listed(Run(es), key).Some?
    ensures var m, grace := Listed(Run(es), key).value.main, GraceOf(Run(es), key);
            && m.Some? && (m.value.waiting <==> BlockedIn(es, key) != {} || grace.Some?)
            && (forall id :: id in m.value.taskIds <==>
                  || (exists w :: w in BlockedIn(es, key) && id in w.taskIds)
                  || (grace.Some? && id in grace.value.taskIds))
            && Once(m.value.taskIds)
  {
    var r := Run(es);
    RunRests(es);
    RunBlocked(es, key);
    assert Rests(r, key, 0);
    hide Run, LastOf, Naming, Distinct, Watched, AtRest, BlockedIn, Numbered;
    var e := r.mains[key];
    var linger := if e.grace.Some? then e.grace.value.taskIds else [];
    AllWatched(e.waits, linger, BlockedIn(es, key));
  }

  // Since when an entry is as it is, once settled.
  lemma SettledSince(changed: Registry, key: Key, now: Time)
    requires key in changed.mains && key in Settle(changed, key, now).mains
    ensures var e, f := changed.mains[key], Settle(changed, key, now).mains[key];
            && f.status == Some(f.waits != [] || f.grace.Some?) && f.waits == e.waits
            && (f.grace == e.grace || f.grace == None)
            && f.since == if f.status == e.status then e.since else now
  {
    hide Public;
  }

  // The entry is as it was since it was so, or since now.
  predicate SinceNow(was: Entry, e: Entry, now: Time) {
    e.since == if e.status == was.status then was.since else now
  }

  // A closing connection only ends graces, and each entry once.
  lemma {:induction false} LeaveAllSince(r: Registry, order: seq<Key>, key: Key, now: Time)
    requires key in r.mains && r.mains[key].status == Some(r.mains[key].waits != [] || r.mains[key].grace.Some?)
    ensures var s := LeaveAll(r, order, now);
            key in s.mains ==>
              && SinceNow(r.mains[key], s.mains[key], now) && s.mains[key].waits == r.mains[key].waits
              && s.mains[key].status == Some(s.mains[key].waits != [] || s.mains[key].grace.Some?)
              && (s.mains[key].grace == r.mains[key].grace || s.mains[key].grace == None)
    decreases |order|
  {
    hide Settle;
    if order != [] {
      var m, last := LeaveAll(r, order[..|order| - 1], now), order[|order| - 1];
      LeaveAllSince(r, order[..|order| - 1], key, now);
      if last in m.mains {
        var left := Put(m, last, m.mains[last].(connections := m.mains[last].connections - 1));
        if last == key { if key in Settle(left, key, now).mains { SettledSince(left, key, now); } }
        else { SettleSays(left, last, now, key); }
      }
    }
  }

  lemma {:induction false} LeaveAllMakesNone(r: Registry, order: seq<Key>, now: Time)
    ensures LeaveAll(r, order, now).mains.Keys <= r.mains.Keys
    decreases |order|
  {
    hide Public;
    if order != [] { LeaveAllMakesNone(r, order[..|order| - 1], now); }
  }

  // One entry was changed, and settled.
  lemma ChangedSince(r: Registry, changed: Registry, changing: Key, now: Time, key: Key)
    requires AtRest(r) && changing in changed.mains && changed.mains.Keys == r.mains.Keys + {changing}
    requires forall other | other in r.mains && other != changing :: changed.mains[other] == r.mains[other]
    requires changed.mains[changing].status == EntryOf(r, changing).status
    requires changed.mains[changing].since == EntryOf(r, changing).since
    ensures var s := Settle(changed, changing, now);
            key in s.mains ==> SinceNow(EntryOf(r, key), s.mains[key], now) && (key in r.mains || key == changing)
  {
    assert Rests(r, changing, 0);
    hide Settle, Public, Naming, LastOf, AtRest;
    if key != changing { SettleSays(changed, changing, now, key); }
    else if key in Settle(changed, key, now).mains { SettledSince(changed, key, now); }
  }

  lemma SinceThen(r: Registry, key: Key, now: Time)
    requires key in r.mains
    ensures SinceNow(EntryOf(r, key), r.mains[key], now)
  {}

  lemma NextSince(r: Registry, e: Event, key: Key)
    requires AtRest(r) && key in Next(r, e).mains
    ensures SinceNow(EntryOf(r, key), Next(r, e).mains[key], e.now)
  {
    hide AtRest, SinceNow, EntryOf, Attach, Detach, BlockWait, CloseWait, EndGrace, Fire;
    if !Possible(r, e) {
      SinceThen(r, key, e.now);
    } else {
      match e
      case Attaches(connection, k, now) => AttachSince(r, connection, k, now, key);
      case Detaches(connection, order, now) => DetachSince(r, connection, order, now, key);
      case Blocks(k, handle, taskIds, now) => BlockSince(r, k, handle, taskIds, now, key);
      case Closes(k, handle, heartbeat, now) => CloseSince(r, k, handle, heartbeat, now, key);
      case Acts(k, now) => GraceSince(r, k, 0, now, key);
      case Fires(k, id, now) => GraceSince(r, k, id, now, key);
    }
  }

  lemma AttachSince(r: Registry, connection: Connection, k: Key, now: Time, key: Key)
    requires AtRest(r) && key in Attach(r, connection, k, now).mains
    ensures SinceNow(EntryOf(r, key), Attach(r, connection, k, now).mains[key], now)
  {
    hide Settle, AtRest;
    var keys := if connection in r.connections then r.connections[connection] else {};
    var e, named := EntryOf(r, k), r.connections[connection := keys + {k}];
    ChangedSince(r, Put(r, k, e.(connections := e.connections + 1)).(connections := named), k, now, key);
  }

  lemma DetachSince(r: Registry, connection: Connection, order: seq<Key>, now: Time, key: Key)
    requires AtRest(r) && key in Detach(r, connection, order, now).mains
    ensures SinceNow(EntryOf(r, key), Detach(r, connection, order, now).mains[key], now)
  {
    assert Rests(r, key, 0);
    hide LeaveAll, Public, Naming, LastOf, AtRest;
    if connection in r.connections {
      var without := r.(connections := r.connections - {connection});
      LeaveAllMakesNone(without, order, now);
      LeaveAllSince(without, order, key, now);
    }
  }

  lemma BlockSince(r: Registry, k: Key, handle: nat, taskIds: seq<TaskId>, now: Time, key: Key)
    requires AtRest(r) && key in BlockWait(r, k, handle, taskIds, now).mains
    ensures SinceNow(EntryOf(r, key), BlockWait(r, k, handle, taskIds, now).mains[key], now)
  {
    hide Settle, AtRest, SetWait;
    var e := EntryOf(r, k);
    ChangedSince(r, Put(r, k, e.(waits := SetWait(e.waits, Wait(handle, taskIds)), grace := None)), k, now, key);
  }

  lemma GraceSince(r: Registry, k: Key, id: nat, now: Time, key: Key)
    requires AtRest(r)
    ensures forall s | s in {EndGrace(r, k, now), Fire(r, k, id, now)} && key in s.mains ::
              SinceNow(EntryOf(r, key), s.mains[key], now)
  {
    hide Settle, AtRest;
    if k in r.mains { ChangedSince(r, Put(r, k, r.mains[k].(grace := None)), k, now, key); }
  }

  lemma CloseSince(r: Registry, k: Key, handle: nat, heartbeat: bool, now: Time, key: Key)
    requires AtRest(r) && key in CloseWait(r, k, handle, heartbeat, now).mains
    ensures SinceNow(EntryOf(r, key), CloseWait(r, k, handle, heartbeat, now).mains[key], now)
  {
    hide Settle, AtRest, DropWait, FindWait;
    if k in r.mains {
      var e := r.mains[k];
      var taskIds, dropped := FindWait(e.waits, handle), e.(waits := DropWait(e.waits, handle));
      if !heartbeat { ChangedSince(r, Put(r, k, dropped.(grace := None)), k, now, key); }
      else if taskIds.Some? || e.grace.Some? {
        var grace := Grace(r.graces, if taskIds.Some? then taskIds.value else e.grace.value.taskIds);
        ChangedSince(r, Put(r, k, dropped.(grace := Some(grace))).(graces := r.graces + 1), k, now, key);
      } else { ChangedSince(r, Put(r, k, dropped), k, now, key); }
    }
  }

  /** A Main is listed as waiting, or not, since the event that made it so. */
  lemma SinceIsLastChange(es: seq<Event>, e: Event, key: Key)
    requires Listed(Run(es + [e]), key).Some?
    ensures var was, is' := Listed(Run(es), key), Listed(Run(es + [e]), key).value.main.value;
            is'.since == if was.Some? && was.value.main.value.waiting == is'.waiting then was.value.main.value.since
                         else e.now
  {
    assert (es + [e])[..|es|] == es;
    RunRests(es);
    RunRests(es + [e]);
    assert Rests(Run(es), key, 0) && Rests(Run(es + [e]), key, 0);
    NextSince(Run(es), e, key);
    assert Run(es + [e]) == Next(Run(es), e);
    hide Run, Next, AtRest, LastOf, Naming, Distinct, Watched;
  }
}

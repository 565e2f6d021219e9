/** The registry of Mains as it updates its entries in place (src/main-status.js:26-208). */
module MainRegistry {
  import opened Wrappers
  import opened M = MainStatus

  class MainRegistry {
    var mains: map<Key, Entry>
    var connections: map<Connection, set<Key>>
    var revision: nat
    var graces: nat
    ghost var events: seq<Item>

    constructor ()
      ensures Valid() && State() == EMPTY
    {
      mains, connections, revision, graces, events := map[], map[], 0, 0, [];
      new;
      RunRests([]);
    }

    /** Every entry is held and counted rightly, and what is reported of it is what it is. */
    ghost predicate Valid()
      reads this
    {
      AtRest(State())
    }

    ghost function State(): Registry
      reads this
    {
      Registry(mains, connections, revision, graces, events)
    }

    // onChange: what a subscription is told.
    method Emit(item: Item)
      modifies `events
      ensures events == old(events) + [item]
    {
      events := events + [item];
    }

    method EntryOf(key: Key) returns (e: Entry)
      modifies `mains
      ensures e == M.EntryOf(old(State()), key) && mains == old(mains)[key := e]
    {
      if key !in mains { mains := mains[key := FreshEntry()]; }
      e := mains[key];
    }

    /** Where the entry stands now; reported only when what is read of it changed. */
    method Settle(key: Key, now: Time)
      modifies this
      ensures State() == M.Settle(old(State()), key, now)
    {
      hide Public;
      if key !in mains { return; }
      var e := mains[key];
      if e.connections <= 0 { e := e.(grace := None); }
      if e.waits == [] && e.grace.None? && e.connections <= 0 {
        mains := mains - {key};
        revision := revision + 1;
        Emit(Item(key, None, revision));
        return;
      }
      var waiting := e.waits != [] || e.grace.Some?;
      if e.status != Some(waiting) { e := e.(status := Some(waiting), since := now); }
      var main := Public(e);
      if e.shown != Some(main) {
        revision := revision + 1;
        e := e.(shown := Some(main), revision := revision);
        Emit(Item(key, Some(main), revision));
      }
      mains := mains[key := e];
    }

    /** A control request on a connection named a Main. */
    method Attach(connection: Connection, key: Key, now: Time)
      requires Valid()
      modifies this
      ensures Valid() && State() == M.Attach(old(State()), connection, key, now)
    {
      hide AtRest, M.Settle;
      NextRests(State(), Attaches(connection, key, now));
      var keys := if connection in connections then connections[connection] else {};
      if key in keys || |keys| >= MAX_MAINS_PER_CONNECTION { return; }
      connections := connections[connection := keys + {key}];
      var e := EntryOf(key);
      mains := mains[key := e.(connections := e.connections + 1)];
      assert mains == old(mains)[key := mains[key]];
      Settle(key, now);
    }

    /** The connection closed. */
    method Detach(connection: Connection, now: Time) returns (ghost order: seq<Key>)
      requires Valid()
      modifies this
      ensures connection in old(connections) ==> Orders(order, old(connections)[connection])
      ensures Valid() && State() == M.Detach(old(State()), connection, order, now)
    {
      hide AtRest, M.Settle;
      ghost var before := State();
      order := [];
      if connection !in connections {
        NextRests(before, Detaches(connection, order, now));
        return;
      }
      var keys := connections[connection];
      connections := connections - {connection};
      ghost var start := State();
      var left := keys;
      while left != {}
        invariant left <= keys && Orders(order, keys - left)
        invariant State() == LeaveAll(start, order, now)
        decreases |left|
      {
        var key :| key in left;
        left := left - {key};
        ghost var passed := order;
        order := order + [key];
        assert order[..|order| - 1] == passed;
        if key in mains {
          mains := mains[key := mains[key].(connections := mains[key].connections - 1)];
          Settle(key, now);
        }
      }
      assert keys - left == keys;
      NextRests(before, Detaches(connection, order, now));
    }

    /** A wait blocks: its Main sleeps on these tasks. */
    method BlockWait(key: Key, handle: nat, taskIds: seq<TaskId>, now: Time)
      requires Valid()
      modifies this
      ensures Valid() && State() == M.BlockWait(old(State()), key, handle, taskIds, now)
    {
      hide AtRest, M.Settle;
      NextRests(State(), Blocks(key, handle, taskIds, now));
      var e := EntryOf(key);
      mains := mains[key := e.(waits := SetWait(e.waits, Wait(handle, taskIds)), grace := None)];
      assert mains == old(mains)[key := mains[key]];
      Settle(key, now);
    }

    /** A wait answered, with a heartbeat or for any other reason. */
    method CloseWait(key: Key, handle: nat, heartbeat: bool, now: Time)
      requires Valid()
      modifies this
      ensures Valid() && State() == M.CloseWait(old(State()), key, handle, heartbeat, now)
    {
      hide AtRest, M.Settle, DropWait, FindWait;
      NextRests(State(), Closes(key, handle, heartbeat, now));
      if key !in mains { return; }
      var e := mains[key];
      var taskIds := FindWait(e.waits, handle);
      e := e.(waits := DropWait(e.waits, handle));
      if !heartbeat {
        e := e.(grace := None);
      } else if taskIds.Some? || e.grace.Some? {
        e := e.(grace := Some(Grace(graces, if taskIds.Some? then taskIds.value else e.grace.value.taskIds)));
        graces := graces + 1;
      }
      mains := mains[key := e];
      Settle(key, now);
    }

    /** The Main made another call: it is awake. */
    method Activity(key: Key, now: Time)
      requires Valid()
      modifies this
      ensures Valid() && State() == M.EndGrace(old(State()), key, now)
    {
      hide AtRest, M.Settle;
      NextRests(State(), Acts(key, now));
      if key !in mains || mains[key].grace.None? { return; }
      mains := mains[key := mains[key].(grace := None)];
      Settle(key, now);
    }

    // The timer of a grace.
    method GraceEnds(key: Key, id: nat, now: Time)
      requires Valid()
      modifies this
      ensures Valid() && State() == M.Fire(old(State()), key, id, now)
    {
      hide AtRest;
      NextRests(State(), Fires(key, id, now));
      if key !in mains || mains[key].grace.None? || mains[key].grace.value.id != id { return; }
      Activity(key, now);
    }
  }
}

/** The task store and the barriers around it as they update their records in
    place (src/task-store.js:372-456, src/gateway-service.js:2360-2385,
    2495-2514, 4014-4085), kept sound by what TaskLedger proves. How a write fares is
    the caller's to say. */
module TaskStore {
  import opened Wrappers
  import L = TaskLedger

  class TaskStore {
    const mode: L.Mode
    var tasks: L.Tasks
    // Terminal records whose outcome may not be handed out yet.
    var deferred: set<nat>
    var disk: L.Tasks
    var pending: seq<L.Record>
    var persistError: bool
    var next: nat
    ghost var sent: set<nat>
    ghost var told: set<L.Outcome>

    constructor (mode: L.Mode)
      ensures Valid() && this.mode == mode && State() == L.Empty(mode) && deferred == {}
    {
      this.mode := mode;
      tasks, deferred, disk, pending, persistError, next := map[], {}, map[], [], false, 0;
      sent, told := {}, {};
      new;
      L.EmptySound(mode);
    }

    ghost function State(): L.Ledger
      reads this
    {
      L.Ledger(mode, tasks, disk, pending, sent, told, next)
    }

    /** What memory has promised holds of whatever a crash would leave. */
    ghost predicate Valid()
      reads this
    {
      L.Sound(State())
    }

    // ----- The state store, as its caller sees it -----

    // A record that a crash may lose; held says whether it reached the log.
    method Append(r: L.Record, held: bool)
      modifies `pending
      ensures State() == L.Append(old(State()), r, held)
    {
      if mode.Wal? && held { pending := pending + [r]; }
    }

    // A record that is synced, or not; a failed sync can leave it in the log.
    method AppendDurable(r: L.Record, fate: L.Fate)
      modifies `disk, `pending
      ensures State() == L.AppendDurable(old(State()), r, fate)
    {
      if fate.Refused? { return; }
      if mode.Wal? {
        pending := pending + [r];
        if fate.Synced? { disk, pending := L.Replay(disk, pending), []; }
      } else if fate.Synced? {
        disk, pending := tasks, [];
      }
    }

    // ----- The store -----

    // The first terminal status of a record is final.
    method Transition(id: nat, status: L.Status, result: Option<L.Result>, deferWaiters: bool)
      requires id in tasks
      modifies `tasks, `deferred, `told
      ensures var before := old(tasks[id]);
              if L.Terminal(before.status) then tasks == old(tasks) && told == old(told) && deferred == old(deferred)
              else
                var t := before.(status := status, result := if L.Terminal(status) then result else before.result);
                && tasks == old(tasks)[id := t]
                && deferred == (if L.Terminal(status) && deferWaiters then old(deferred) + {id} else old(deferred))
                && told == (if L.Terminal(status) && !deferWaiters then
                  old(told) + {L.Outcome(id, t.status, t.result)} else old(told))
    {
      var t := tasks[id];
      if L.Terminal(t.status) { return; }
      t := t.(status := status);
      if L.Terminal(status) { t := t.(result := result); }
      tasks := tasks[id := t];
      if L.Terminal(status) {
        if deferWaiters { deferred := deferred + {id}; } else { ResolveWaiters(id); }
      }
    }

    method ResolveWaiters(id: nat)
      requires id in tasks
      modifies `told
      ensures told == old(told) + {L.Outcome(id, tasks[id].status, tasks[id].result)}
    {
      told := told + {L.Outcome(id, tasks[id].status, tasks[id].result)};
    }

    method FlushWaiters(id: nat)
      requires id in tasks && id in deferred
      modifies `told, `deferred
      ensures deferred == old(deferred) - {id}
      ensures told == old(told) + {L.Outcome(id, tasks[id].status, tasks[id].result)}
    {
      deferred := deferred - {id};
      ResolveWaiters(id);
    }

    method FailDeferredTerminal(id: nat)
      requires id in tasks && id in deferred
      modifies `tasks, `told, `deferred
      ensures deferred == old(deferred) - {id}
      ensures tasks == old(tasks)[id := old(tasks[id]).(status := L.Failed, result := Some(L.NotPersisted))]
      ensures told == old(told) + {L.Outcome(id, L.Failed, Some(L.NotPersisted))}
    {
      tasks := tasks[id := tasks[id].(status := L.Failed, result := Some(L.NotPersisted))];
      deferred := deferred - {id};
      ResolveWaiters(id);
    }

    // A status that ends nothing (updateTaskForSession): logged when it is news.
    method Progress(id: nat, status: L.Status, news: bool, held: bool)
      requires Valid() && !L.Terminal(status)
      modifies `tasks, `deferred, `told, `pending
      ensures Valid() && State() == L.Move(old(State()), id, status, news, held) && deferred == old(deferred)
    {
      hide L.Sound;
      L.MoveKeeps(State(), id, status, news, held);
      if id !in tasks { return; }
      var before := tasks[id];
      Transition(id, status, None, false);
      if (tasks[id] != before || news) && !L.Terminal(before.status) {
        Append(L.Changed(id, status, tasks[id].turn, tasks[id].dispatched), held);
      }
    }

    method AttachTurn(id: nat, turn: nat)
      requires Valid()
      modifies `tasks
      ensures Valid() && State() == L.Attach(old(State()), id, turn)
    {
      hide L.Sound;
      L.AttachKeeps(State(), id, turn);
      if id in tasks { tasks := tasks[id := tasks[id].(turn := Some(turn))]; }
    }

    method Remove(id: nat, held: bool)
      modifies `tasks, `deferred, `pending
      ensures State() == L.Remove(old(State()), id, held) && deferred == old(deferred) - {id}
    {
      deferred := deferred - {id};
      if id in tasks {
        tasks := tasks - {id};
        Append(L.Removed(id), held);
      }
    }

    method MarkPromptDispatched(id: nat)
      modifies `tasks
      ensures State() == L.Mark(old(State()), id, true)
    {
      if id in tasks { tasks := tasks[id := tasks[id].(dispatched := true)]; }
    }

    method ClearPromptDispatched(id: nat)
      modifies `tasks
      ensures State() == L.Mark(old(State()), id, false)
    {
      if id in tasks { tasks := tasks[id := tasks[id].(dispatched := false)]; }
    }

    // ----- The gateway's barriers -----

    /** A handle is durable before its turn starts, or there is no handle. */
    method CreateTask(fate: L.Fate, held: bool) returns (id: Option<nat>)
      requires Valid()
      modifies `tasks, `deferred, `disk, `pending, `next, `persistError
      ensures Valid() && State() == L.Create(old(State()), fate, held)
      ensures id == if fate.Synced? then Some(old(next)) else None
    {
      hide L.Sound;
      L.CreateKeeps(State(), fate, held);
      var made := next;
      next := next + 1;
      tasks := tasks[made := L.FRESH];
      AppendDurable(L.Created(made, L.FRESH), fate);
      if !fate.Synced? {
        persistError := true;
        Remove(made, held);
        return None;
      }
      persistError := false;
      id := Some(made);
    }

    /** The dispatch stamp: whether it stands, and whether its write failed. */
    method StampPromptDispatched(id: nat, fate: L.Fate) returns (stamped: bool, failed: bool)
      modifies `tasks, `disk, `pending, `persistError
      ensures State() == L.Stamp(old(State()), id, fate)
      ensures stamped <==> L.Stampable(old(State()), id) && fate.Synced?
      ensures failed <==> L.Stampable(old(State()), id) && !fate.Synced?
    {
      stamped, failed := false, false;
      if id !in tasks || L.Terminal(tasks[id].status) { return; }
      var t := tasks[id];
      if mode.SnapshotOnly? { MarkPromptDispatched(id); }
      AppendDurable(L.Changed(id, t.status, t.turn, true), fate);
      if !fate.Synced? {
        if mode.SnapshotOnly? { ClearPromptDispatched(id); }
        persistError, failed := true, true;
        return;
      }
      persistError := false;
      if mode.Wal? { MarkPromptDispatched(id); }
      stamped := true;
    }

    /** Stamps a prompt, sends it if the worker takes it, and withdraws the stamp if not. */
    method SendPrompt(id: nat, fate: L.Fate, workerTakesIt: bool) returns (leaves: bool)
      requires Valid() && id !in sent && (id in tasks ==> !L.Terminal(tasks[id].status))
      modifies `tasks, `disk, `pending, `persistError, `sent
      ensures Valid() && State() == L.Dispatch(old(State()), id, fate, workerTakesIt)
      ensures leaves <==> workerTakesIt && (L.Stampable(old(State()), id) ==> fate.Synced?)
    {
      hide L.Sound;
      L.DispatchKeeps(State(), id, fate, workerTakesIt);
      leaves := false;
      var stamped, failed := StampPromptDispatched(id, fate);
      if failed { return; }
      if !workerTakesIt {
        if stamped { ClearPromptDispatched(id); }
        return;
      }
      if id in tasks { sent := sent + {id}; }
      leaves := true;
    }

    /** The one way a task ends: durable before anyone is told. */
    method CommitTaskTerminal(id: nat, status: L.Status, result: Option<L.Result>, fate: L.Fate)
      requires Valid() && L.Terminal(status)
      modifies `tasks, `deferred, `disk, `pending, `persistError, `told
      ensures Valid() && State() == L.Commit(old(State()), id, status, result, fate)
      ensures id !in old(deferred) ==> deferred == old(deferred)
    {
      hide L.Sound;
      L.CommitKeeps(State(), id, status, result, fate);
      if id !in tasks || L.Terminal(tasks[id].status) { return; }
      var provisional := mode.SnapshotOnly?;
      if provisional { Transition(id, status, result, true); }
      AppendDurable(L.Committed(id, status, result), fate);
      if !fate.Synced? {
        persistError := true;
        if provisional {
          FailDeferredTerminal(id);
        } else {
          Transition(id, L.Failed, Some(L.NotPersisted), false);
        }
        return;
      }
      if provisional {
        FlushWaiters(id);
        return;
      }
      Transition(id, status, result, false);
    }

    // A handle that is taken back, or expires.
    method Forget(id: nat, held: bool)
      requires Valid()
      modifies `tasks, `deferred, `pending
      ensures Valid() && State() == L.Remove(old(State()), id, held)
    {
      hide L.Sound;
      L.RemoveKeeps(State(), id, held);
      Remove(id, held);
    }

    // A waiter that arrives late: it is told at once if there is an outcome to hand out.
    method WaitForTerminal(id: nat) returns (ready: bool)
      requires Valid()
      modifies `told
      ensures Valid()
      ensures ready <==> id in tasks && L.Terminal(tasks[id].status) && id !in deferred
      ensures State() == if ready then L.Tell(old(State()), id) else old(State())
    {
      hide L.Sound;
      L.TellKeeps(State(), id);
      ready := id in tasks && L.Terminal(tasks[id].status) && id !in deferred;
      if ready { ResolveWaiters(id); }
    }
  }
}

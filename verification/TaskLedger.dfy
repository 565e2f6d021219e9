/** Tasks in memory and in the durable state, with a crash after any step
    (src/task-store.js, the log rules of src/state-store.js:642-706, and the
    write-ahead barriers of src/gateway-service.js). */
module TaskLedger {
  import opened Wrappers

  datatype Status = Working | InputRequired | Completed | Failed | Cancelled

  predicate Terminal(status: Status) { status.Completed? || status.Failed? || status.Cancelled? }

  /** A worker's answer, or the two outcomes that the gateway writes itself. */
  datatype Result = Answer(id: nat) | NotPersisted | Restarted

  datatype Task = Task(status: Status, result: Option<Result>, dispatched: bool, turn: Option<nat>)

  type Tasks = map<nat, Task>

  const FRESH := Task(Working, None, false, None)

  // ----- The log -----

  datatype Record =
    | Created(id: nat, task: Task)
    | Changed(id: nat, status: Status, turn: Option<nat>, dispatched: bool)
    | Committed(id: nat, status: Status, result: Option<Result>)
    | Removed(id: nat)

  function Apply(m: Tasks, r: Record): Tasks {
    match r
    case Created(id, task) => if id in m then m else m[id := task]
    case Changed(id, status, turn, dispatched) =>
      if id in m && !Terminal(m[id].status)
      then m[id := m[id].(status := status, turn := turn, dispatched := m[id].dispatched || dispatched)]
      else m
    case Committed(id, status, result) =>
      if id !in m || (Terminal(m[id].status) && m[id].result.Some?) then m
      else m[id := m[id].(status := status, result := result)]
    case Removed(id) => m - {id}
  }

  function Replay(m: Tasks, rs: seq<Record>): Tasks {
    if rs == [] then m else Apply(Replay(m, rs[..|rs| - 1]), rs[|rs| - 1])
  }

  // What a restart makes of a task: one in flight has failed.
  function Recovered(t: Task): Task {
    if Terminal(t.status) then t else t.(status := Failed, result := Some(Restarted))
  }

  /** Whether an interrupted task is reported as never having reached the worker. */
  predicate NotStarted(t: Task) { !t.dispatched }

  // ----- Memory and disk together -----

  datatype Mode = Wal | SnapshotOnly

  /** What became of a durable write: done, left in the log unsynced, or not made. */
  datatype Fate = Synced | Unsynced | Refused

  datatype Outcome = Outcome(id: nat, status: Status, result: Option<Result>)

  /** The tasks in memory; the state a crash cannot take (disk) and the records
      since then, of which it leaves a prefix (pending). sent and told are
      history: prompts handed to a worker, outcomes handed to a waiter or subscriber. */
  datatype Ledger = Ledger(mode: Mode, tasks: Tasks, disk: Tasks, pending: seq<Record>,
                           sent: set<nat>, told: set<Outcome>, next: nat)

  function Empty(mode: Mode): Ledger { Ledger(mode, map[], map[], [], {}, {}, 0) }

  function Append(l: Ledger, r: Record, held: bool): (a: Ledger)
    ensures a == l.(pending := a.pending)
  {
    if l.mode.Wal? && held then l.(pending := l.pending + [r]) else l
  }

  function AppendDurable(l: Ledger, r: Record, fate: Fate): (a: Ledger)
    ensures a == l.(disk := a.disk, pending := a.pending)
  {
    if fate.Refused? then l
    else if l.mode.Wal? then
      if fate.Synced? then l.(disk := Replay(l.disk, l.pending + [r]), pending := []) else Append(l, r, true)
    else if fate.Synced? then l.(disk := l.tasks, pending := [])
    else l
  }

  function Remove(l: Ledger, id: nat, held: bool): Ledger {
    if id !in l.tasks then l else Append(l.(tasks := l.tasks - {id}), Removed(id), held)
  }

  /** A new handle (taskPrompt): durable before the turn starts, or taken back. */
  function Create(l: Ledger, fate: Fate, held: bool): Ledger {
    var id := l.next;
    var made := AppendDurable(l.(tasks := l.tasks[id := FRESH], next := id + 1), Created(id, FRESH), fate);
    if fate.Synced? then made else Remove(made, id, held)
  }

  /** A status that ends nothing, logged when it says something new. */
  function Move(l: Ledger, id: nat, status: Status, news: bool, held: bool): Ledger
    requires !Terminal(status)
  {
    if id !in l.tasks || Terminal(l.tasks[id].status) then l
    else
      var t := l.tasks[id].(status := status);
      var moved := l.(tasks := l.tasks[id := t]);
      if t != l.tasks[id] || news then Append(moved, Changed(id, status, t.turn, t.dispatched), held) else moved
  }

  function Attach(l: Ledger, id: nat, turn: nat): Ledger {
    if id !in l.tasks then l else l.(tasks := l.tasks[id := l.tasks[id].(turn := Some(turn))])
  }

  function Mark(l: Ledger, id: nat, dispatched: bool): Ledger {
    if id !in l.tasks then l else l.(tasks := l.tasks[id := l.tasks[id].(dispatched := dispatched)])
  }

  predicate Stampable(l: Ledger, id: nat) { id in l.tasks && !Terminal(l.tasks[id].status) }

  /** #stampPromptDispatched: the stamp is in memory only once it is durable. */
  function Stamp(l: Ledger, id: nat, fate: Fate): Ledger {
    if !Stampable(l, id) then l
    else
      var t := l.tasks[id];
      var noted := if l.mode.SnapshotOnly? then Mark(l, id, true) else l;
      var written := AppendDurable(noted, Changed(id, t.status, t.turn, true), fate);
      if fate.Synced? then Mark(written, id, true)
      else if l.mode.SnapshotOnly? then Mark(written, id, false) else written
  }

  function Send(l: Ledger, id: nat): Ledger { if id in l.tasks then l.(sent := l.sent + {id}) else l }

  /** One prompt on its way out: stamped, and the stamp withdrawn if it never left. */
  function Dispatch(l: Ledger, id: nat, fate: Fate, leaves: bool): Ledger {
    var stamped := Stamp(l, id, fate);
    if Stampable(l, id) && !fate.Synced? then stamped
    else if leaves then Send(stamped, id)
    else if Stampable(l, id) then Mark(stamped, id, false) else stamped
  }

  function Settle(l: Ledger, id: nat, status: Status, result: Option<Result>): Ledger {
    if id !in l.tasks || Terminal(l.tasks[id].status) then l
    else l.(tasks := l.tasks[id := l.tasks[id].(status := status, result := result)])
  }

  /** Hands out the outcome of a task that has one. */
  function Tell(l: Ledger, id: nat): Ledger {
    if id in l.tasks && Terminal(l.tasks[id].status)
    then l.(told := l.told + {Outcome(id, l.tasks[id].status, l.tasks[id].result)}) else l
  }

  /** #commitTaskTerminal: durable, then told; told as failed when it cannot be durable. */
  function Commit(l: Ledger, id: nat, status: Status, result: Option<Result>, fate: Fate): Ledger
    requires Terminal(status)
  {
    if id !in l.tasks || Terminal(l.tasks[id].status) then l
    else
      var staged := if l.mode.SnapshotOnly? then Settle(l, id, status, result) else l;
      var written := AppendDurable(staged, Committed(id, status, result), fate);
      if fate.Synced? then Tell(Settle(written, id, status, result), id)
      else Tell(written.(tasks := written.tasks[id := l.tasks[id].(status := Failed, result := Some(NotPersisted))]),
        id)
  }

  function Flush(l: Ledger): Ledger { l.(disk := Replay(l.disk, l.pending), pending := []) }

  function WriteSnapshot(l: Ledger): Ledger { l.(disk := l.tasks, pending := []) }

  // A crash keeps some prefix of the pending records; a restart drops the
  // handles that expired meanwhile and fails what was in flight.
  function Survivors(l: Ledger, kept: nat): Tasks
    requires kept <= |l.pending|
  {
    Replay(l.disk, l.pending[..kept])
  }

  function Crash(l: Ledger, kept: nat, expired: set<nat>): Ledger
    requires kept <= |l.pending|
  {
    var m := Survivors(l, kept);
    l.(tasks := map id | id in m && id !in expired :: Recovered(m[id]), disk := m, pending := [])
  }

  // ----- What holds whatever a crash leaves -----

  /** m is what some crash now would leave on disk. */
  ghost predicate World(l: Ledger, m: Tasks) {
    exists kept: nat :: kept <= |l.pending| && m == Survivors(l, kept)
  }

  predicate SameOutcome(t: Task, status: Status, result: Option<Result>) { t.status == status && t.result == result }

  // An outcome that is not the report that it could not be stored.
  predicate Stored(result: Option<Result>) { result != Some(NotPersisted) }

  /** What memory alone keeps. */
  ghost predicate Memory(l: Ledger) {
    && (l.mode.SnapshotOnly? ==> l.pending == [])
    && (forall id | id in l.tasks :: id < l.next)
    && (forall id | id in l.sent :: id < l.next && (id in l.tasks ==> l.tasks[id].dispatched))
    && (forall o | o in l.told :: o.id < l.next && Terminal(o.status))
    && (forall o | o in l.told && Stored(o.result) && o.id in l.tasks :: SameOutcome(l.tasks[o.id], o.status, o.result))
  }

  /** What memory has promised holds of m too. */
  ghost predicate Agrees(l: Ledger, m: Tasks) {
    && (forall id | id in m :: id < l.next)
    && (forall id | id in l.tasks :: id in m)
    && (forall id | id in l.sent && id in m :: m[id].dispatched)
    && (forall id | id in l.tasks && !Terminal(l.tasks[id].status) :: !Terminal(m[id].status))
    && (forall id | id in l.tasks && Terminal(l.tasks[id].status) && Stored(l.tasks[id].result) ::
          SameOutcome(Recovered(m[id]), l.tasks[id].status, l.tasks[id].result))
    && (forall o | o in l.told && Stored(o.result) && o.id in m :: SameOutcome(Recovered(m[o.id]), o.status, o.result))
  }

  ghost predicate Sound(l: Ledger) { Memory(l) && forall m | World(l, m) :: Agrees(l, m) }

  lemma EmptySound(mode: Mode)
    ensures Sound(Empty(mode))
  {
  }

  // The records written so far, all of them, are one of the worlds.
  lemma FullIsWorld(l: Ledger)
    ensures World(l, Replay(l.disk, l.pending))
  {
    assert l.pending[..|l.pending|] == l.pending;
    assert Replay(l.disk, l.pending) == Survivors(l, |l.pending|);
  }

  lemma AppendWorlds(l: Ledger, r: Record, m: Tasks)
    requires World(l.(pending := l.pending + [r]), m)
    ensures World(l, m) || m == Apply(Replay(l.disk, l.pending), r)
  {
    var l' := l.(pending := l.pending + [r]);
    var kept: nat :| kept <= |l'.pending| && m == Survivors(l', kept);
    if kept <= |l.pending| {
      assert l'.pending[..kept] == l.pending[..kept];
      assert m == Survivors(l, kept);
    } else {
      assert l'.pending[..kept] == l.pending + [r];
      assert (l.pending + [r])[..|l.pending|] == l.pending;
    }
  }

  // Where a durable write can leave the disk.
  lemma DurableWorlds(l: Ledger, r: Record, fate: Fate, m: Tasks)
    requires World(AppendDurable(l, r, fate), m)
    ensures fate.Synced? || World(l, m) || (l.mode.Wal? && m == Apply(Replay(l.disk, l.pending), r))
    ensures fate.Synced? ==> m == if l.mode.Wal? then Apply(Replay(l.disk, l.pending), r) else l.tasks
  {
    hide Apply;
    if l.mode.Wal? && fate.Unsynced? {
      AppendWorlds(l, r, m);
    } else if l.mode.Wal? && fate.Synced? {
      assert (l.pending + [r])[..|l.pending|] == l.pending;
    }
  }

  // One world's step: what a record does to a world that agreed before it.
  lemma AppendKeeps(l: Ledger, l': Ledger, r: Record)
    requires Memory(l') && l' == l.(tasks := l'.tasks, pending := l'.pending, next := l'.next)
    requires l'.pending == l.pending || l'.pending == l.pending + [r]
    requires forall m | World(l, m) :: Agrees(l', m) && Agrees(l', Apply(m, r))
    ensures Sound(l')
  {
    hide Agrees, Memory, Apply;
    forall m | World(l', m) ensures Agrees(l', m) {
      if l'.pending == l.pending + [r] {
        assert World(l.(pending := l.pending + [r]), m) by {
          var kept: nat :| kept <= |l'.pending| && m == Survivors(l', kept);
          assert m == Survivors(l.(pending := l.pending + [r]), kept);
        }
        AppendWorlds(l, r, m);
        FullIsWorld(l);
      } else {
        var kept: nat :| kept <= |l'.pending| && m == Survivors(l', kept);
        assert m == Survivors(l, kept);
      }
    }
  }

  lemma RemoveKeeps(l: Ledger, id: nat, held: bool)
    requires Sound(l)
    ensures Sound(Remove(l, id, held))
  {
    hide Recovered;
    if id in l.tasks {
      AppendKeeps(l, Remove(l, id, held), Removed(id));
    }
  }

  lemma MoveWorld(l: Ledger, id: nat, status: Status, news: bool, held: bool, m: Tasks)
    requires Agrees(l, m) && !Terminal(status) && Stampable(l, id)
    ensures Agrees(Move(l, id, status, news, held), m)
    ensures var t := l.tasks[id];
            Agrees(Move(l, id, status, news, held), Apply(m, Changed(id, status, t.turn, t.dispatched)))
  {
  }

  lemma MoveKeeps(l: Ledger, id: nat, status: Status, news: bool, held: bool)
    requires Sound(l) && !Terminal(status)
    ensures Sound(Move(l, id, status, news, held))
  {
    hide Agrees, Apply;
    if Stampable(l, id) {
      forall m | World(l, m) { MoveWorld(l, id, status, news, held, m); }
      var t := l.tasks[id].(status := status);
      AppendKeeps(l, Move(l, id, status, news, held), Changed(id, status, t.turn, t.dispatched));
    }
  }

  // The same of a durable write: staged is the memory that it was made from.
  lemma DurableKeeps(l: Ledger, staged: Tasks, l': Ledger, r: Record, fate: Fate)
    requires Memory(l') && l'.mode == l.mode
    requires var w := AppendDurable(l.(tasks := staged), r, fate); l'.disk == w.disk && l'.pending == w.pending
    requires !fate.Synced? ==> forall m | World(l, m) :: Agrees(l', m)
    requires l.mode.Wal? ==> forall m | World(l, m) :: Agrees(l', Apply(m, r))
    requires l.mode.SnapshotOnly? && fate.Synced? ==> Agrees(l', staged)
    ensures Sound(l')
  {
    hide Agrees, Memory, Apply;
    var w := AppendDurable(l.(tasks := staged), r, fate);
    forall m | World(l', m) ensures Agrees(l', m) {
      var kept: nat :| kept <= |l'.pending| && m == Survivors(l', kept);
      assert m == Survivors(w, kept);
      DurableWorlds(l.(tasks := staged), r, fate, m);
      if World(l.(tasks := staged), m) {
        var k: nat :| k <= |l.pending| && m == Survivors(l.(tasks := staged), k);
        assert m == Survivors(l, k);
      }
      FullIsWorld(l);
    }
  }

  lemma CreateWorld(l: Ledger, fate: Fate, held: bool, m: Tasks)
    requires Memory(l) && Agrees(l, m) && fate.Synced?
    ensures Agrees(Create(l, fate, held), Apply(m, Created(l.next, FRESH)))
    ensures Agrees(Create(l, fate, held), l.tasks[l.next := FRESH])
  {
  }

  // A handle that could not be made durable, and its withdrawal.
  lemma UncreateWorld(l: Ledger, l1: Ledger, m: Tasks)
    requires Memory(l) && Agrees(l, m) && l1.next == l.next + 1
    requires l1.tasks == l.tasks && l1.sent == l.sent && l1.told == l.told
    ensures Agrees(l1, m) && Agrees(l1, Apply(m, Created(l.next, FRESH)))
  {
  }

  lemma WithdrawWorld(l: Ledger, l1: Ledger, id: nat, m: Tasks)
    requires Agrees(l, m) && id !in l.tasks && l1.next == l.next
    requires l1.tasks == l.tasks && l1.sent == l.sent && l1.told == l.told
    ensures Agrees(l1, m) && Agrees(l1, Apply(m, Removed(id)))
  {
  }

  lemma CreateKeeps(l: Ledger, fate: Fate, held: bool)
    requires Sound(l)
    ensures Sound(Create(l, fate, held))
  {
    hide Agrees, Apply;
    var id := l.next;
    var l' := Create(l, fate, held);
    if fate.Synced? {
      forall m | World(l, m) { CreateWorld(l, fate, held, m); }
      FullIsWorld(l);
      DurableKeeps(l, l.tasks[id := FRESH], l', Created(id, FRESH), fate);
    } else {
      var written := l.mode.Wal? && fate.Unsynced?;
      var l1 := l.(next := id + 1, pending := if written then l.pending + [Created(id, FRESH)] else l.pending);
      forall m | World(l, m) { UncreateWorld(l, l1, m); }
      AppendKeeps(l, l1, Created(id, FRESH));
      assert l.tasks[id := FRESH] - {id} == l.tasks;
      forall m | World(l1, m) { WithdrawWorld(l1, l', id, m); }
      AppendKeeps(l1, l', Removed(id));
    }
  }

  // A change of memory alone.
  lemma MemoryKeeps(l: Ledger, l': Ledger)
    requires Sound(l) && Memory(l') && l'.disk == l.disk && l'.pending == l.pending
    requires forall m | Agrees(l, m) :: Agrees(l', m)
    ensures Sound(l')
  {
    hide Agrees, Memory;
    forall m | World(l', m) ensures Agrees(l', m) {
      var kept: nat :| kept <= |l'.pending| && m == Survivors(l', kept);
      assert m == Survivors(l, kept);
    }
  }

  lemma AttachKeeps(l: Ledger, id: nat, turn: nat)
    requires Sound(l)
    ensures Sound(Attach(l, id, turn))
  {
    MemoryKeeps(l, Attach(l, id, turn));
  }

  lemma UnstampKeeps(l: Ledger, id: nat)
    requires Sound(l) && id !in l.sent
    ensures Sound(Mark(l, id, false))
  {
    MemoryKeeps(l, Mark(l, id, false));
  }

  lemma StampWorld(l: Ledger, id: nat, fate: Fate, m: Tasks)
    requires Memory(l) && Agrees(l, m) && Stampable(l, id) && id !in l.sent
    ensures Agrees(Stamp(l, id, fate), m)
    ensures Agrees(Stamp(l, id, fate), Apply(m, Changed(id, l.tasks[id].status, l.tasks[id].turn, true)))
    ensures Agrees(Send(Stamp(l, id, fate), id), Apply(m, Changed(id, l.tasks[id].status, l.tasks[id].turn, true)))
  {
    hide AppendDurable, Recovered;
    StampMemory(l, id, fate);
    hide Stamp;
  }

  // What a stamp leaves in memory.
  lemma StampMemory(l: Ledger, id: nat, fate: Fate)
    requires Stampable(l, id)
    ensures var l' := Stamp(l, id, fate);
            && l'.sent == l.sent && l'.told == l.told && l'.next == l.next && l'.tasks.Keys == l.tasks.Keys
            && forall k | k in l.tasks :: l'.tasks[k] == l.tasks[k].(dispatched := l'.tasks[k].dispatched)
  {
  }

  lemma StampSnapshot(l: Ledger, id: nat)
    requires Memory(l) && Stampable(l, id)
    ensures Agrees(Stamp(l, id, Synced), Mark(l, id, true).tasks)
    ensures Agrees(Send(Stamp(l, id, Synced), id), Mark(l, id, true).tasks)
  {
  }

  lemma StampKeeps(l: Ledger, id: nat, fate: Fate)
    requires Sound(l) && id !in l.sent
    ensures Sound(Stamp(l, id, fate))
  {
    hide Agrees, Apply;
    if Stampable(l, id) {
      forall m | World(l, m) { StampWorld(l, id, fate, m); }
      StampSnapshot(l, id);
      var t := l.tasks[id];
      var staged := if l.mode.SnapshotOnly? then Mark(l, id, true).tasks else l.tasks;
      DurableKeeps(l, staged, Stamp(l, id, fate), Changed(id, t.status, t.turn, true), fate);
    }
  }

  /** A prompt that leaves after its stamp leaves nothing a crash can deny. */
  lemma SendKeeps(l: Ledger, id: nat, fate: Fate)
    requires Sound(l) && id !in l.sent && fate.Synced? && (id in l.tasks ==> !Terminal(l.tasks[id].status))
    ensures Sound(Send(Stamp(l, id, fate), id))
  {
    hide Agrees, Apply;
    if Stampable(l, id) {
      forall m | World(l, m) { StampWorld(l, id, fate, m); }
      StampSnapshot(l, id);
      var t := l.tasks[id];
      var staged := if l.mode.SnapshotOnly? then Mark(l, id, true).tasks else l.tasks;
      DurableKeeps(l, staged, Send(Stamp(l, id, fate), id), Changed(id, t.status, t.turn, true), fate);
    }
  }

  lemma TellKeeps(l: Ledger, id: nat)
    requires Sound(l)
    ensures Sound(Tell(l, id))
  {
    if id in l.tasks {
      MemoryKeeps(l, Tell(l, id));
    }
  }

  lemma CommitWorld(l: Ledger, id: nat, status: Status, result: Option<Result>, fate: Fate, m: Tasks)
    requires Memory(l) && Agrees(l, m) && Terminal(status) && Stampable(l, id)
    ensures !fate.Synced? ==> Agrees(Commit(l, id, status, result, fate), m)
    ensures Agrees(Commit(l, id, status, result, fate), Apply(m, Committed(id, status, result)))
  {
    hide AppendDurable, Commit, Settle;
    CommitMemory(l, id, status, result, fate);
  }

  lemma CommitSnapshot(l: Ledger, id: nat, status: Status, result: Option<Result>)
    requires Memory(l) && Terminal(status) && Stampable(l, id)
    ensures Agrees(Commit(l, id, status, result, Synced), Settle(l, id, status, result).tasks)
  {
    hide AppendDurable, Commit;
    CommitMemory(l, id, status, result, Synced);
  }

  // What a commit leaves in memory, and whom it told.
  lemma CommitMemory(l: Ledger, id: nat, status: Status, result: Option<Result>, fate: Fate)
    requires Terminal(status) && Stampable(l, id)
    ensures var l' := Commit(l, id, status, result, fate);
            var t := if fate.Synced? then l.tasks[id].(status := status, result := result)
                     else l.tasks[id].(status := Failed, result := Some(NotPersisted));
            && l'.tasks == l.tasks[id := t] && l'.sent == l.sent && l'.next == l.next && l'.mode == l.mode
            && l'.told == l.told + {Outcome(id, t.status, t.result)}
            && (var staged := if l.mode.SnapshotOnly? then Settle(l, id, status, result).tasks else l.tasks;
                var w := AppendDurable(l.(tasks := staged), Committed(id, status, result), fate);
                l'.disk == w.disk && l'.pending == w.pending)
  {
    hide Replay, Apply;
  }

  lemma CommitRemembers(l: Ledger, id: nat, status: Status, result: Option<Result>, fate: Fate)
    requires Memory(l) && Terminal(status) && Stampable(l, id)
    ensures Memory(Commit(l, id, status, result, fate))
  {
    CommitMemory(l, id, status, result, fate);
  }

  lemma CommitKeeps(l: Ledger, id: nat, status: Status, result: Option<Result>, fate: Fate)
    requires Sound(l) && Terminal(status)
    ensures Sound(Commit(l, id, status, result, fate))
  {
    hide Agrees, Apply;
    if Stampable(l, id) {
      hide Commit, AppendDurable;
      CommitRemembers(l, id, status, result, fate);
      forall m | World(l, m) { CommitWorld(l, id, status, result, fate, m); }
      CommitSnapshot(l, id, status, result);
      CommitMemory(l, id, status, result, fate);
      var staged := if l.mode.SnapshotOnly? then Settle(l, id, status, result).tasks else l.tasks;
      DurableKeeps(l, staged, Commit(l, id, status, result, fate), Committed(id, status, result), fate);
    }
  }

  lemma FlushKeeps(l: Ledger)
    requires Sound(l)
    ensures Sound(Flush(l))
  {
    hide Agrees;
    forall m | World(Flush(l), m) ensures Agrees(Flush(l), m) {
      FullIsWorld(l);
      SameMemory(l, Flush(l), m);
    }
  }

  // Agreement looks at memory only.
  lemma SameMemory(l: Ledger, l': Ledger, m: Tasks)
    requires Agrees(l, m) && l'.tasks == l.tasks && l'.sent == l.sent && l'.told == l.told && l'.next == l.next
    ensures Agrees(l', m)
  {
  }

  lemma SnapshotKeeps(l: Ledger)
    requires Sound(l)
    ensures Sound(WriteSnapshot(l))
  {
    assert forall m :: World(WriteSnapshot(l), m) ==> m == l.tasks;
  }

  lemma CrashKeeps(l: Ledger, kept: nat, expired: set<nat>)
    requires Sound(l) && kept <= |l.pending|
    ensures Sound(Crash(l, kept, expired))
  {
    assert World(l, Survivors(l, kept));
    assert forall m :: World(Crash(l, kept, expired), m) ==> m == Survivors(l, kept);
  }

  lemma DispatchKeeps(l: Ledger, id: nat, fate: Fate, leaves: bool)
    requires Sound(l) && id !in l.sent && (id in l.tasks ==> !Terminal(l.tasks[id].status))
    ensures Sound(Dispatch(l, id, fate, leaves))
  {
    hide Sound, Stamp, Send;
    StampKeeps(l, id, fate);
    if Stampable(l, id) && !fate.Synced? {
    } else if leaves {
      SendKeeps(l, id, Synced);
      StampNothing(l, id, fate);
    } else if Stampable(l, id) {
      StampMemory(l, id, fate);
      UnstampKeeps(Stamp(l, id, fate), id);
    }
  }

  lemma StampNothing(l: Ledger, id: nat, fate: Fate)
    ensures !Stampable(l, id) ==> Stamp(l, id, fate) == Stamp(l, id, Synced)
  {
  }

  // ----- Every run, with crashes -----

  datatype Op =
    | Begin(fate: Fate, held: bool)
    | Progress(id: nat, status: Status, news: bool, held: bool)
    | Prompt(id: nat, fate: Fate, leaves: bool)
    | Started(id: nat, turn: nat)
    | Finish(id: nat, status: Status, result: Option<Result>, fate: Fate)
    | Forget(id: nat, held: bool)
    | Ask(id: nat)
    | Sync
    | Checkpoint
    | Restart(kept: nat, expired: set<nat>)

  // Each task is prompted once and given a status of the right kind.
  predicate Allowed(l: Ledger, op: Op) {
    match op
    case Progress(_, status, _, _) => !Terminal(status)
    case Prompt(id, _, _) => id !in l.sent && (id in l.tasks ==> !Terminal(l.tasks[id].status))
    case Finish(_, status, _, _) => Terminal(status)
    case Restart(kept, _) => kept <= |l.pending|
    case _ => true
  }

  function Step(l: Ledger, op: Op): Ledger {
    if !Allowed(l, op) then l
    else match op
      case Begin(fate, held) => Create(l, fate, held)
      case Progress(id, status, news, held) => Move(l, id, status, news, held)
      case Prompt(id, fate, leaves) => Dispatch(l, id, fate, leaves)
      case Started(id, turn) => Attach(l, id, turn)
      case Finish(id, status, result, fate) => Commit(l, id, status, result, fate)
      case Forget(id, held) => Remove(l, id, held)
      case Ask(id) => Tell(l, id)
      case Sync => Flush(l)
      case Checkpoint => WriteSnapshot(l)
      case Restart(kept, expired) => Crash(l, kept, expired)
  }

  function Run(l: Ledger, ops: seq<Op>): Ledger
    decreases |ops|
  {
    if ops == [] then l else Step(Run(l, ops[..|ops| - 1]), ops[|ops| - 1])
  }

  lemma StepKeeps(l: Ledger, op: Op)
    requires Sound(l)
    ensures Sound(Step(l, op))
  {
    hide Sound, Create, Move, Dispatch, Attach, Commit, Remove, Tell, Flush, WriteSnapshot, Crash;
    if Allowed(l, op) {
      match op
      case Begin(fate, held) => CreateKeeps(l, fate, held);
      case Progress(id, status, news, held) => MoveKeeps(l, id, status, news, held);
      case Prompt(id, fate, leaves) => DispatchKeeps(l, id, fate, leaves);
      case Started(id, turn) => AttachKeeps(l, id, turn);
      case Finish(id, status, result, fate) => CommitKeeps(l, id, status, result, fate);
      case Forget(id, held) => RemoveKeeps(l, id, held);
      case Ask(id) => TellKeeps(l, id);
      case Sync => FlushKeeps(l);
      case Checkpoint => SnapshotKeeps(l);
      case Restart(kept, expired) => CrashKeeps(l, kept, expired);
    }
  }

  lemma {:induction false} RunKeeps(l: Ledger, ops: seq<Op>)
    requires Sound(l)
    ensures Sound(Run(l, ops))
    decreases |ops|
  {
    hide Sound, Step;
    if ops != [] {
      RunKeeps(l, ops[..|ops| - 1]);
      StepKeeps(Run(l, ops[..|ops| - 1]), ops[|ops| - 1]);
    }
  }

  /** A prompt that left for a task still in the store: whatever a crash leaves,
      the task is there, and never as one that was not started. */
  lemma SentIsDurable(mode: Mode, ops: seq<Op>, id: nat, kept: nat, expired: set<nat>)
    requires var l := Run(Empty(mode), ops); id in l.sent && id in l.tasks && kept <= |l.pending|
    ensures var l := Run(Empty(mode), ops);
            && id in Survivors(l, kept) && !NotStarted(Survivors(l, kept)[id])
            && (id !in expired ==>
                  id in Crash(l, kept, expired).tasks && !NotStarted(Crash(l, kept, expired).tasks[id]))
  {
    hide Run, Replay;
    var l := Run(Empty(mode), ops);
    EmptySound(mode);
    RunKeeps(Empty(mode), ops);
    assert World(l, Survivors(l, kept));
  }

  lemma StepRemembers(l: Ledger, op: Op)
    ensures l.told <= Step(l, op).told && l.sent <= Step(l, op).sent && Step(l, op).mode == l.mode
  {
  }

  lemma {:induction false} RunRemembers(l: Ledger, ops: seq<Op>)
    ensures l.told <= Run(l, ops).told && l.sent <= Run(l, ops).sent
    decreases |ops|
  {
    hide Step;
    if ops != [] {
      RunRemembers(l, ops[..|ops| - 1]);
      StepRemembers(Run(l, ops[..|ops| - 1]), ops[|ops| - 1]);
    }
  }

  /** An outcome handed out was durable by then: whatever a crash leaves has the task,
      with that outcome, and so has the store after it unless the handle expired. */
  lemma ToldIsDurable(mode: Mode, ops: seq<Op>, o: Outcome, kept: nat, expired: set<nat>)
    requires var l := Run(Empty(mode), ops);
             o in l.told && Stored(o.result) && o.id in l.tasks && kept <= |l.pending|
    ensures var l := Run(Empty(mode), ops);
            && o.id in Survivors(l, kept) && SameOutcome(Recovered(Survivors(l, kept)[o.id]), o.status, o.result)
            && (o.id !in expired ==>
                  var after := Crash(l, kept, expired);
                  o.id in after.tasks && SameOutcome(after.tasks[o.id], o.status, o.result))
  {
    hide Run, Replay, Recovered;
    var l := Run(Empty(mode), ops);
    EmptySound(mode);
    RunKeeps(Empty(mode), ops);
    assert World(l, Survivors(l, kept));
  }

  // What takes a handle away: its removal, or its expiry over a restart.
  predicate Drops(op: Op, id: nat) {
    (op.Forget? && op.id == id) || (op.Restart? && id in op.expired)
  }

  lemma StepHolds(l: Ledger, op: Op, id: nat)
    requires Sound(l) && id in l.tasks && !Drops(op, id)
    ensures id in Step(l, op).tasks
  {
    hide Replay, Apply, Recovered;
    if op.Restart? && Allowed(l, op) { assert World(l, Survivors(l, op.kept)); }
  }

  lemma {:induction false} RunHolds(l: Ledger, ops: seq<Op>, id: nat)
    requires Sound(l) && id in l.tasks && forall op | op in ops :: !Drops(op, id)
    ensures id in Run(l, ops).tasks
    decreases |ops|
  {
    hide Sound, Step, Drops;
    if ops != [] {
      var before := ops[..|ops| - 1];
      RunHolds(l, before, id);
      RunKeeps(l, before);
      assert ops[|ops| - 1] in ops;
      StepHolds(Run(l, before), ops[|ops| - 1], id);
    }
  }

  /** An outcome handed out is the outcome for good, through any further steps and
      crashes, unless it was the report that it could not be stored: the task stays,
      with that outcome, until it is removed or expires, and never has another. */
  lemma ToldIsFinal(mode: Mode, ops: seq<Op>, more: seq<Op>, o: Outcome)
    requires o in Run(Empty(mode), ops).told && Stored(o.result)
    ensures var first, l := Run(Empty(mode), ops), Run(Run(Empty(mode), ops), more);
            && (o.id in l.tasks ==> SameOutcome(l.tasks[o.id], o.status, o.result))
            && (o.id in first.tasks && (forall op | op in more :: !Drops(op, o.id)) ==> o.id in l.tasks)
  {
    hide Run, Agrees, Drops;
    EmptySound(mode);
    RunKeeps(Empty(mode), ops);
    RunKeeps(Run(Empty(mode), ops), more);
    RunRemembers(Run(Empty(mode), ops), more);
    if o.id in Run(Empty(mode), ops).tasks && forall op | op in more :: !Drops(op, o.id) {
      RunHolds(Run(Empty(mode), ops), more, o.id);
    }
  }

  /** Short of a restart, a task that ended keeps its outcome until it is forgotten. */
  lemma TerminalIsFinal(l: Ledger, op: Op, id: nat)
    requires id in l.tasks && Terminal(l.tasks[id].status) && !op.Restart? && (op.Begin? ==> id < l.next)
    ensures id in Step(l, op).tasks <==> !(op.Forget? && op.id == id)
    ensures id in Step(l, op).tasks ==> SameOutcome(Step(l, op).tasks[id], l.tasks[id].status, l.tasks[id].result)
  {
    hide Append, AppendDurable, Apply, Replay;
  }

  // With no record of it surviving, a task whose commit was not synced has failed in flight.
  lemma UnsyncedIsForgotten(l: Ledger, id: nat, status: Status, result: Option<Result>, fate: Fate)
    requires Sound(l) && Stampable(l, id) && Terminal(status) && !fate.Synced?
    ensures var l' := Commit(l, id, status, result, fate);
            id in Crash(l', 0, {}).tasks && Crash(l', 0, {}).tasks[id].result == Some(Restarted)
  {
    hide Commit, Apply, Settle;
    CommitMemory(l, id, status, result, fate);
    var l' := Commit(l, id, status, result, fate);
    assert Survivors(l', 0) == l.disk == Survivors(l, 0);
    assert World(l, Survivors(l, 0));
  }

  // With all of them surviving, it has the answer after all.
  lemma UnsyncedReturns(l: Ledger, id: nat, status: Status, result: Option<Result>)
    requires Sound(l) && Stampable(l, id) && Terminal(status) && l.mode.Wal?
    ensures var l' := Commit(l, id, status, result, Unsynced);
            var after := Crash(l', |l'.pending|, {});
            id in after.tasks && SameOutcome(after.tasks[id], status, result)
  {
    hide Commit, Settle;
    CommitMemory(l, id, status, result, Unsynced);
    var l', r := Commit(l, id, status, result, Unsynced), Committed(id, status, result);
    assert l'.pending == l.pending + [r];
    assert l'.pending[..|l'.pending|] == l'.pending && l'.pending[..|l.pending|] == l.pending;
    FullIsWorld(l);
    assert Survivors(l', |l'.pending|) == Apply(Replay(l.disk, l.pending), r);
  }

  /** Exactly when the outcome that a commit tells is final: if and only if its record
      was synced. If not, some crash replaces the report told, by an interruption where
      the record is lost and by the answer where it was written and survives. */
  lemma ToldIsFinalExactly(l: Ledger, id: nat, status: Status, result: Option<Result>, fate: Fate)
    requires Sound(l) && Stampable(l, id) && Terminal(status) && Stored(result)
    ensures var l' := Commit(l, id, status, result, fate);
            && id in l'.tasks && Outcome(id, l'.tasks[id].status, l'.tasks[id].result) in l'.told
            && SameOutcome(l'.tasks[id], if fate.Synced? then status else Failed,
                           if fate.Synced? then result else Some(NotPersisted))
            && ((forall kept: nat | kept <= |l'.pending| ::
                   var after := Crash(l', kept, {});
                   id in after.tasks && SameOutcome(after.tasks[id], l'.tasks[id].status, l'.tasks[id].result))
                <==> fate.Synced?)
            && (l.mode.Wal? && fate.Unsynced? ==>
                  exists kept: nat :: kept <= |l'.pending| && id in Crash(l', kept, {}).tasks
                    && SameOutcome(Crash(l', kept, {}).tasks[id], status, result))
  {
    hide Commit, Apply, Replay, Settle, AppendDurable;
    CommitKeeps(l, id, status, result, fate);
    CommitMemory(l, id, status, result, fate);
    var l' := Commit(l, id, status, result, fate);
    if fate.Synced? {
      forall kept: nat | kept <= |l'.pending|
        ensures id in Crash(l', kept, {}).tasks
             && SameOutcome(Crash(l', kept, {}).tasks[id], l'.tasks[id].status, l'.tasks[id].result)
      {
        assert World(l', Survivors(l', kept));
      }
    } else {
      UnsyncedIsForgotten(l, id, status, result, fate);
      if l.mode.Wal? && fate.Unsynced? { UnsyncedReturns(l, id, status, result); }
    }
  }

  /** What a restart makes of a task that a crash left: one that had ended keeps its
      outcome, one in flight has failed as interrupted, and exactly the expired handles
      are gone. */
  lemma RestartMakes(l: Ledger, kept: nat, expired: set<nat>)
    requires kept <= |l.pending|
    ensures var m, after := Survivors(l, kept), Crash(l, kept, expired);
            && (forall id :: id in after.tasks <==> id in m && id !in expired)
            && (forall id | id in m && id !in expired ::
                  after.tasks[id] == if m[id].status in {Completed, Failed, Cancelled} then m[id]
                                     else m[id].(status := Failed, result := Some(Restarted)))
            && after.disk == m && after.pending == []
  {}

  /** A task in flight whose outcome nobody has heard fails over a restart, whatever of
      the log survives, and is the task it was. */
  lemma InFlightFails(mode: Mode, ops: seq<Op>, id: nat, kept: nat, expired: set<nat>)
    requires var l := Run(Empty(mode), ops);
             id in l.tasks && l.tasks[id].status in {Working, InputRequired} && kept <= |l.pending| && id !in expired
    ensures var after := Crash(Run(Empty(mode), ops), kept, expired);
            id in after.tasks && after.tasks[id].status == Failed && after.tasks[id].result == Some(Restarted)
  {
    hide Run, Replay;
    var l := Run(Empty(mode), ops);
    EmptySound(mode);
    RunKeeps(Empty(mode), ops);
    assert World(l, Survivors(l, kept));
  }

  // A step that is no prompt of the task leaves it unstamped wherever it was.
  ghost predicate Unstamped(l: Ledger, id: nat) {
    && (id in l.tasks ==> !l.tasks[id].dispatched) && (id in l.disk ==> !l.disk[id].dispatched)
    && forall r | r in l.pending :: StampsNot(r, id)
  }

  predicate StampsNot(r: Record, id: nat) {
    match r
    case Created(other, task) => other == id ==> !task.dispatched
    case Changed(other, _, _, dispatched) => other == id ==> !dispatched
    case _ => true
  }

  lemma {:induction false} ReplayUnstamped(m: Tasks, rs: seq<Record>, id: nat)
    requires (id in m ==> !m[id].dispatched) && forall r | r in rs :: StampsNot(r, id)
    ensures id in Replay(m, rs) ==> !Replay(m, rs)[id].dispatched
  {
    if rs != [] {
      assert rs[|rs| - 1] in rs && StampsNot(rs[|rs| - 1], id);
      ReplayUnstamped(m, rs[..|rs| - 1], id);
    }
  }

  lemma AppendUnstamped(l: Ledger, r: Record, held: bool, fate: Fate, id: nat)
    requires Unstamped(l, id) && StampsNot(r, id)
    ensures Unstamped(Append(l, r, held), id) && Unstamped(AppendDurable(l, r, fate), id)
  {
    ReplayUnstamped(l.disk, l.pending + [r], id);
    hide Replay;
  }

  lemma StepUnstamped(l: Ledger, op: Op, id: nat)
    requires Unstamped(l, id) && !(op.Prompt? && op.id == id)
    ensures Unstamped(Step(l, op), id)
  {
    hide Append, AppendDurable, Replay, Apply, Unstamped;
    if Allowed(l, op) {
      match op
      case Begin(fate, held) => CreateUnstamped(l, fate, held, id);
      case Progress(other, status, news, held) => MoveUnstamped(l, other, status, news, held, id);
      case Prompt(other, fate, leaves) => DispatchUnstamped(l, other, fate, leaves, id);
      case Started(other, turn) => AttachUnstamped(l, other, turn, id);
      case Finish(other, status, result, fate) => CommitUnstamped(l, other, status, result, fate, id);
      case Forget(other, held) => RemoveUnstamped(l, other, held, id);
      case Ask(other) => StoreUnstamped(l, other, id);
      case Sync => StoreUnstamped(l, id, id);
      case Checkpoint => StoreUnstamped(l, id, id);
      case Restart(kept, expired) => CrashUnstamped(l, kept, expired, id);
    }
  }

  lemma CreateUnstamped(l: Ledger, fate: Fate, held: bool, id: nat)
    requires Unstamped(l, id)
    ensures Unstamped(Create(l, fate, held), id)
  {
    hide Append, AppendDurable;
    var made, r := l.(tasks := l.tasks[l.next := FRESH], next := l.next + 1), Created(l.next, FRESH);
    AppendUnstamped(made, r, held, fate, id);
    RemoveUnstamped(AppendDurable(made, r, fate), l.next, held, id);
    hide Unstamped;
  }

  lemma RemoveUnstamped(l: Ledger, other: nat, held: bool, id: nat)
    requires Unstamped(l, id)
    ensures Unstamped(Remove(l, other, held), id)
  {
    hide Append;
    AppendUnstamped(l.(tasks := l.tasks - {other}), Removed(other), held, Refused, id);
  }

  lemma MoveUnstamped(l: Ledger, other: nat, status: Status, news: bool, held: bool, id: nat)
    requires Unstamped(l, id) && !Terminal(status)
    ensures Unstamped(Move(l, other, status, news, held), id)
  {
    hide Append;
    if Stampable(l, other) {
      var t := l.tasks[other].(status := status);
      var moved := l.(tasks := l.tasks[other := t]);
      AppendUnstamped(moved, Changed(other, status, t.turn, t.dispatched), held, Refused, id);
    }
  }

  lemma DispatchUnstamped(l: Ledger, other: nat, fate: Fate, leaves: bool, id: nat)
    requires Unstamped(l, id) && other != id
    ensures Unstamped(Dispatch(l, other, fate, leaves), id)
  {
    hide AppendDurable;
    if Stampable(l, other) {
      var t := l.tasks[other];
      var noted := if l.mode.SnapshotOnly? then Mark(l, other, true) else l;
      AppendUnstamped(noted, Changed(other, t.status, t.turn, true), true, fate, id);
    }
  }

  lemma AttachUnstamped(l: Ledger, other: nat, turn: nat, id: nat)
    requires Unstamped(l, id)
    ensures Unstamped(Attach(l, other, turn), id)
  {}

  lemma CommitUnstamped(l: Ledger, other: nat, status: Status, result: Option<Result>, fate: Fate, id: nat)
    requires Unstamped(l, id) && Terminal(status)
    ensures Unstamped(Commit(l, other, status, result, fate), id)
  {
    hide AppendDurable;
    if Stampable(l, other) {
      var staged := if l.mode.SnapshotOnly? then Settle(l, other, status, result) else l;
      AppendUnstamped(staged, Committed(other, status, result), true, fate, id);
    }
  }

  lemma StoreUnstamped(l: Ledger, other: nat, id: nat)
    requires Unstamped(l, id)
    ensures Unstamped(Tell(l, other), id) && Unstamped(Flush(l), id) && Unstamped(WriteSnapshot(l), id)
  {
    ReplayUnstamped(l.disk, l.pending, id);
  }

  lemma CrashUnstamped(l: Ledger, kept: nat, expired: set<nat>, id: nat)
    requires Unstamped(l, id) && kept <= |l.pending|
    ensures Unstamped(Crash(l, kept, expired), id)
  {
    ReplayUnstamped(l.disk, l.pending[..kept], id);
  }

  lemma {:induction false} RunUnstamped(l: Ledger, ops: seq<Op>, id: nat)
    requires Unstamped(l, id) && forall op | op in ops :: !(op.Prompt? && op.id == id)
    ensures Unstamped(Run(l, ops), id)
    decreases |ops|
  {
    hide Unstamped, Step;
    if ops != [] {
      RunUnstamped(l, ops[..|ops| - 1], id);
      assert ops[|ops| - 1] in ops;
      StepUnstamped(Run(l, ops[..|ops| - 1]), ops[|ops| - 1], id);
    }
  }

  /** And a task whose prompt nobody tried to send is reported as not started, whatever
      a crash leaves. */
  lemma UnsentIsNotStarted(mode: Mode, ops: seq<Op>, id: nat, kept: nat)
    requires (forall op | op in ops :: !(op.Prompt? && op.id == id)) && kept <= |Run(Empty(mode), ops).pending|
    ensures var l := Run(Empty(mode), ops);
            && (id in l.tasks ==> NotStarted(l.tasks[id]))
            && (id in Survivors(l, kept) ==> NotStarted(Survivors(l, kept)[id]))
  {
    hide Run, Replay, Step;
    RunUnstamped(Empty(mode), ops, id);
    var l := Run(Empty(mode), ops);
    ReplayUnstamped(l.disk, l.pending[..kept], id);
  }

  /** A handle that was made durable is a working task that has not started; one that
      was not is none. */
  lemma CreateMakes(l: Ledger, fate: Fate, held: bool)
    ensures var l' := Create(l, fate, held);
            && l'.next == l.next + 1
            && l'.tasks == (if fate.Synced? then l.tasks[l.next := Task(Working, None, false, None)]
                            else l.tasks - {l.next})
            && (fate.Synced? && l.mode.Wal? && l.next !in Replay(l.disk, l.pending) ==>
                  l.next in l'.disk && l'.disk[l.next] == Task(Working, None, false, None))
  {
    var r := Created(l.next, FRESH);
    assert (l.pending + [r])[..|l.pending|] == l.pending;
  }

  /** A status that ends nothing is the task's from then on, and is logged exactly when
      it changed something or is news; the first outcome stands. */
  lemma MoveShows(l: Ledger, id: nat, status: Status, news: bool)
    requires status in {Working, InputRequired} && id in l.tasks
    ensures var before, l' := l.tasks[id], Move(l, id, status, news, true);
            if before.status in {Completed, Failed, Cancelled} then l' == l
            else
              && l'.tasks == l.tasks[id := before.(status := status)]
              && l'.pending == l.pending + if l.mode.Wal? && (status != before.status || news)
                                           then [Changed(id, status, before.turn, before.dispatched)] else []
  {}

  /** What a log that survives whole says of a task that moved: its status and its turn as
      they are in memory, and sent where memory has it so; the other tasks are as they
      were. A handle that was taken back is gone. */
  lemma LogSaysWhatMemoryDoes(l: Ledger, id: nat, status: Status, other: nat)
    requires Sound(l) && l.mode.Wal? && id in l.tasks && l.tasks[id].status in {Working, InputRequired}
    requires status in {Working, InputRequired} && other != id
    ensures var moved := Move(l, id, status, true, true);
            var before, m := Survivors(l, |l.pending|), Survivors(moved, |moved.pending|);
            && id in m && m[id].status == status && m[id].turn == moved.tasks[id].turn
            && (moved.tasks[id].dispatched ==> m[id].dispatched)
            && (other in m <==> other in before) && (other in m ==> m[other] == before[other])
    ensures var gone := Remove(l, id, true);
            var before, m := Survivors(l, |l.pending|), Survivors(gone, |gone.pending|);
            && id !in m && (other in m <==> other in before) && (other in m ==> m[other] == before[other])
  {
    var t := l.tasks[id];
    FullIsWorld(l);
    AppendedLast(l, Changed(id, status, t.turn, t.dispatched));
    AppendedLast(l, Removed(id));
    hide Replay;
    assert Agrees(l, Survivors(l, |l.pending|)) by { AllSurvives(l); }
  }

  lemma AllSurvives(l: Ledger)
    requires Sound(l)
    ensures Agrees(l, Survivors(l, |l.pending|))
  {
    assert World(l, Survivors(l, |l.pending|));
  }

  lemma AppendedLast(l: Ledger, r: Record)
    ensures Replay(l.disk, (l.pending + [r])[..|l.pending| + 1]) == Apply(Survivors(l, |l.pending|), r)
  {
    assert (l.pending + [r])[..|l.pending| + 1] == l.pending + [r];
    assert (l.pending + [r])[..|l.pending|] == l.pending && l.pending[..|l.pending|] == l.pending;
  }

  lemma RunTwo(l: Ledger, a: Op, b: Op)
    ensures Run(l, [a, b]) == Step(Step(l, a), b)
  {
    hide Step;
    assert [a, b][..1] == [a] && [a][..0] == [];
    assert Run(l, [a]) == Step(l, a);
  }

  lemma FirstHandle()
    ensures Create(Empty(Wal), Synced, true) == Ledger(Wal, map[0 := FRESH], map[0 := FRESH], [], {}, {}, 1)
  {
    var r := Created(0, FRESH);
    assert [] + [r] == [r] && [r][..0] == [];
    assert Replay(map[], [r]) == Apply(map[], r) == map[0 := FRESH];
  }

  /** One such run: a commit whose sync failed is reported as a failure, and a crash
      that leaves its record brings the answer back. */
  lemma UnstoredMayReturn()
    ensures var l := Run(Empty(Wal), [Begin(Synced, true), Finish(0, Completed, Some(Answer(7)), Unsynced)]);
            && Outcome(0, Failed, Some(NotPersisted)) in l.told && |l.pending| == 1
            && 0 in Crash(l, 1, {}).tasks && Crash(l, 1, {}).tasks[0].result == Some(Answer(7))
            && 0 in Crash(l, 0, {}).tasks && Crash(l, 0, {}).tasks[0].result == Some(Restarted)
  {
    RunTwo(Empty(Wal), Begin(Synced, true), Finish(0, Completed, Some(Answer(7)), Unsynced));
    FirstHandle();
    var r := Committed(0, Completed, Some(Answer(7)));
    var l := Commit(Create(Empty(Wal), Synced, true), 0, Completed, Some(Answer(7)), Unsynced);
    assert l.pending == [r] && [r][..1] == [r] && [r][..0] == [];
    assert Replay(l.disk, [r]) == Apply(l.disk, r);
  }
}

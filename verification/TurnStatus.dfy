/** The turn protocol's status and reservation: a turn's status goes with an
    unsealed turn, and one waiting command at most holds the session. */
module TurnStatus {
  import opened Wrappers
  import L = TaskLedger
  import opened TurnProtocol

  // ----- Status and turn -----

  predicate OfThisProcess(s: Session) { s.turnId.Some? && s.turnId.value >= s.base }

  predicate FromWorker(c: Command) { c.Update? || c.ProviderExit? || c.Finish? }

  /** A session in a turn's status has an unsealed turn, and an unsealed turn its
      status; a close that has sealed one is on its way to closed. */
  ghost predicate Turns(s: Session) {
    && (TurnActive(s.status) ==> OfThisProcess(s) && (Unsealed(s) || s.job == Some(Closing)))
    && (Live(s) ==> TurnActive(s.status))
    && (Live(s) ==> s.client.Alive? || ProviderExit in s.critical)
    && (Live(s) ==> s.reserved.None? && !(s.job.Some? && s.job.value.Reconnecting?))
    && (s.job == Some(Closing) ==> !Unsealed(s))
    && (s.status.Restoring? ==> s.job.Some? && s.job.value.Reconnecting? && s.job.value.begun)
    && (!s.inStore || s.queueClosed ==> s.status.Closed?)
    && (s.job.Some? ==> !s.status.Closed?)
    && (s.job.Some? && s.job.value.Reconnecting? && s.job.value.begun ==> s.status.Restoring?)
    && (s.job.Some? && s.job.value.Ready? ==> !s.status.Disconnected? && !s.status.Unavailable?)
    && (Respond in s.items || s.job == Some(Answering) ==> OfThisProcess(s))
    && (s.turnId.Some? ==> s.turnId.value < s.next) && s.base <= s.next
    && (forall c | c in s.critical :: FromWorker(c))
  }

  lemma FinishTurnTurns(s: Session, token: nat, reply: Reply, w: Choice)
    requires Turns(s) && s.job.None?
    ensures Turns(FinishTurn(s, token, reply, w))
  {
    hide L.Commit, EndTask;
  }

  lemma ExitTurns(s: Session, w: Choice)
    requires Turns(s.(critical := [ProviderExit] + s.critical)) && s.job.None?
    ensures Turns(Exit(s, w))
  {
    hide L.Commit, EndTask;
  }

  lemma OrphanTurns(s: Session, w: Choice)
    requires Turns(s) && s.job.None?
    ensures Turns(OrphanEnd(s, w))
  {
    hide L.Commit, EndTask;
  }

  lemma CancelTurns(s: Session, w: Choice)
    requires Turns(s) && s.job.None?
    ensures Turns(CancelTurn(s, w))
  {
    hide L.Move, UpdateTask;
  }

  // A move between the statuses of a turn.
  lemma WithinTurn(s: Session, s': Session)
    requires Turns(s) && s.job.None? && Live(s) && TurnActive(s'.status)
    requires s' == s.(status := s'.status, moves := s'.moves, ledger := s'.ledger)
    ensures Turns(s')
  {
  }

  // Only a session in a turn takes an input status.
  lemma WaitsInTurn(s: Session, ask: Ask)
    requires Turns(s) && s.job.None?
    ensures var to := if ask.Permission? then WaitingPermission else WaitingInput;
            Accepts(s, to) ==> Live(s) && SetStatus(s, to).status == to
  {
  }

  lemma SyncTurns(s: Session, w: Choice)
    requires Turns(s) && s.job.None? && OfThisProcess(s)
    ensures Turns(SyncInput(s, w))
  {
    if w.pending.Some? { WaitsInTurn(s, w.pending.value); }
    RunsInTurn(s);
    hide Turns, Accepts, SetStatus, UpdateTask;
    if SyncInput(s, w) != s { WithinTurn(s, SyncInput(s, w)); }
  }

  lemma RunsInTurn(s: Session)
    requires Turns(s) && s.job.None? && OfThisProcess(s)
    ensures Unsealed(s) && Open(s) ==>
              Live(s) && (SetStatus(s, Running).status == Running || SetStatus(s, Running) == s)
    ensures Live(s) ==> TurnActive(s.status)
  {
  }

  lemma AskTurns(s: Session, ask: Ask, w: Choice)
    requires Turns(s) && s.job.None?
    ensures Turns(HandleAsk(s, ask, w))
  {
    WaitsInTurn(s, ask);
    hide Turns, Accepts, SetStatus, UpdateTask, SyncInput;
    if HandleAsk(s, ask, w) != s {
      var to := if ask.Permission? then WaitingPermission else WaitingInput;
      WithinTurn(s, SetStatus(s, to));
      TokenOfTurn(s);
      if w.yes { WithinTurn(s, HandleAsk(s, ask, w)); } else { SyncTurns(SetStatus(s, to), w); }
    }
  }

  lemma TokenOfTurn(s: Session)
    ensures Live(s) ==> OfThisProcess(s)
  {
  }

  lemma CloseTurns(s: Session, w: Choice)
    requires Turns(s) && s.job.None?
    ensures Turns(CloseBegins(s, w))
  {
    hide L.Commit, EndTask;
  }

  lemma CloseEndsTurns(s: Session, w: Choice)
    requires Turns(s) && s.job == Some(Closing)
    ensures Turns(CloseEnds(s, w))
  {
  }

  // ----- The queue: one holder of the reservation -----

  function Count(cs: seq<Command>): nat {
    if cs == [] then 0 else (if Reserving(cs[0]).Some? then 1 else 0) + Count(cs[1..])
  }

  lemma CountEmpty()
    ensures Count([]) == 0
  {
  }

  lemma CountSingle(c: Command)
    ensures Count([]) == 0 && Count([c]) == if Reserving(c).Some? then 1 else 0
  {
  }

  lemma CountHead(cs: seq<Command>)
    requires cs != []
    ensures Count([]) == 0 && Count(cs) == Count([cs[0]]) + Count(cs[1..])
  {
    CountSingle(cs[0]);
  }

  lemma {:induction false} CountAdds(a: seq<Command>, b: seq<Command>)
    ensures Count(a + b) == Count(a) + Count(b)
  {
    if a == [] {
      assert a + b == b;
    } else {
      assert (a + b)[1..] == a[1..] + b;
      CountAdds(a[1..], b);
    }
  }

  lemma {:induction false} CountNone(cs: seq<Command>)
    requires forall c | c in cs :: Reserving(c).None?
    ensures Count(cs) == 0
  {
    if cs != [] { CountNone(cs[1..]); }
  }

  function Held(job: Option<Job>): seq<Command> {
    if job.Some? && (job.value.Reconnecting? || job.value.Ready?) then [job.value.command] else []
  }

  predicate Over(l: L.Ledger, id: nat) { id !in l.tasks || L.Terminal(l.tasks[id].status) }

  /** A task's prompt that is still to be sent: never sent before, and the
      session's own task unless it has ended. */
  ghost predicate Awaited(s: Session, id: nat) {
    && id !in s.ledger.sent && id < s.ledger.next
    && (Over(s.ledger, id) || s.activeTask == Some(id))
  }

  predicate MatchesHolder(s: Session, c: Command) { Reserving(c).Some? ==> s.reserved == Reserving(c) }

  ghost predicate Sendable(s: Session, c: Command) { c.Prompt? && c.task.Some? ==> Awaited(s, c.task.value) }

  /** One waiting command at most holds the reservation; loose is a command that
      has just left the queue. */
  ghost predicate QueueOf(s: Session, loose: seq<Command>) {
    && Count(Held(s.job)) + Count(s.items) + Count(s.rejected) + Count(loose) == (if s.reserved.Some? then 1 else 0)
    && (forall c | c in Held(s.job) || c in s.items || c in s.rejected || c in loose :: MatchesHolder(s, c))
    && (forall c | c in Held(s.job) || c in s.items :: Sendable(s, c))
    && (forall c | c in s.items :: !FromWorker(c))
  }

  ghost predicate Queue(s: Session) { QueueOf(s, []) }

  lemma {:induction false} CountZero(cs: seq<Command>, c: Command)
    requires Count(cs) == 0 && c in cs
    ensures Reserving(c).None?
  {
    if c != cs[0] { CountZero(cs[1..], c); }
  }

  // What a step does to the tasks of turns and prompts it is not about.
  ghost predicate Calm(s: Session, s': Session) {
    && s'.ledger.sent == s.ledger.sent && s.ledger.next <= s'.ledger.next
    && (forall id: nat | id < s.ledger.next && Over(s.ledger, id) :: Over(s'.ledger, id))
    && (s'.activeTask == s.activeTask || (s.activeTask.Some? ==> Over(s'.ledger, s.activeTask.value)))
  }

  lemma CalmAwaits(s: Session, s': Session, c: Command)
    requires Calm(s, s') && Sendable(s, c)
    ensures Sendable(s', c)
  {
  }

  predicate SameQueue(s: Session, s': Session) { s'.job == s.job && s'.items == s.items && s'.rejected == s.rejected }

  lemma QueueCalm(s: Session, s': Session, loose: seq<Command>)
    requires QueueOf(s, loose) && Calm(s, s') && SameQueue(s, s') && s'.reserved == s.reserved
    ensures QueueOf(s', loose)
  {
    hide Calm, Sendable, Count, Held;
    forall c | Sendable(s, c) ensures Sendable(s', c) { CalmAwaits(s, s', c); }
  }

  // A command that is done with.
  lemma QueueDone(s: Session, c: Command, s': Session)
    requires QueueOf(s, [c]) && SameQueue(s, s')
    requires if Reserving(c).Some? then s'.reserved.None? else s'.reserved == s.reserved && Calm(s, s')
    ensures Queue(s')
  {
    CountSingle(c);
    assert c in [c];
    hide Count, Calm, Held;
    if Reserving(c).Some? {
      forall d | d in Held(s.job) || d in s.items || d in s.rejected ensures Reserving(d).None? {
        if d in Held(s.job) { CountZero(Held(s.job), d); }
        if d in s.items { CountZero(s.items, d); }
        if d in s.rejected { CountZero(s.rejected, d); }
      }
    } else {
      forall d | Sendable(s, d) ensures Sendable(s', d) { CalmAwaits(s, s', d); }
    }
  }

  // A command that now has the mailbox, or leaves it.
  lemma QueueHolds(s: Session, c: Command, s': Session)
    requires QueueOf(s, [c]) && Sendable(s, c) && s.job.None? && Held(s'.job) == [c]
    requires s'.items == s.items && s'.rejected == s.rejected && s'.reserved == s.reserved
    requires s'.ledger == s.ledger && s'.activeTask == s.activeTask
    ensures Queue(s')
  {
    CountEmpty();
    forall d | Sendable(s, d) ensures Sendable(s', d) {}
  }

  lemma QueueLetsGo(s: Session, c: Command)
    requires Queue(s) && Held(s.job) == [c]
    ensures QueueOf(s.(job := None), [c]) && Sendable(s.(job := None), c)
  {
    CountEmpty();
    assert c in Held(s.job);
    forall d | Sendable(s, d) ensures Sendable(s.(job := None), d) {}
  }

  lemma QueuePops(s: Session)
    requires Queue(s) && s.items != []
    ensures var a := s.(items := s.items[1..]); QueueOf(a, [s.items[0]]) && Sendable(a, s.items[0])
    ensures !FromWorker(s.items[0])
  {
    var a := s.(items := s.items[1..]);
    CountHead(s.items);
    assert s.items[0] in s.items && forall d | d in a.items :: d in s.items;
    forall d | Sendable(s, d) ensures Sendable(a, d) {}
    forall d | MatchesHolder(s, d) ensures MatchesHolder(a, d) {}
    hide Sendable, MatchesHolder, Held, Count;
  }

  lemma QueueRejects(s: Session)
    requires Queue(s) && s.rejected != []
    ensures QueueOf(s.(rejected := s.rejected[1..]), [s.rejected[0]])
  {
    var a := s.(rejected := s.rejected[1..]);
    CountHead(s.rejected);
    assert s.rejected[0] in s.rejected && forall d | d in a.rejected :: d in s.rejected;
    forall d | Sendable(s, d) ensures Sendable(a, d) {}
    forall d | MatchesHolder(s, d) ensures MatchesHolder(a, d) {}
    hide Sendable, MatchesHolder, Held, Count;
  }

  // What a reservation that is held by a waiting command says of the turn.
  lemma FirstReserves(s: Session, c: Command)
    requires Queue(s) && (c in Held(s.job) || c in s.items)
    ensures MatchesHolder(s, c)
  {
  }

  // ----- Turns, step by step -----

  lemma UnloadTurns(s: Session)
    requires Turns(s)
    ensures Turns(Unload(s))
  {
  }

  lemma RetireTurns(s: Session, w: Choice)
    requires Turns(s)
    ensures Turns(Retire(s, w))
  {
  }

  lemma DiesTurns(s: Session)
    requires Turns(s)
    ensures Turns(WorkerDies(s))
  {
  }

  // A step that leaves the status and the turn alone.
  lemma SoftTurns(s: Session, s': Session)
    requires Turns(s)
    requires s' == s.(ledger := s'.ledger, activeTask := s'.activeTask, reserved := s'.reserved,
        preparing := s'.preparing,
                      rejected := s'.rejected, items := s'.items)
    requires s'.reserved.Some? ==> s'.reserved == s.reserved || !Live(s)
    requires Respond in s'.items ==> Respond in s.items || OfThisProcess(s)
    ensures Turns(s')
  {
  }

  lemma AdmitTurns(s: Session)
    requires Turns(s)
    ensures Turns(AdmitPrompt(s)) && Turns(AdmitRestore(s)) && Turns(AskRespond(s))
  {
    NotLive(s);
    assert s.status.WaitingPermission? || s.status.WaitingInput? ==> OfThisProcess(s);
    hide Turns, Live, OfThisProcess;
    SoftTurns(s, AdmitPrompt(s));
    SoftTurns(s, AdmitRestore(s));
    SoftTurns(s, AskRespond(s));
  }

  lemma AdmitTaskTurns(s: Session, w: Choice)
    requires Turns(s)
    ensures Turns(AdmitTask(s, w))
  {
    NotLive(s);
    hide Turns, Live, L.Create;
    SoftTurns(s, AdmitTask(s, w));
  }

  lemma NotLive(s: Session)
    requires Turns(s)
    ensures !Active(s.status) ==> !Live(s)
    ensures s.reserved.Some? ==> !Live(s)
    ensures s.critical == [] && NeedsRestore(s) ==> !Live(s)
  {
  }

  lemma ConfigureTurns(s: Session, change: bool)
    requires Turns(s)
    ensures Turns(AdmitConfigure(s, change))
  {
    NotLive(s);
    hide Turns, Live;
    SoftTurns(s, AdmitConfigure(s, change));
  }

  lemma FailTurns(s: Session, c: Command, w: Choice)
    requires Turns(s)
    ensures Turns(Fail(s, c, w))
  {
    hide Turns, Fail;
    SoftTurns(s, Fail(s, c, w));
  }

  lemma ReleaseTurns(s: Session, c: Command)
    requires Turns(s)
    ensures Turns(Release(s, c))
  {
    hide Turns, Release;
    SoftTurns(s, Release(s, c));
  }

  lemma StartTurnTurns(s: Session, c: Command, w: Choice)
    requires c.Prompt? && s.reserved == Reserving(c) && s.job.None? && s.client.Alive? && Open(s) && !s.queueClosed
    requires !Active(s.status) && !s.status.Disconnected? && !s.status.Unavailable?
    requires s.base <= s.next && forall c | c in s.critical :: FromWorker(c)
    ensures Turns(Release(StartTurn(s, c.task, w), c))
  {
    hide L.Move, L.Attach;
  }

  lemma SendTurns(s: Session, c: Command, w: Choice)
    requires Turns(s) && c.Prompt? && s.reserved == Reserving(c) && s.job.None?
    requires !s.status.Closed? && !s.status.Restoring? && !s.status.Disconnected? && !s.status.Unavailable?
    ensures Turns(SendPrompt(s, c, w))
  {
    StandsReady(s);
    ReleaseTurns(s, c);
    hide Turns, L.Dispatch, StartTurn, Fail, Release;
    var a := if c.task.None? then s
             else s.(ledger := L.Dispatch(s.ledger, c.task.value, w.fate, w.yes && s.client.Alive?));
    SoftTurns(s, a);
    FailTurns(a, c, w);
    if s.client.Alive? { StartTurnTurns(a, c, w); }
  }

  lemma StandsReady(s: Session)
    requires Turns(s) && s.reserved.Some? && s.job.None? && !s.status.Closed?
    ensures s.base <= s.next && !s.queueClosed && Open(s) && !TurnActive(s.status)
    ensures forall c | c in s.critical :: FromWorker(c)
  {
  }

  lemma StartTurns(s: Session, c: Command, w: Choice)
    requires Turns(s) && s.job.None? && (Reserving(c).Some? ==> s.reserved == Reserving(c))
    requires FromWorker(c) || s.critical == []
    requires c.ProviderExit? ==> Turns(s.(critical := [ProviderExit] + s.critical))
    requires c.Respond? ==> OfThisProcess(s)
    ensures Turns(Start(s, c, w))
  {
    NotLive(s);
    FailTurns(s, c, w);
    match c
    case Cancel => CancelTurns(s, w);
    case Close => CloseTurns(s, w);
    case Respond =>
      if !w.yes { SyncTurns(s, w); }
      hide SyncInput;
    case OrphanCancel => OrphanTurns(s, w);
    case Update(ask) => AskTurns(s, ask, w);
    case ProviderExit => ExitTurns(s, w);
    case Finish(token, reply) => FinishTurnTurns(s, token, reply, w);
    case _ => hide Fail;
  }

  // Taking a command off the queue.
  lemma PopTurns(s: Session)
    requires Turns(s) && s.critical != [] && !s.critical[0].ProviderExit?
    ensures Turns(s.(critical := s.critical[1..]))
  {
    assert [s.critical[0]] + s.critical[1..] == s.critical;
  }

  lemma DequeueTurns(s: Session, w: Choice)
    requires Turns(s) && Queue(s)
    ensures Turns(Dequeue(s, w))
  {
    if s.job.None? && s.critical != [] {
      var c := s.critical[0];
      var a := s.(critical := s.critical[1..]);
      assert FromWorker(c);
      assert [c] + a.critical == s.critical;
      if c.ProviderExit? { ExitTurns(a, w); } else { PopTurns(s); StartTurns(a, c, w); }
    } else if s.job.None? && s.items != [] {
      var c := s.items[0];
      assert c in s.items && !FromWorker(c);
      FirstReserves(s, c);
      var a := s.(items := s.items[1..]);
      assert c.Respond? ==> OfThisProcess(s);
      hide Turns, Queue;
      SoftTurns(s, a);
      StartTurns(a, c, w);
    }
  }

  lemma JobTurns(s: Session, j: Option<Job>)
    requires Turns(s) && s.job.Some? && s.job != Some(Closing) && !s.status.Restoring?
    requires j.None? || (j.value.Ready? && !s.status.Disconnected? && !s.status.Unavailable?)
    ensures Turns(s.(job := j))
  {
  }

  // A restore attempt that begins, fails or comes back, with nobody's turn under it.
  lemma ReconnectBegins(s: Session)
    requires Turns(s) && s.job.Some? && s.job.value.Reconnecting? && !s.job.value.begun
    ensures Turns(SetStatus(s, Restoring).(job := Some(Reconnecting(s.job.value.command, true))))
    ensures Turns(s.(job := None))
  {
  }

  lemma ReconnectFails(s: Session)
    requires Turns(s) && s.job.Some? && s.job.value.Reconnecting?
    ensures Turns(RestoreFailed(s.(job := None)))
  {
  }

  lemma ReconnectSucceeds(s: Session, j: Option<Job>)
    requires Turns(s) && s.job.Some? && s.job.value.Reconnecting? && s.job.value.begun
    requires j.None? || j.value.Ready?
    ensures Open(s) && Turns(SetStatus(s.(job := None, client := Alive), Idle).(job := j))
  {
  }

  lemma ResumeTurns(s: Session, path: Path, w: Choice)
    requires Turns(s) && Queue(s)
    ensures Turns(Resume(s, path, w))
  {
    if s.job.Some? {
      var idle := s.(job := None);
      match s.job.value
      case Reconnecting(c, begun) =>
        ReconnectFails(s);
        if begun { ReconnectSucceeds(s, None); ReconnectSucceeds(s, Some(Ready(c))); } else { ReconnectBegins(s); }
        hide Turns, Queue, Fail, Release, SetStatus, RestoreFailed;
        if path.Fails? {
          FailTurns(RestoreFailed(idle), c, w);
        } else if begun {
          ReleaseTurns(SetStatus(idle.(client := Alive), Idle), c);
        } else {
          FailTurns(idle, c, w);
        }
      case Ready(c) =>
        JobTurns(s, None);
        if c.Prompt? {
          assert Held(s.job) == [c] && c in Held(s.job);
          FirstReserves(s, c);
        }
        assert !s.status.Closed? && !s.status.Disconnected? && !s.status.Unavailable? && !s.status.Restoring?;
        hide Turns, Queue, Fail, SendPrompt;
        FailTurns(idle, c, w);
        if c.Prompt? { SendTurns(idle, c, w); }
      case Answering =>
        JobTurns(s, None);
        SyncTurns(idle, w);
      case Closing => CloseEndsTurns(s, w);
    }
  }

  lemma NextTurns(s: Session, e: Event)
    requires Turns(s) && Queue(s)
    ensures Turns(Next(s, e))
  {
    hide Turns, Queue, AdmitPrompt, AdmitTask, AdmitRestore, AdmitConfigure, AskRespond, Enqueue, Unload, Retire,
      WorkerDies,
         WorkerReplies, Post, Offer, Dequeue, Resume, Fail, CancelTask, Restart, L.Step;
    match e
    case PromptArrives => AdmitTurns(s);
    case RunArrives(w) => AdmitTaskTurns(s, w);
    case RestoreArrives => AdmitTurns(s);
    case ConfigureArrives(change) => ConfigureTurns(s, change);
    case CommandArrives(c) => if !c.Respond? { EnqueueTurns(s, c); }
    case ResponseArrives => AdmitTurns(s);
    case Unloads => UnloadTurns(s);
    case Retires(w) => RetireTurns(s, w);
    case Dies => DiesTurns(s);
    case Replies(token, reply) => RepliesTurns(s, token, reply);
    case Asks(ask) => AsksTurns(s, ask);
    case Runs(w) => DequeueTurns(s, w);
    case Resumes(path, w) => ResumeTurns(s, path, w);
    case Rejects(w) => RejectTurns(s, w);
    case TaskCancels(id, w) => CancelTaskTurns(s, id, w);
    case Storage(op) => SoftTurns(s, Next(s, e));
    case Stops => StopTurns(s);
    case Crashes(turn, closed, kept, expired) => RestartTurns(s, turn, closed, kept, expired);
  }

  lemma EnqueueTurns(s: Session, c: Command)
    requires Turns(s) && !c.Respond?
    ensures Turns(Enqueue(s, c))
  {
    var s' := Enqueue(s, c);
    hide Turns;
    SoftTurns(s, s');
  }

  lemma RepliesTurns(s: Session, token: nat, reply: Reply)
    requires Turns(s)
    ensures Turns(WorkerReplies(s, token, reply))
  {
  }

  lemma AsksTurns(s: Session, ask: Ask)
    requires Turns(s)
    ensures Turns(Offer(s, Update(ask)))
  {
  }

  lemma RejectTurns(s: Session, w: Choice)
    requires Turns(s)
    ensures Turns(SettleRejected(s, w))
  {
    hide Turns, Fail;
    if s.rejected != [] {
      var a := s.(rejected := s.rejected[1..]);
      SoftTurns(s, a);
      FailTurns(a, s.rejected[0], w);
    }
  }

  lemma CancelTaskTurns(s: Session, id: nat, w: Choice)
    requires Turns(s)
    ensures Turns(CancelTask(s, id, w))
  {
    hide Turns, CancelTask;
    SoftTurns(s, CancelTask(s, id, w));
  }

  lemma StopTurns(s: Session)
    requires Turns(s)
    ensures Turns(s.(stopped := true))
  {
  }

  lemma RestartTurns(s: Session, savedTurn: Option<nat>, savedClosed: bool, kept: nat, expired: set<nat>)
    requires Turns(s)
    ensures Turns(Restart(s, savedTurn, savedClosed, kept, expired))
  {
    hide L.Crash;
  }
}

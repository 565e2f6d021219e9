/** The turn protocol's tasks: the task of a finished turn has ended, and the
    reservation passes from command to command. */
module TurnTasks {
  import opened Wrappers
  import L = TaskLedger
  import opened TurnProtocol
  import opened TurnStatus

  /** The task of a turn that is over is over, and until then it is the session's. */
  ghost predicate Tasks(s: Session) {
    && (s.activeTask.Some? ==> s.activeTask.value < s.ledger.next)
    && forall k | k in s.tasksOf ::
         && k < s.next && s.tasksOf[k] < s.ledger.next
         && (Over(s.ledger, s.tasksOf[k]) || (Live(s) && s.turnId == Some(k) && s.activeTask == Some(s.tasksOf[k])))
  }

  lemma MoveCalm(s: Session, id: nat, status: L.Status, news: bool, held: bool)
    requires !L.Terminal(status)
    ensures Calm(s, s.(ledger := L.Move(s.ledger, id, status, news, held)))
  {
    hide L.Append;
  }

  lemma UpdateCalm(s: Session, status: L.Status, news: bool, held: bool)
    requires !L.Terminal(status)
    ensures Calm(s, UpdateTask(s, status, news, held))
  {
    hide L.Move;
    if s.activeTask.Some? { MoveCalm(s, s.activeTask.value, status, news, held); }
  }

  lemma CommitOver(l: L.Ledger, id: nat, status: L.Status, result: Option<L.Result>, fate: L.Fate)
    requires L.Terminal(status)
    ensures var l' := L.Commit(l, id, status, result, fate);
            && Over(l', id) && l'.sent == l.sent && l'.next == l.next
            && forall t: nat | Over(l, t) :: Over(l', t)
  {
    hide L.AppendDurable;
  }

  lemma RemoveOver(l: L.Ledger, id: nat, held: bool)
    ensures var l' := L.Remove(l, id, held);
            && Over(l', id) && l'.sent == l.sent && l'.next == l.next
            && forall t: nat | Over(l, t) :: Over(l', t)
  {
    hide L.Append;
  }

  // Ending the session's task ends it, whoever does it.
  lemma EndCalm(s: Session, status: L.Status, fate: L.Fate)
    requires L.Terminal(status)
    ensures Calm(s, EndTask(s, status, fate))
    ensures s.activeTask.Some? ==> Over(EndTask(s, status, fate).ledger, s.activeTask.value)
  {
    if s.activeTask.Some? {
      var turn := if s.turnId.Some? then s.turnId.value else 0;
      CommitOver(s.ledger, s.activeTask.value, status, Some(L.Answer(turn)), fate);
    }
    hide L.Commit;
  }

  lemma FailCalm(s: Session, c: Command, w: Choice)
    ensures Calm(s, Fail(s, c, w)) && (s.activeTask.None? ==> Fail(s, c, w).activeTask.None?)
    ensures Fail(s, c, w).activeTask.None? || Fail(s, c, w).activeTask == s.activeTask
  {
    if c.Prompt? && c.task.Some? {
      CommitOver(s.ledger, c.task.value, L.Failed, Some(L.Answer(0)), w.later);
      RemoveOver(s.ledger, c.task.value, w.held);
    }
    hide L.Commit, L.Remove, Release;
  }

  lemma CancelTaskCalm(s: Session, id: nat, w: Choice)
    ensures Calm(s, CancelTask(s, id, w))
    ensures CancelTask(s, id, w).activeTask.None? || CancelTask(s, id, w).activeTask == s.activeTask
  {
    CommitOver(s.ledger, id, L.Cancelled, Some(L.Answer(0)), w.fate);
    hide L.Commit;
  }

  // Tasks through a step that leaves the turn alone, or ends it with its task.
  lemma TasksCalm(s: Session, s': Session)
    requires Tasks(s) && Calm(s, s') && s'.tasksOf == s.tasksOf && s.next <= s'.next
    requires s'.activeTask == s.activeTask || s'.activeTask.None?
    requires (Live(s') == Live(s) && s'.turnId == s.turnId)
        || (s.activeTask.Some? ==> Over(s'.ledger, s.activeTask.value))
    ensures Tasks(s')
  {
  }

  // A step of one command: it leaves the queue and its own reservation alone,
  // and it ends a turn only with the session's task.
  ghost predicate Steady(s: Session, s': Session) {
    && s'.items == s.items && s'.rejected == s.rejected && s'.reserved == s.reserved
    && s'.tasksOf == s.tasksOf && s'.next == s.next && s'.base == s.base && s'.turnId == s.turnId
    && Calm(s, s') && (s'.activeTask == s.activeTask || s'.activeTask.None?)
    && (s'.turnSeal == s.turnSeal || (s.activeTask.Some? ==> Over(s'.ledger, s.activeTask.value)))
  }

  lemma SteadyTasks(s: Session, s': Session)
    requires Tasks(s) && Steady(s, s')
    ensures Tasks(s')
  {
    hide Tasks, Calm, Over;
    assert s'.turnSeal == s.turnSeal ==> Live(s') == Live(s);
    hide Live;
    TasksCalm(s, s');
  }

  // A status or seal change does not touch tasks; what follows it is one step of the ledger.
  lemma CalmAfter(s: Session, a: Session, s': Session)
    requires a.ledger == s.ledger && a.activeTask == s.activeTask && Calm(a, s')
    ensures Calm(s, s')
  {
  }

  lemma CalmSame(s: Session, s': Session)
    requires s'.ledger == s.ledger && s'.activeTask == s.activeTask
    ensures Calm(s, s')
  {
  }

  lemma CancelSteady(s: Session, w: Choice)
    ensures Steady(s, CancelTurn(s, w)) && CancelTurn(s, w).job == s.job
  {
    var a := SetStatus(s.(cancelRequested := true), Cancelling);
    UpdateCalm(a, L.Working, true, w.held);
    CalmAfter(s, a, UpdateTask(a, L.Working, true, w.held));
    CalmSame(s, s);
    hide Calm, SetStatus, UpdateTask;
  }

  lemma OrphanSteady(s: Session, w: Choice)
    ensures Steady(s, OrphanEnd(s, w)) && OrphanEnd(s, w).job == s.job
  {
    var a := SetStatus(Seal(s.(cancelRequested := true)), Cancelled);
    EndCalm(a, L.Cancelled, w.fate);
    CalmAfter(s, a, EndTask(a, L.Cancelled, w.fate));
    CalmSame(s, s);
    EndLeaves(a, L.Cancelled, w.fate);
    hide Calm, SetStatus, EndTask;
  }

  lemma EndLeaves(s: Session, status: L.Status, fate: L.Fate)
    requires L.Terminal(status)
    ensures EndTask(s, status, fate).activeTask == s.activeTask || EndTask(s, status, fate).activeTask.None?
  {
    hide L.Commit;
  }

  lemma ExitSteady(s: Session, w: Choice)
    ensures Steady(s, Exit(s, w)) && Exit(s, w).job == s.job
  {
    var a := SetStatus(Seal(s).(client := NoClient), Disconnected);
    EndCalm(a, OutcomeOf(a.status), w.fate);
    CalmAfter(s, a, FinishTask(a, w.fate));
    CalmSame(s, s);
    CalmSame(s, a);
    EndLeaves(a, OutcomeOf(a.status), w.fate);
    hide Calm, SetStatus, EndTask;
  }

  lemma FinishSteady(s: Session, token: nat, reply: Reply, w: Choice)
    ensures Steady(s, FinishTurn(s, token, reply, w)) && FinishTurn(s, token, reply, w).job == s.job
  {
    var a := SetStatus(Seal(s), if s.client.Alive? then Error else Disconnected);
    EndCalm(a, OutcomeOf(a.status), w.fate);
    if reply.Ended? {
      var to := if s.cancelRequested || reply.cancelled then Cancelled else Idle;
      var b := SetStatus(Seal(s), to).(cancelRequested := false);
      EndCalm(b, OutcomeOf(b.status), w.fate);
    }
    hide L.Commit, SetStatus, Seal, EndTask;
  }

  lemma SyncSteady(s: Session, w: Choice)
    ensures Steady(s, SyncInput(s, w)) && SyncInput(s, w).job == s.job
  {
    hide Calm, SetStatus, UpdateTask, Accepts;
    var to := if w.pending.None? then Running else if w.pending.value.Permission? then WaitingPermission
      else WaitingInput;
    var status := if w.pending.None? then L.Working else L.InputRequired;
    var a := SetStatus(s, to);
    UpdateCalm(a, status, w.news, w.held);
    CalmAfter(s, a, UpdateTask(a, status, w.news, w.held));
    CalmSame(s, s);
  }

  lemma AskSteady(s: Session, ask: Ask, w: Choice)
    ensures Steady(s, HandleAsk(s, ask, w)) && HandleAsk(s, ask, w).job == s.job
  {
    var to := if ask.Permission? then WaitingPermission else WaitingInput;
    UpdateCalm(SetStatus(s, to), L.InputRequired, w.news, w.held);
    SyncSteady(SetStatus(s, to), w);
    hide L.Move, SetStatus, UpdateTask, SyncInput;
  }

  lemma CloseSteady(s: Session, w: Choice)
    ensures Steady(s, CloseBegins(s, w))
    ensures CloseBegins(s, w).job == s.job || CloseBegins(s, w).job == Some(Closing)
  {
    EndCalm(Seal(s), L.Cancelled, w.fate);
    hide L.Commit, Seal, EndTask;
  }

  lemma FailSteady(s: Session, c: Command, w: Choice)
    requires Tasks(s) && MatchesHolder(s, c)
    requires QueueOf(s, [c])
    ensures Queue(Fail(s, c, w)) && Tasks(Fail(s, c, w))
  {
    FailCalm(s, c, w);
    hide Fail, Calm, Tasks, Over;
    assert Live(Fail(s, c, w)) == Live(s);
    TasksCalm(s, Fail(s, c, w));
    QueueDone(s, c, Fail(s, c, w));
  }

  lemma ReleaseSteady(s: Session, c: Command)
    requires Tasks(s) && QueueOf(s, [c])
    ensures Queue(Release(s, c)) && Tasks(Release(s, c))
  {
    assert c in [c] && MatchesHolder(s, c);
    assert Live(Release(s, c)) == Live(s);
    QueueDone(s, c, Release(s, c));
  }

  lemma SteadyQueue(s: Session, c: Command, s': Session)
    requires QueueOf(s, [c]) && Steady(s, s') && Reserving(c).None? && s.job.None? && Held(s'.job) == []
    ensures Queue(s')
  {
    hide Sendable;
    QueueDone(s, c, s'.(job := None));
    hide Calm;
    assert Held(s'.job) == Held(None);
    forall d | Sendable(s'.(job := None), d) ensures Sendable(s', d) { SendableFields(s'.(job := None), s', d); }
  }

  lemma SendableFields(s: Session, s': Session, c: Command)
    requires s'.ledger == s.ledger && s'.activeTask == s.activeTask
    ensures Sendable(s, c) == Sendable(s', c)
  {
  }

  lemma SteadyBoth(s: Session, c: Command, s': Session)
    requires QueueOf(s, [c]) && Tasks(s) && Steady(s, s') && Reserving(c).None? && s.job.None? && Held(s'.job) == []
    ensures Queue(s') && Tasks(s')
  {
    hide QueueOf, Tasks, Steady;
    SteadyQueue(s, c, s');
    SteadyTasks(s, s');
  }

  lemma SelfSteady(s: Session)
    ensures Steady(s, s)
  {
  }

  lemma AnsweringSteady(s: Session)
    ensures Steady(s, s.(job := Some(Answering)))
  {
  }

  lemma StartKeeps(s: Session, c: Command, w: Choice)
    requires QueueOf(s, [c]) && Sendable(s, c) && Tasks(s) && s.job.None?
    ensures Queue(Start(s, c, w)) && Tasks(Start(s, c, w))
  {
    assert c in [c] && MatchesHolder(s, c);
    hide QueueOf, Tasks, Steady, CancelTurn, OrphanEnd, Exit, FinishTurn, SyncInput, HandleAsk, CloseBegins;
    var s' := Start(s, c, w);
    match c
    case Prompt(_, _) => StartHolds(s, c, w);
    case Restore => StartHolds(s, c, w);
    case Configure(_) => StartHolds(s, c, w);
    case Respond =>
      SyncSteady(s, w);
      AnsweringSteady(s);
      SelfSteady(s);
      SteadyBoth(s, c, s');
    case Close =>
      CloseSteady(s, w);
      SteadyBoth(s, c, s');
    case Update(ask) =>
      AskSteady(s, ask, w);
      SteadyBoth(s, c, s');
    case Cancel => CancelSteady(s, w); SteadyBoth(s, c, s');
    case OrphanCancel => OrphanSteady(s, w); SteadyBoth(s, c, s');
    case ProviderExit => ExitSteady(s, w); SteadyBoth(s, c, s');
    case Finish(token, reply) => FinishSteady(s, token, reply, w); SteadyBoth(s, c, s');
  }

  lemma StartHolds(s: Session, c: Command, w: Choice)
    requires QueueOf(s, [c]) && Sendable(s, c) && Tasks(s) && s.job.None? && MatchesHolder(s, c)
    requires c.Prompt? || c.Restore? || c.Configure?
    ensures Queue(Start(s, c, w)) && Tasks(Start(s, c, w))
  {
    FailSteady(s, c, w);
    assert Live(s.(job := Some(Ready(c)))) == Live(s) == Live(s.(job := Some(Reconnecting(c, false))));
    QueueHolds(s, c, s.(job := Some(Ready(c))));
    QueueHolds(s, c, s.(job := Some(Reconnecting(c, false))));
    hide QueueOf, Fail;
  }

  lemma DispatchOver(l: L.Ledger, id: nat, fate: L.Fate, leaves: bool)
    ensures var l' := L.Dispatch(l, id, fate, leaves);
            && l'.next == l.next && (forall t: nat | Over(l, t) :: Over(l', t))
            && (!leaves || (L.Stampable(l, id) && !fate.Synced?) ==> l'.sent == l.sent)
  {
    hide L.AppendDurable;
  }

  lemma BeginOver(l: L.Ledger, id: nat, token: nat, held: bool)
    ensures var l' := L.Move(L.Attach(l, id, token), id, L.Working, true, held);
            l'.next == l.next && l'.sent == l.sent && forall t: nat | Over(l, t) :: Over(l', t)
  {
    hide L.Append;
  }

  lemma CreateOver(l: L.Ledger, fate: L.Fate, held: bool)
    ensures var l' := L.Create(l, fate, held);
            l'.next == l.next + 1 && l'.sent == l.sent && forall t: nat | t < l.next && Over(l, t) :: Over(l', t)
  {
    hide L.AppendDurable, L.Append;
  }

  // What the start of a turn leaves.
  lemma BegunFields(s: Session, task: Option<nat>, w: Choice)
    ensures var r := StartTurn(s, task, w);
            && SameQueue(s, r) && r.reserved == s.reserved && r.activeTask == s.activeTask
            && r.turnId == Some(s.next) && r.turnSeal == None && r.next == s.next + 1 && r.base == s.base
            && r.tasksOf == (if task.Some? then s.tasksOf[s.next := task.value] else s.tasksOf)
            && r.ledger.next == s.ledger.next && forall t: nat | Over(s.ledger, t) :: Over(r.ledger, t)
  {
    if task.Some? { BeginOver(s.ledger, task.value, s.next, w.held); }
    hide L.Move, L.Attach, SetStatus;
  }

  // A turn that begins, with nobody else's under it.
  lemma BegunTasks(s: Session, a: Session, c: Command, w: Choice)
    requires Tasks(s) && !Live(s) && s.base <= s.next && c.Prompt? && Sendable(s, c)
    requires a == s.(ledger := a.ledger) && a.ledger.next == s.ledger.next
    requires forall t: nat | Over(s.ledger, t) :: Over(a.ledger, t)
    ensures Tasks(StartTurn(a, c.task, w))
  {
    BegunFields(a, c.task, w);
    hide StartTurn, Over;
  }

  // The ledger after the attempt to send, whether the prompt left or not.
  function Dispatched(s: Session, c: Command, w: Choice): (a: Session)
    requires c.Prompt?
    ensures a == s.(ledger := a.ledger)
  {
    if c.task.None? then s
    else s.(ledger := L.Dispatch(s.ledger, c.task.value, w.fate, w.yes && s.client.Alive?))
  }

  predicate Leaves(s: Session, c: Command, w: Choice)
    requires c.Prompt?
  {
    w.yes && s.client.Alive? && (c.task.Some? && L.Stampable(s.ledger, c.task.value) ==> w.fate.Synced?)
  }

  lemma SendCases(s: Session, c: Command, w: Choice)
    requires c.Prompt?
    ensures SendPrompt(s, c, w) ==
              if TaskEnded(s.ledger, c.task) then Release(s, c)
              else if Leaves(s, c, w) then Release(StartTurn(Dispatched(s, c, w), c.task, w), c)
              else Fail(Dispatched(s, c, w), c, w)
  {
    hide L.Dispatch, StartTurn, Fail, Release;
  }

  lemma SendWithheld(s: Session, c: Command, w: Choice)
    requires QueueOf(s, [c]) && Tasks(s) && c.Prompt? && !Leaves(s, c, w)
    ensures var r := Fail(Dispatched(s, c, w), c, w); Queue(r) && Tasks(r)
  {
    var a := Dispatched(s, c, w);
    assert c in [c] && MatchesHolder(a, c);
    if c.task.Some? { DispatchOver(s.ledger, c.task.value, w.fate, w.yes && s.client.Alive?); }
    assert Calm(s, a);
    SameLive(s, a);
    hide Dispatched, QueueOf, Tasks, Calm, Live, Fail;
    QueueCalm(s, a, [c]);
    TasksCalm(s, a);
    FailSteady(a, c, w);
  }

  lemma SendBegins(s: Session, c: Command, w: Choice)
    requires QueueOf(s, [c]) && Sendable(s, c) && Tasks(s) && c.Prompt? && s.job.None? && !Live(s) && s.base <= s.next
    ensures var r := Release(StartTurn(Dispatched(s, c, w), c.task, w), c); Queue(r) && Tasks(r)
  {
    var a := Dispatched(s, c, w);
    assert c in [c] && MatchesHolder(s, c);
    if c.task.Some? { DispatchOver(s.ledger, c.task.value, w.fate, w.yes && s.client.Alive?); }
    BegunTasks(s, a, c, w);
    BegunFields(a, c.task, w);
    hide Dispatched, QueueOf, Tasks, Over, StartTurn;
    QueueDone(s, c, Release(StartTurn(a, c.task, w), c));
    ReleaseTasks(StartTurn(a, c.task, w), c);
  }

  lemma SendKeeps(s: Session, c: Command, w: Choice)
    requires QueueOf(s, [c]) && Sendable(s, c) && Tasks(s) && c.Prompt? && s.job.None? && !Live(s) && s.base <= s.next
    ensures Queue(SendPrompt(s, c, w)) && Tasks(SendPrompt(s, c, w))
  {
    SendCases(s, c, w);
    hide SendPrompt, QueueOf, Tasks, Leaves, Dispatched, StartTurn, Fail, Release, Live;
    ReleaseSteady(s, c);
    if Leaves(s, c, w) { SendBegins(s, c, w); } else { SendWithheld(s, c, w); }
  }

  lemma SameLive(s: Session, s': Session)
    requires s'.turnId == s.turnId && s'.turnSeal == s.turnSeal && s'.base == s.base
    ensures Live(s') == Live(s)
  {
  }

  lemma ReleaseTasks(s: Session, c: Command)
    requires Tasks(s)
    ensures Tasks(Release(s, c))
  {
    assert Live(Release(s, c)) == Live(s);
  }

  lemma CountOne(cs: seq<Command>, c: Command)
    ensures Count(cs + [c]) == Count(cs) + if Reserving(c).Some? then 1 else 0
  {
    CountAdds(cs, [c]);
    CountSingle(c);
  }

  // A command that arrives, with its reservation if it takes one.
  lemma EnqueueKeeps(s: Session, a: Session, c: Command)
    requires Queue(s) && SameQueue(s, a) && !FromWorker(c) && Sendable(a, c)
    requires if Reserving(c).Some? then s.reserved.None? && a.reserved == Reserving(c)
             else a.reserved == s.reserved && a.ledger == s.ledger && a.activeTask == s.activeTask
    ensures Queue(Enqueue(a, c))
  {
    CountEmpty();
    CountOne(s.items, c);
    CountOne(s.rejected, c);
    var s' := Enqueue(a, c);
    SendableFields(a, s', c);
    EnqueueParts(a, c);
    forall d | d in Held(s.job) || d in s.items || d in s.rejected
      ensures MatchesHolder(s', d) && (Sendable(s, d) ==> Sendable(s', d))
    {
      if Reserving(c).Some? { NoHolder(s, d); PromptReserves(d); } else { SendableFields(s, s', d); }
    }
    hide Count, Held, Sendable, Enqueue;
  }

  lemma EnqueueParts(a: Session, c: Command)
    ensures var s' := Enqueue(a, c);
            || (s'.items == a.items + [c] && s'.rejected == a.rejected)
            || (s'.items == a.items && s'.rejected == a.rejected + [c])
  {
  }

  lemma PromptReserves(c: Command)
    ensures c.Prompt? ==> Reserving(c).Some?
  {
  }

  lemma NoHolder(s: Session, c: Command)
    requires Queue(s) && s.reserved.None? && (c in Held(s.job) || c in s.items || c in s.rejected)
    ensures Reserving(c).None?
  {
    CountEmpty();
    if c in Held(s.job) { CountZero(Held(s.job), c); }
    if c in s.items { CountZero(s.items, c); }
    if c in s.rejected { CountZero(s.rejected, c); }
  }

  lemma ArrivesKeeps(s: Session, a: Session, c: Command)
    requires Queue(s) && Tasks(s) && SameQueue(s, a) && !FromWorker(c) && !(c.Prompt? && c.task.Some?)
    requires a == s.(reserved := a.reserved)
    requires if Reserving(c).Some? then s.reserved.None? && a.reserved == Reserving(c) else a == s
    ensures Queue(Enqueue(a, c)) && Tasks(Enqueue(a, c))
  {
    EnqueueKeeps(s, a, c);
    SameLive(s, Enqueue(a, c));
    hide Live, Queue, QueueOf;
  }

  lemma AdmitTaskKeeps(s: Session, w: Choice)
    requires Turns(s) && Queue(s) && Tasks(s) && L.Memory(s.ledger)
    ensures Queue(AdmitTask(s, w)) && Tasks(AdmitTask(s, w))
  {
    NotLive(s);
    CreateOver(s.ledger, w.fate, w.held);
    var made := s.(ledger := L.Create(s.ledger, w.fate, w.held));
    SameLive(s, made);
    hide Turns, L.Create;
    if Admits(s) && w.fate.Synced? {
      var id := s.ledger.next;
      var handBack := !QueueIdle(s) || NeedsRestore(s);
      var preparing := if handBack then Some(id) else made.preparing;
      var a := made.(reserved := Some(ForPrompt), activeTask := Some(id), preparing := preparing);
      assert id !in s.ledger.sent && Sendable(a, Prompt(Some(id), handBack));
      hide L.Memory, QueueOf;
      EnqueueKeeps(s, a, Prompt(Some(id), handBack));
      SameLive(s, Enqueue(a, Prompt(Some(id), handBack)));
      hide Live;
    } else if Admits(s) {
      QueueCalm(s, made, []);
      TasksCalm(s, made);
    }
  }

  lemma CloseEndsKeeps(s: Session, w: Choice)
    requires Turns(s) && Queue(s) && Tasks(s) && s.job == Some(Closing)
    ensures Queue(CloseEnds(s, w)) && Tasks(CloseEnds(s, w))
  {
    CountAdds(s.rejected + s.items, s.critical);
    CountAdds(s.rejected, s.items);
    WorkersCount(s);
    SameLive(s, CloseEnds(s, w));
    hide Turns, Live, SetStatus, Reserving;
    CountEmpty();
  }

  lemma WorkersCount(s: Session)
    requires Turns(s)
    ensures Count(s.critical) == 0 && forall c | c in s.critical :: Reserving(c).None?
  {
    CountNone(s.critical);
  }

  // A step that touches neither the queue's commands nor any task.
  lemma AsideKeeps(s: Session, s': Session)
    requires Queue(s) && Tasks(s) && SameQueue(s, s') && s'.reserved == s.reserved && s'.ledger == s.ledger
    requires s'.activeTask == s.activeTask && s'.turnId == s.turnId && s'.turnSeal == s.turnSeal && s'.base == s.base
    requires s'.tasksOf == s.tasksOf && s'.next == s.next
    ensures Queue(s') && Tasks(s')
  {
    SameLive(s, s');
    CalmSame(s, s');
    hide Live, Calm, QueueOf, Tasks;
    QueueCalm(s, s', []);
    TasksCalm(s, s');
  }

  lemma DequeueKeeps(s: Session, w: Choice)
    requires Turns(s) && Queue(s) && Tasks(s)
    ensures Queue(Dequeue(s, w)) && Tasks(Dequeue(s, w))
  {
    if s.job.None? && s.critical != [] {
      var c := s.critical[0];
      var a := s.(critical := s.critical[1..]);
      WorkersCount(s);
      assert c in s.critical;
      AsideKeeps(s, a);
      CountSingle(c);
      assert QueueOf(a, [c]);
      assert Sendable(a, c);
      hide Turns, QueueOf, Tasks, Start;
      StartKeeps(a, c, w);
    } else if s.job.None? && s.items != [] {
      var a := s.(items := s.items[1..]);
      QueuePops(s);
      SameLive(s, a);
      hide Turns, QueueOf, Start;
      StartKeeps(a, s.items[0], w);
    }
  }

  // The command whose job it was goes on without the mailbox.
  lemma ResumeLetsGo(s: Session, c: Command, a: Session)
    requires Queue(s) && Tasks(s) && Held(s.job) == [c] && a.job.None? && a.items == s.items && a.rejected == s.rejected
    requires a.reserved == s.reserved && a.ledger == s.ledger && a.activeTask == s.activeTask && a.turnId == s.turnId
    requires a.turnSeal == s.turnSeal && a.base == s.base && a.tasksOf == s.tasksOf && a.next == s.next
    ensures QueueOf(a, [c]) && Tasks(a) && Sendable(a, c) && MatchesHolder(a, c) && Live(a) == Live(s)
  {
    QueueLetsGo(s, c);
    var idle := s.(job := None);
    SameLive(s, a);
    assert c in Held(s.job);
    CalmSame(s, a);
    CalmSame(idle, a);
    hide Live, QueueOf, Tasks, Calm;
    QueueCalm(idle, a, [c]);
    SameLive(s, idle);
    TasksCalm(s, a);
  }

  lemma ReconnectBeginsKeeps(s: Session)
    requires Queue(s) && Tasks(s) && s.job.Some? && s.job.value.Reconnecting?
    ensures var again := SetStatus(s, Restoring).(job := Some(Reconnecting(s.job.value.command, true)));
            Queue(again) && Tasks(again)
  {
    var c := s.job.value.command;
    var again := SetStatus(s, Restoring).(job := Some(Reconnecting(c, true)));
    ResumeLetsGo(s, c, s.(job := None));
    hide SetStatus;
    QueueHolds(s.(job := None), c, again);
    SameLive(s, again);
    hide Live, QueueOf;
  }

  lemma ReconnectBackKeeps(s: Session)
    requires Queue(s) && Tasks(s) && s.job.Some? && s.job.value.Reconnecting?
    ensures var c := s.job.value.command; var back := SetStatus(s.(job := None, client := Alive), Idle);
            var ready := back.(job := Some(Ready(c)));
            Queue(Release(back, c)) && Tasks(Release(back, c)) && Queue(ready) && Tasks(ready)
  {
    var c := s.job.value.command;
    var back := SetStatus(s.(job := None, client := Alive), Idle);
    var ready := back.(job := Some(Ready(c)));
    hide SetStatus;
    ResumeLetsGo(s, c, back);
    ReleaseSteady(back, c);
    QueueHolds(back, c, ready);
    SameLive(s, ready);
    hide Live, QueueOf, Release;
  }

  lemma ReconnectKeeps(s: Session, path: Path, w: Choice)
    requires Queue(s) && Tasks(s) && s.job.Some? && s.job.value.Reconnecting?
    ensures Queue(Resume(s, path, w)) && Tasks(Resume(s, path, w))
  {
    var c, begun := s.job.value.command, s.job.value.begun;
    var idle := s.(job := None);
    RestoreFields(idle);
    hide QueueOf, Tasks, Fail, Release, SetStatus, RestoreFailed, Live;
    ReconnectBeginsKeeps(s);
    ReconnectBackKeeps(s);
    ResumeLetsGo(s, c, idle);
    ResumeLetsGo(s, c, RestoreFailed(idle));
    FailSteady(idle, c, w);
    FailSteady(RestoreFailed(idle), c, w);
  }

  lemma RestoreFields(s: Session)
    ensures RestoreFailed(s) == s.(status := RestoreFailed(s).status, moves := RestoreFailed(s).moves)
  {
    hide SetStatus;
  }

  lemma ReadyKeeps(s: Session, path: Path, w: Choice)
    requires Turns(s) && Queue(s) && Tasks(s) && s.job.Some? && s.job.value.Ready?
    ensures Queue(Resume(s, path, w)) && Tasks(Resume(s, path, w))
  {
    var c := s.job.value.command;
    var idle := s.(job := None);
    ResumeLetsGo(s, c, idle);
    NotLive(s);
    assert s.base <= s.next;
    hide Turns, QueueOf, Tasks, Fail, SendPrompt, Live;
    FailSteady(idle, c, w);
    if c.Prompt? { SendKeeps(idle, c, w); }
  }

  lemma ResumeKeeps(s: Session, path: Path, w: Choice)
    requires Turns(s) && Queue(s) && Tasks(s)
    ensures Queue(Resume(s, path, w)) && Tasks(Resume(s, path, w))
  {
    if s.job.Some? {
      match s.job.value
      case Reconnecting(_, _) => ReconnectKeeps(s, path, w);
      case Ready(_) => ReadyKeeps(s, path, w);
      case Answering =>
        var idle := s.(job := None);
        AnswerLetsGo(s);
        SyncSteady(idle, w);
        hide Queue, QueueOf, Tasks, SyncInput, Steady;
        AnsweredKeeps(idle, SyncInput(idle, w));
      case Closing => CloseEndsKeeps(s, w);
    }
  }

  lemma AnswerLetsGo(s: Session)
    requires Queue(s) && Tasks(s) && Held(s.job) == []
    ensures Queue(s.(job := None)) && Tasks(s.(job := None))
  {
    var idle := s.(job := None);
    SameLive(s, idle);
    forall c | Sendable(s, c) ensures Sendable(idle, c) {}
  }

  lemma AnsweredKeeps(s: Session, s': Session)
    requires Queue(s) && Tasks(s) && Steady(s, s') && s'.job == s.job
    ensures Queue(s') && Tasks(s')
  {
    hide QueueOf, Tasks, Calm;
    QueueCalm(s, s', []);
    SteadyTasks(s, s');
  }

  lemma RejectKeeps(s: Session, w: Choice)
    requires Queue(s) && Tasks(s)
    ensures Queue(SettleRejected(s, w)) && Tasks(SettleRejected(s, w))
  {
    if s.rejected != [] {
      var a := s.(rejected := s.rejected[1..]);
      QueueRejects(s);
      SameLive(s, a);
      assert s.rejected[0] in [s.rejected[0]] && MatchesHolder(a, s.rejected[0]);
      hide QueueOf, Fail, Live;
      FailSteady(a, s.rejected[0], w);
    }
  }

  lemma StorageOver(l: L.Ledger, op: L.Op)
    requires Housekeeping(op)
    ensures var l' := L.Step(l, op);
            l'.next == l.next && l'.sent == l.sent && forall t: nat | Over(l, t) :: Over(l', t)
  {
    hide L.Append, L.Replay;
  }

  lemma LedgerStepKeeps(s: Session, s': Session)
    requires Queue(s) && Tasks(s) && Calm(s, s') && s' == s.(ledger := s'.ledger, activeTask := s'.activeTask)
    requires s'.activeTask == s.activeTask || s'.activeTask.None?
    ensures Queue(s') && Tasks(s')
  {
    SameLive(s, s');
    hide QueueOf, Tasks, Calm, Live;
    QueueCalm(s, s', []);
    TasksCalm(s, s');
  }

  lemma RestartKeeps(s: Session, savedTurn: Option<nat>, savedClosed: bool, kept: nat, expired: set<nat>)
    requires Queue(s) && Tasks(s)
    ensures Queue(Restart(s, savedTurn, savedClosed, kept, expired))
        && Tasks(Restart(s, savedTurn, savedClosed, kept, expired))
  {
    CountEmpty();
    hide L.Crash;
  }

  lemma ConfigureKeeps(s: Session, change: bool)
    requires Queue(s) && Tasks(s)
    ensures Queue(AdmitConfigure(s, change)) && Tasks(AdmitConfigure(s, change))
  {
    hide QueueOf, Tasks, Enqueue;
    if Open(s) && !change {
      ArrivesKeeps(s, s, Configure(false));
    } else if Open(s) && s.reserved.None? && !Active(s.status) {
      ArrivesKeeps(s, s.(reserved := Some(ForConfig)), Configure(true));
    }
  }

  lemma OutsideKeeps(s: Session, e: Event)
    requires Queue(s) && Tasks(s)
    requires e.Unloads? || e.Retires? || e.Dies? || e.Replies? || e.Asks? || e.Stops?
    ensures Queue(Next(s, e)) && Tasks(Next(s, e))
  {
    hide QueueOf, Tasks, SetStatus;
    AsideKeeps(s, Next(s, e));
  }

  lemma CommandKeeps(s: Session, e: Event)
    requires Queue(s) && Tasks(s)
    requires e.PromptArrives? || e.RestoreArrives? || e.ConfigureArrives? || e.CommandArrives? || e.ResponseArrives?
    ensures Queue(Next(s, e)) && Tasks(Next(s, e))
  {
    hide QueueOf, Tasks, Enqueue;
    match e
    case PromptArrives => if Admits(s) { ArrivesKeeps(s, s.(reserved := Some(ForPrompt)), Prompt(None, false)); }
    case RestoreArrives => if AdmitRestore(s) != s { ArrivesKeeps(s, s.(reserved := Some(ForRestore)), Restore); }
    case ConfigureArrives(change) => ConfigureKeeps(s, change);
    case CommandArrives(c) => if c.Cancel? || c.Close? || c.OrphanCancel? { ArrivesKeeps(s, s, c); }
    case ResponseArrives => ArrivesKeeps(s, s, Respond);
  }

  lemma NextKeeps(s: Session, e: Event)
    requires Turns(s) && Queue(s) && Tasks(s) && L.Memory(s.ledger)
    ensures Queue(Next(s, e)) && Tasks(Next(s, e))
  {
    hide Turns, QueueOf, Tasks, L.Memory, AdmitTask, Dequeue, Resume, SettleRejected, CancelTask, Restart, L.Step;
    match e
    case RunArrives(w) => AdmitTaskKeeps(s, w);
    case Runs(w) => DequeueKeeps(s, w);
    case Resumes(path, w) => ResumeKeeps(s, path, w);
    case Rejects(w) => RejectKeeps(s, w);
    case TaskCancels(id, w) => CancelTaskKeeps(s, id, w);
    case Storage(op) => if Housekeeping(op) { StorageKeeps(s, op); }
    case Crashes(turn, closed, kept, expired) => RestartKeeps(s, turn, closed, kept, expired);
    case Unloads => OutsideKeeps(s, e);
    case Retires(_) => OutsideKeeps(s, e);
    case Dies => OutsideKeeps(s, e);
    case Replies(_, _) => OutsideKeeps(s, e);
    case Asks(_) => OutsideKeeps(s, e);
    case Stops => OutsideKeeps(s, e);
    case PromptArrives => CommandKeeps(s, e);
    case RestoreArrives => CommandKeeps(s, e);
    case ConfigureArrives(_) => CommandKeeps(s, e);
    case CommandArrives(_) => CommandKeeps(s, e);
    case ResponseArrives => CommandKeeps(s, e);
  }

  lemma CancelTaskKeeps(s: Session, id: nat, w: Choice)
    requires Queue(s) && Tasks(s)
    ensures Queue(CancelTask(s, id, w)) && Tasks(CancelTask(s, id, w))
  {
    hide QueueOf, Tasks, CancelTask;
    CancelTaskCalm(s, id, w);
    LedgerStepKeeps(s, CancelTask(s, id, w));
  }

  lemma StorageKeeps(s: Session, op: L.Op)
    requires Queue(s) && Tasks(s) && Housekeeping(op)
    ensures var s' := s.(ledger := L.Step(s.ledger, op)); Queue(s') && Tasks(s')
  {
    hide QueueOf, Tasks, L.Step;
    StorageOver(s.ledger, op);
    LedgerStepKeeps(s, s.(ledger := L.Step(s.ledger, op)));
  }
}

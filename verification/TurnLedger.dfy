/** Every step of the turn protocol is a run of the task ledger. */
module TurnLedger {
  import opened Wrappers
  import L = TaskLedger
  import opened TurnProtocol
  import opened TurnStatus
  import opened TurnTasks

  ghost predicate Reaches(l: L.Ledger, l': L.Ledger) { exists ops :: L.Run(l, ops) == l' }

  lemma Stays(l: L.Ledger)
    ensures Reaches(l, l)
  {
    assert L.Run(l, []) == l;
  }

  lemma Steps(l: L.Ledger, op: L.Op)
    ensures Reaches(l, L.Step(l, op))
  {
    hide L.Step;
    assert [op][..0] == [];
    assert L.Run(l, [op]) == L.Step(l, op);
  }

  lemma Chains(l: L.Ledger, m: L.Ledger, n: L.Ledger)
    requires Reaches(l, m) && Reaches(m, n)
    ensures Reaches(l, n)
  {
    var a :| L.Run(l, a) == m;
    var b :| L.Run(m, b) == n;
    Concatenates(l, a, b);
  }

  lemma {:induction false} Concatenates(l: L.Ledger, a: seq<L.Op>, b: seq<L.Op>)
    ensures L.Run(l, a + b) == L.Run(L.Run(l, a), b)
    decreases |b|
  {
    hide L.Step;
    if b == [] {
      assert a + b == a;
    } else {
      Concatenates(l, a, b[..|b| - 1]);
      assert (a + b)[..|a + b| - 1] == a + b[..|b| - 1];
    }
  }

  lemma ReachesSound(l: L.Ledger, l': L.Ledger)
    requires L.Sound(l) && Reaches(l, l')
    ensures L.Sound(l') && l.told <= l'.told && l.sent <= l'.sent
  {
    hide L.Sound, L.Run;
    var ops :| L.Run(l, ops) == l';
    L.RunKeeps(l, ops);
    L.RunRemembers(l, ops);
  }

  lemma UpdateReaches(s: Session, status: L.Status, news: bool, held: bool)
    requires !L.Terminal(status)
    ensures Reaches(s.ledger, UpdateTask(s, status, news, held).ledger)
  {
    hide L.Move, Reaches;
    Stays(s.ledger);
    if s.activeTask.Some? { Steps(s.ledger, L.Progress(s.activeTask.value, status, news, held)); }
  }

  lemma EndReaches(s: Session, status: L.Status, fate: L.Fate)
    requires L.Terminal(status)
    ensures Reaches(s.ledger, EndTask(s, status, fate).ledger)
  {
    hide L.Commit, Reaches;
    Stays(s.ledger);
    if s.activeTask.Some? {
      var turn := if s.turnId.Some? then s.turnId.value else 0;
      Steps(s.ledger, L.Finish(s.activeTask.value, status, Some(L.Answer(turn)), fate));
    }
  }

  lemma FailReaches(s: Session, c: Command, w: Choice)
    ensures Reaches(s.ledger, Fail(s, c, w).ledger)
  {
    hide L.Commit, L.Remove, Reaches;
    Stays(s.ledger);
    if c.Prompt? && c.task.Some? {
      Steps(s.ledger, L.Finish(c.task.value, L.Failed, Some(L.Answer(0)), w.later));
      Steps(s.ledger, L.Forget(c.task.value, w.held));
    }
  }

  lemma SyncReaches(s: Session, w: Choice)
    ensures Reaches(s.ledger, SyncInput(s, w).ledger)
  {
    hide Reaches, UpdateTask, Accepts, SetStatus;
    Stays(s.ledger);
    UpdateReaches(SetStatus(s, Status.Running), L.Working, w.news, w.held);
    UpdateReaches(SetStatus(s, WaitingPermission), L.InputRequired, w.news, w.held);
    UpdateReaches(SetStatus(s, WaitingInput), L.InputRequired, w.news, w.held);
  }

  lemma FinishReaches(s: Session, token: nat, reply: Reply, w: Choice)
    ensures Reaches(s.ledger, FinishTurn(s, token, reply, w).ledger)
  {
    hide Reaches, EndTask, SetStatus, Seal, OutcomeOf;
    Stays(s.ledger);
    var to := match reply case Failure => (if s.client.Alive? then Error else Disconnected)
              case Ended(cancelled) => (if s.cancelRequested || cancelled then Cancelled else Idle);
    var a := SetStatus(Seal(s), to);
    EndReaches(a, OutcomeOf(a.status), w.fate);
    EndReaches(a.(cancelRequested := false), OutcomeOf(a.status), w.fate);
  }

  lemma EndsReach(s: Session, w: Choice)
    ensures Reaches(s.ledger, CloseBegins(s, w).ledger) && Reaches(s.ledger, OrphanEnd(s, w).ledger)
    ensures Reaches(s.ledger, Exit(s, w).ledger) && Reaches(s.ledger, CancelTurn(s, w).ledger)
  {
    hide Reaches, UpdateTask, EndTask, SetStatus, Seal, OutcomeOf, Open, Active;
    Stays(s.ledger);
    UpdateReaches(SetStatus(s.(cancelRequested := true), Cancelling), L.Working, true, w.held);
    EndReaches(Seal(s), L.Cancelled, w.fate);
    EndReaches(SetStatus(Seal(s.(cancelRequested := true)), Cancelled), L.Cancelled, w.fate);
    var a := SetStatus(Seal(s).(client := NoClient), Disconnected);
    EndReaches(a, OutcomeOf(a.status), w.fate);
  }

  lemma AskReaches(s: Session, ask: Ask, w: Choice)
    ensures Reaches(s.ledger, HandleAsk(s, ask, w).ledger)
  {
    hide Reaches, UpdateTask, SetStatus, SyncInput, Open, Accepts;
    Stays(s.ledger);
    var to := if ask.Permission? then WaitingPermission else WaitingInput;
    SyncReaches(SetStatus(s, to), w);
    UpdateReaches(SetStatus(s, to), L.InputRequired, w.news, w.held);
  }

  lemma StartReaches(s: Session, c: Command, w: Choice)
    ensures Reaches(s.ledger, Start(s, c, w).ledger)
  {
    hide Reaches, Fail, SyncInput, FinishTurn, HandleAsk, CloseBegins, OrphanEnd, Exit, CancelTurn, Open, NeedsRestore;
    Stays(s.ledger);
    match c
    case Prompt(_, _) => FailReaches(s, c, w);
    case Restore => FailReaches(s, c, w);
    case Configure(_) => FailReaches(s, c, w);
    case Cancel => EndsReach(s, w);
    case Close => EndsReach(s, w);
    case Respond => SyncReaches(s, w);
    case OrphanCancel => EndsReach(s, w);
    case Update(ask) => AskReaches(s, ask, w);
    case ProviderExit => EndsReach(s, w);
    case Finish(token, reply) => FinishReaches(s, token, reply, w);
  }

  lemma BegunReaches(s: Session, task: Option<nat>, w: Choice)
    ensures Reaches(s.ledger, StartTurn(s, task, w).ledger)
  {
    hide Reaches, L.Attach, L.Move, SetStatus;
    Stays(s.ledger);
    if task.Some? {
      var started := L.Attach(s.ledger, task.value, s.next);
      Steps(s.ledger, L.Started(task.value, s.next));
      Steps(started, L.Progress(task.value, L.Working, true, w.held));
      Chains(s.ledger, started, L.Move(started, task.value, L.Working, true, w.held));
    }
  }

  lemma DispatchReaches(s: Session, c: Command, w: Choice)
    requires c.Prompt? && Sendable(s, c) && !TaskEnded(s.ledger, c.task)
    ensures Reaches(s.ledger, Dispatched(s, c, w).ledger)
  {
    hide Reaches, L.Dispatch;
    Stays(s.ledger);
    if c.task.Some? { Steps(s.ledger, L.Prompt(c.task.value, w.fate, w.yes && s.client.Alive?)); }
  }

  lemma SendReaches(s: Session, c: Command, w: Choice)
    requires c.Prompt? && Sendable(s, c)
    ensures Reaches(s.ledger, SendPrompt(s, c, w).ledger)
  {
    SendCases(s, c, w);
    hide Reaches, SendPrompt, StartTurn, Fail, Release, L.Dispatch;
    Stays(s.ledger);
    if !TaskEnded(s.ledger, c.task) {
      var a := Dispatched(s, c, w);
      DispatchReaches(s, c, w);
      hide Dispatched, Sendable;
      if Leaves(s, c, w) {
        BegunReaches(a, c.task, w);
        Chains(s.ledger, a.ledger, StartTurn(a, c.task, w).ledger);
      } else {
        FailReaches(a, c, w);
        Chains(s.ledger, a.ledger, Fail(a, c, w).ledger);
      }
    }
  }

  lemma ReconnectReaches(s: Session, path: Path, w: Choice)
    requires s.job.Some? && s.job.value.Reconnecting?
    ensures Reaches(s.ledger, Resume(s, path, w).ledger)
  {
    var c := s.job.value.command;
    var idle := s.(job := None);
    RestoreFields(idle);
    hide Reaches, SetStatus, Fail, Release, RestoreFailed, Open;
    Stays(s.ledger);
    FailReaches(idle, c, w);
    FailReaches(RestoreFailed(idle), c, w);
  }

  lemma ResumeReaches(s: Session, path: Path, w: Choice)
    requires Queue(s)
    ensures Reaches(s.ledger, Resume(s, path, w).ledger)
  {
    Stays(s.ledger);
    if s.job.Some? && s.job.value.Reconnecting? {
      ReconnectReaches(s, path, w);
    } else if s.job.Some? && s.job.value.Ready? {
      var c := s.job.value.command;
      var idle := s.(job := None);
      assert Held(s.job) == [c];
      QueueLetsGo(s, c);
      hide Reaches, QueueOf, SendPrompt, Fail;
      FailReaches(idle, c, w);
      if c.Prompt? { SendReaches(idle, c, w); }
    } else if s.job == Some(Answering) {
      SyncReaches(s.(job := None), w);
      hide Reaches, SyncInput;
    } else {
      hide Reaches, SetStatus;
    }
  }

  // What these steps leave as it is.
  lemma LedgerAside(s: Session, e: Event)
    requires !e.RunArrives? && !e.Runs? && !e.Resumes? && !e.Rejects? && !e.TaskCancels? && !e.Storage? && !e.Crashes?
    ensures Next(s, e).ledger == s.ledger
  {
    hide Enqueue, Post, Offer, SetStatus;
  }

  lemma DequeueReaches(s: Session, w: Choice)
    ensures Reaches(s.ledger, Dequeue(s, w).ledger)
  {
    hide Reaches, Start;
    Stays(s.ledger);
    if s.critical != [] { StartReaches(s.(critical := s.critical[1..]), s.critical[0], w); }
    if s.items != [] { StartReaches(s.(items := s.items[1..]), s.items[0], w); }
  }

  lemma AdmitTaskReaches(s: Session, w: Choice)
    ensures Reaches(s.ledger, AdmitTask(s, w).ledger)
  {
    hide Reaches, Enqueue, L.Create, Admits, QueueIdle, NeedsRestore;
    Stays(s.ledger);
    Steps(s.ledger, L.Begin(w.fate, w.held));
  }

  lemma RejectReaches(s: Session, w: Choice)
    ensures Reaches(s.ledger, SettleRejected(s, w).ledger)
  {
    hide Reaches, Fail;
    Stays(s.ledger);
    if s.rejected != [] { FailReaches(s.(rejected := s.rejected[1..]), s.rejected[0], w); }
  }

  lemma CancelTaskReaches(s: Session, id: nat, w: Choice)
    ensures Reaches(s.ledger, CancelTask(s, id, w).ledger)
  {
    hide Reaches, L.Commit, L.Stampable;
    Stays(s.ledger);
    Steps(s.ledger, L.Finish(id, L.Cancelled, Some(L.Answer(0)), w.fate));
  }

  lemma RestartReaches(s: Session, savedTurn: Option<nat>, savedClosed: bool, kept: nat, expired: set<nat>)
    ensures Reaches(s.ledger, Restart(s, savedTurn, savedClosed, kept, expired).ledger)
  {
    hide Reaches, L.Crash;
    Stays(s.ledger);
    Steps(s.ledger, L.Restart(kept, expired));
  }

  lemma MailboxReaches(s: Session, e: Event)
    requires Queue(s) && (e.Runs? || e.Resumes? || e.Rejects?)
    ensures Reaches(s.ledger, Next(s, e).ledger)
  {
    hide Reaches, QueueOf, Dequeue, Resume, SettleRejected;
    match e
    case Runs(w) => DequeueReaches(s, w);
    case Resumes(path, w) => ResumeReaches(s, path, w);
    case Rejects(w) => RejectReaches(s, w);
  }

  lemma StoreReaches(s: Session, e: Event)
    requires e.RunArrives? || e.TaskCancels? || e.Storage? || e.Crashes?
    ensures Reaches(s.ledger, Next(s, e).ledger)
  {
    Stays(s.ledger);
    hide Reaches, AdmitTask, CancelTask, L.Step, Restart;
    match e
    case RunArrives(w) => AdmitTaskReaches(s, w);
    case TaskCancels(id, w) => CancelTaskReaches(s, id, w);
    case Storage(op) => Steps(s.ledger, op);
    case Crashes(turn, closed, kept, expired) => RestartReaches(s, turn, closed, kept, expired);
  }

  lemma NextReaches(s: Session, e: Event)
    requires Queue(s)
    ensures Reaches(s.ledger, Next(s, e).ledger)
  {
    hide Reaches, QueueOf, Next;
    if e.Runs? || e.Resumes? || e.Rejects? {
      MailboxReaches(s, e);
    } else if e.RunArrives? || e.TaskCancels? || e.Storage? || e.Crashes? {
      StoreReaches(s, e);
    } else {
      LedgerAside(s, e);
      Stays(s.ledger);
    }
  }
}

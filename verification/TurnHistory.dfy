/** The turn protocol's history: what was sealed, and which moves were made. */
module TurnHistory {
  import opened Wrappers
  import L = TaskLedger
  import opened TurnProtocol
  import opened TurnStatus
  import opened TurnTasks

  /** Every move began where the one before it led, the first where a session begins, and
      the last led to the status the session has. */
  ghost predicate Linked(s: Session) {
    && (forall i, j | 0 <= i < j < |s.moves| && j == i + 1 :: s.moves[i].1 == s.moves[j].0)
    && (if s.moves == [] then s.status in {Idle, Disconnected, Closed}
        else s.moves[0].0 in {Idle, Disconnected, Closed} && s.moves[|s.moves| - 1].1 == s.status)
  }

  /** No turn of this process is sealed twice, and every move was an edge. */
  ghost predicate History(s: Session) {
    && (forall i, j | 0 <= i < j < |s.sealed| :: s.sealed[i] != s.sealed[j])
    && (forall k | k in s.sealed :: k < s.next && (s.turnId == Some(k) ==> s.turnSeal == s.turnId))
    && (s.turnId.Some? ==> s.turnId.value < s.next)
    && (forall m | m in s.moves :: Edge(m.0, m.1)) && Linked(s)
  }

  lemma StatusMoves(s: Session, to: Status)
    ensures var a := SetStatus(s, to);
            || a == s
            || (a == s.(status := a.status, moves := s.moves + [(s.status, a.status)]) && Edge(s.status, a.status))
  {}

  lemma LinkedMore(s: Session, to: Status)
    requires Linked(s)
    ensures Linked(s.(status := to, moves := s.moves + [(s.status, to)]))
  {}

  lemma StatusHistory(s: Session, to: Status)
    requires History(s)
    ensures History(SetStatus(s, to))
  {
    hide SetStatus, Linked, Edge;
    StatusMoves(s, to);
    LinkedMore(s, SetStatus(s, to).status);
  }

  lemma SealHistory(s: Session)
    requires History(s)
    ensures History(Seal(s))
  {
  }

  lemma SameHistory(s: Session, s': Session)
    requires History(s) && s'.sealed == s.sealed && s'.moves == s.moves && s'.turnId == s.turnId
        && s'.turnSeal == s.turnSeal && s'.status == s.status
    requires s.next <= s'.next
    ensures History(s')
  {
  }

  lemma SealedHistory(s: Session, client: Client, cancel: bool, to: Status)
    requires History(s)
    ensures History(SetStatus(Seal(s.(cancelRequested := cancel)), to))
    ensures History(SetStatus(Seal(s).(client := client), to))
  {
    hide History, SetStatus, Seal;
    SameHistory(s, s.(cancelRequested := cancel));
    SealHistory(s);
    SealHistory(s.(cancelRequested := cancel));
    SameHistory(Seal(s), Seal(s).(client := client));
    StatusHistory(Seal(s.(cancelRequested := cancel)), to);
    StatusHistory(Seal(s).(client := client), to);
  }

  lemma FinishHistory(s: Session, token: nat, reply: Reply, w: Choice)
    requires History(s)
    ensures History(FinishTurn(s, token, reply, w))
  {
    hide History, SetStatus, Seal, EndTask;
    var f := FinishTurn(s, token, reply, w);
    if f != s {
      var to := match reply case Failure => (if s.client.Alive? then Error else Disconnected)
                case Ended(cancelled) => (if s.cancelRequested || cancelled then Cancelled else Idle);
      SealHistory(s);
      StatusHistory(Seal(s), to);
      SameHistory(SetStatus(Seal(s), to), f);
    }
  }

  lemma InputHistory(s: Session, ask: Ask, w: Choice)
    requires History(s)
    ensures History(SyncInput(s, w)) && History(HandleAsk(s, ask, w))
  {
    hide History, SetStatus, UpdateTask;
    InputMoves(s, w);
    var to := if ask.Permission? then WaitingPermission else WaitingInput;
    StatusHistory(s, to);
    InputMoves(SetStatus(s, to), w);
    SameHistory(SetStatus(s, to), UpdateTask(SetStatus(s, to), L.InputRequired, w.news, w.held));
  }

  lemma InputMoves(s: Session, w: Choice)
    requires History(s)
    ensures History(SyncInput(s, w))
  {
    hide History, SetStatus, UpdateTask, Accepts;
    var to := if w.pending.None? then Status.Running else if w.pending.value.Permission? then WaitingPermission
      else WaitingInput;
    var status := if w.pending.None? then L.Working else L.InputRequired;
    StatusHistory(s, to);
    SameHistory(SetStatus(s, to), UpdateTask(SetStatus(s, to), status, w.news, w.held));
  }

  lemma EndHistory(s: Session, w: Choice)
    requires History(s)
    ensures History(CancelTurn(s, w)) && History(CloseBegins(s, w))
  {
    hide History, SetStatus, Seal, EndTask, UpdateTask;
    var t := s.(cancelRequested := true);
    SameHistory(s, t);
    StatusHistory(t, Cancelling);
    SameHistory(SetStatus(t, Cancelling), UpdateTask(SetStatus(t, Cancelling), L.Working, true, w.held));
    SealHistory(s);
    SameHistory(s, s.(job := Some(Closing)));
    SameHistory(Seal(s), EndTask(Seal(s), L.Cancelled, w.fate).(job := Some(Closing)));
  }

  lemma GoneHistory(s: Session, w: Choice)
    requires History(s)
    ensures History(OrphanEnd(s, w)) && History(Exit(s, w))
  {
    hide History, SetStatus, Seal, EndTask;
    SealedHistory(s, NoClient, true, Cancelled);
    SealedHistory(s, NoClient, true, Disconnected);
    var a := SetStatus(Seal(s.(cancelRequested := true)), Cancelled);
    SameHistory(a, EndTask(a, L.Cancelled, w.fate));
    var b := SetStatus(Seal(s).(client := NoClient), Disconnected);
    SameHistory(b, FinishTask(b, w.fate));
  }

  lemma StartHistory(s: Session, c: Command, w: Choice)
    requires History(s)
    ensures History(Start(s, c, w))
  {
    hide History, Fail, FinishTurn, SyncInput, HandleAsk, CancelTurn, CloseBegins, OrphanEnd, Exit;
    match c
    case Cancel => EndHistory(s, w);
    case Close => EndHistory(s, w);
    case OrphanCancel => GoneHistory(s, w);
    case ProviderExit => GoneHistory(s, w);
    case Finish(token, reply) => FinishHistory(s, token, reply, w);
    case Respond =>
      InputMoves(s, w);
      SameHistory(s, s.(job := Some(Answering)));
    case Update(ask) => InputHistory(s, ask, w);
    case Prompt(_, _) => SameHistory(s, Start(s, c, w));
    case Restore => SameHistory(s, Start(s, c, w));
    case Configure(_) => SameHistory(s, Start(s, c, w));
  }

  lemma BegunHistory(s: Session, task: Option<nat>, w: Choice)
    requires History(s)
    ensures History(StartTurn(s, task, w))
  {
    hide SetStatus, L.Move, L.Attach;
    var a := s.(turnId := Some(s.next), turnSeal := None, replies := s.replies + {s.next}, next := s.next + 1,
                tasksOf := if task.Some? then s.tasksOf[s.next := task.value] else s.tasksOf);
    StatusHistory(a, Status.Running);
    SameHistory(SetStatus(a, Status.Running), StartTurn(s, task, w));
  }

  lemma SendHistory(s: Session, c: Command, w: Choice)
    requires History(s) && c.Prompt?
    ensures History(SendPrompt(s, c, w))
  {
    SendCases(s, c, w);
    hide History, SendPrompt, StartTurn, Dispatched, Fail, Release;
    var a := Dispatched(s, c, w);
    SameHistory(s, a);
    SameHistory(s, Release(s, c));
    SameHistory(a, Fail(a, c, w));
    BegunHistory(a, c.task, w);
    SameHistory(StartTurn(a, c.task, w), Release(StartTurn(a, c.task, w), c));
  }

  lemma FailHistory(s: Session, c: Command, w: Choice)
    requires History(s)
    ensures History(Fail(s, c, w)) && History(Release(s, c))
  {
    hide History, Fail, Release;
    SameHistory(s, Fail(s, c, w));
    SameHistory(s, Release(s, c));
  }

  lemma RestoreHistory(s: Session)
    requires History(s)
    ensures History(RestoreFailed(s))
    ensures History(SetStatus(s.(client := Alive), Idle))
  {
    hide History, SetStatus;
    StatusHistory(s, Status.Restoring);
    StatusHistory(SetStatus(s, Status.Restoring), Unavailable);
    SameHistory(s, s.(client := Alive));
    StatusHistory(s.(client := Alive), Idle);
  }

  lemma JobHistory(s: Session, j: Option<Job>)
    requires History(s)
    ensures History(s.(job := j))
  {
  }

  lemma ReconnectHistory(s: Session, path: Path, w: Choice)
    requires History(s) && s.job.Some? && s.job.value.Reconnecting?
    ensures History(Resume(s, path, w))
  {
    hide History, SetStatus, Fail, Release, RestoreFailed;
    var c := s.job.value.command;
    var idle := s.(job := None);
    JobHistory(s, None);
    StatusHistory(s, Status.Restoring);
    JobHistory(SetStatus(s, Status.Restoring), Some(Reconnecting(c, true)));
    FailHistory(idle, c, w);
    RestoreHistory(idle);
    FailHistory(RestoreFailed(idle), c, w);
    var back := SetStatus(idle.(client := Alive), Idle);
    FailHistory(back, c, w);
    JobHistory(back, Some(Ready(c)));
  }

  lemma CloseHistory(s: Session, w: Choice)
    requires History(s)
    ensures History(CloseEnds(s, w)) && History(Retire(s, w)) && History(Unload(s))
  {
    hide History, SetStatus;
    StatusHistory(s, Status.Closed);
    SameHistory(SetStatus(s, Status.Closed), CloseEnds(s, w));
    if Retire(s, w) != s { SameHistory(SetStatus(s, Status.Closed), Retire(s, w)); }
    SameHistory(s, s.(client := NoClient));
    StatusHistory(s.(client := NoClient), Disconnected);
  }

  lemma ResumeHistory(s: Session, path: Path, w: Choice)
    requires History(s)
    ensures History(Resume(s, path, w))
  {
    hide History, SendPrompt, SyncInput, Fail, CloseEnds;
    if s.job.Some? {
      var idle := s.(job := None);
      JobHistory(s, None);
      match s.job.value
      case Reconnecting(c, begun) =>
        ReconnectHistory(s, path, w);
        hide Resume;
      case Ready(c) =>
        FailHistory(idle, c, w);
        if c.Prompt? { SendHistory(idle, c, w); }
      case Answering => InputMoves(idle, w);
      case Closing => CloseHistory(s, w);
    }
  }

  lemma DequeueHistory(s: Session, w: Choice)
    requires History(s)
    ensures History(Dequeue(s, w))
  {
    hide History, Start;
    if s.job.None? && s.critical != [] {
      SameHistory(s, s.(critical := s.critical[1..]));
      StartHistory(s.(critical := s.critical[1..]), s.critical[0], w);
    } else if s.job.None? && s.items != [] {
      SameHistory(s, s.(items := s.items[1..]));
      StartHistory(s.(items := s.items[1..]), s.items[0], w);
    }
  }

  lemma ReserveHistory(s: Session)
    requires History(s)
    ensures History(AdmitPrompt(s)) && History(AdmitRestore(s))
  {
    hide History, Enqueue, Admits, NeedsRestore;
    SameHistory(s, AdmitPrompt(s));
    SameHistory(s, AdmitRestore(s));
  }

  lemma ConfigureHistory(s: Session, change: bool)
    requires History(s)
    ensures History(AdmitConfigure(s, change)) && History(AskRespond(s))
  {
    hide History, Enqueue, Open;
    SameHistory(s, AdmitConfigure(s, change));
    SameHistory(s, AskRespond(s));
  }

  lemma EnqueueHistory(s: Session, c: Command)
    requires History(s)
    ensures History(Enqueue(s, c))
  {
    hide History, Enqueue;
    SameHistory(s, Enqueue(s, c));
  }

  lemma AdmitHistory(s: Session, w: Choice)
    requires History(s)
    ensures History(AdmitTask(s, w))
  {
    hide History, Enqueue, L.Create, Admits, QueueIdle, NeedsRestore;
    SameHistory(s, AdmitTask(s, w));
  }

  lemma OtherHistory(s: Session, e: Event)
    requires History(s) && (e.Dies? || e.Replies? || e.Asks? || e.Rejects? || e.TaskCancels? || e.Storage? || e.Stops?)
    ensures History(Next(s, e))
  {
    hide History, Post, Offer, Fail, CancelTask, L.Step;
    SameHistory(s, Next(s, e));
  }

  lemma NextHistory(s: Session, e: Event)
    requires History(s)
    ensures History(Next(s, e))
  {
    if e.Dies? || e.Replies? || e.Asks? || e.Rejects? || e.TaskCancels? || e.Storage? || e.Stops? {
      OtherHistory(s, e);
    } else {
      hide History, AdmitPrompt, AdmitTask, AdmitRestore, AdmitConfigure, AskRespond, Enqueue, Dequeue, Resume,
        Unload, Retire, Restart;
      var w := Choice(L.Synced, L.Synced, true, true, None, true);
      match e
      case PromptArrives => ReserveHistory(s);
      case RunArrives(v) => AdmitHistory(s, v);
      case RestoreArrives => ReserveHistory(s);
      case ConfigureArrives(change) => ConfigureHistory(s, change);
      case CommandArrives(c) => EnqueueHistory(s, c);
      case ResponseArrives => ConfigureHistory(s, true);
      case Runs(v) => DequeueHistory(s, v);
      case Resumes(path, v) => ResumeHistory(s, path, v);
      case Unloads => CloseHistory(s, w);
      case Retires(v) => CloseHistory(s, v);
      case Crashes(turn, closed, kept, expired) => RestartHistory(s, turn, closed, kept, expired);
    }
  }

  lemma RestartHistory(s: Session, savedTurn: Option<nat>, savedClosed: bool, kept: nat, expired: set<nat>)
    requires History(s)
    ensures History(Restart(s, savedTurn, savedClosed, kept, expired))
  {
    hide L.Crash;
  }
}

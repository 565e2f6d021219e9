/** The session record as the gateway updates it in place
    (src/gateway-service.js:612-673, 2215-2338, 3364-3384, 3555-3641, 3991-4012,
    4232-4243, 4791-4836; src/session-queue.js:122-136): each method does what the
    protocol's step says, and what the mailbox runs keeps the session safe. What the
    world decides is an argument. */
module GatewaySession {
  import opened Wrappers
  import L = TaskLedger
  import T = TurnProtocol
  import S = TurnSafety
  import TurnStatus
  import opened TaskStore

  class GatewaySession {
    var status: T.Status
    var turnId: Option<nat>
    var turnSeal: Option<nat>
    var reserved: Option<T.Intent>
    var activeTask: Option<nat>
    var preparing: Option<nat>
    var cancelRequested: bool
    var client: T.Client
    var inStore: bool
    var queueClosed: bool
    var critical: seq<T.Command>
    var items: seq<T.Command>
    var job: Option<T.Job>
    var rejected: seq<T.Command>
    const store: TaskStore
    var stopped: bool
    const base: nat
    var next: nat
    var replies: set<nat>
    ghost var sealed: seq<nat>
    ghost var tasksOf: map<nat, nat>
    ghost var moves: seq<(T.Status, T.Status)>

    ghost function State(): T.Session
      reads this, store
    {
      T.Session(status, turnId, turnSeal, reserved, activeTask, preparing, cancelRequested, client, inStore,
                queueClosed, critical, items, job, rejected, store.State(), stopped,
                base, next, replies, sealed, tasksOf, moves)
    }

    /** The session is as the turn protocol keeps it. */
    ghost predicate Valid()
      reads this, store
    {
      S.Safe(State())
    }

    constructor (mode: L.Mode)
      ensures Valid() && State() == T.Opened(mode) && fresh(store)
    {
      hide S.Safe, L.Sound;
      status, turnId, turnSeal, reserved, activeTask, preparing := T.Idle, None, None, None, None, None;
      cancelRequested, client, inStore, queueClosed := false, T.Alive, true, false;
      critical, items, job, rejected, stopped := [], [], None, [], false;
      base, next, replies := 0, 0, {};
      sealed, tasksOf, moves := [], map[], [];
      store := new TaskStore(mode);
      new;
      S.OpenedSafe(mode);
    }

    method SetStatus(to: T.Status) returns (accepted: bool)
      modifies `status, `moves
      ensures State() == T.SetStatus(old(State()), to) && accepted == T.Accepts(old(State()), to)
    {
      if status == to { return true; }
      if T.Edge(status, to) {
        ApplyStatus(to);
        return true;
      }
      if status == T.Closed || !inStore { return false; }
      if status == T.Cancelling && to == T.Idle {
        ApplyStatus(T.Cancelled);
        return true;
      }
      return false;
    }

    method ApplyStatus(to: T.Status)
      modifies `status, `moves
      ensures State() == T.Move(old(State()), to)
    {
      moves := moves + [(status, to)];
      status := to;
    }

    /** Claims the current turn for whoever finalizes it. */
    method SealTurn() returns (sealing: bool)
      modifies `turnSeal, `sealed
      ensures State() == T.Seal(old(State())) && sealing == T.Unsealed(old(State()))
    {
      if turnId.None? || turnSeal == turnId { return false; }
      sealed := sealed + [turnId.value];
      turnSeal := turnId;
      return true;
    }

    predicate TurnLive()
      reads this
    {
      turnId.Some? && turnSeal != turnId && status != T.Closed && inStore
    }

    method Release(c: T.Command)
      modifies `reserved, `preparing
      ensures State() == T.Release(old(State()), c)
    {
      if c.Prompt? && c.task.Some? && preparing == c.task { preparing := None; }
      if T.Reserving(c).Some? && reserved == T.Reserving(c) { reserved := None; }
    }

    method UpdateTask(taskStatus: L.Status, news: bool, held: bool)
      requires store.Valid() && !L.Terminal(taskStatus)
      modifies store
      ensures store.Valid() && State() == T.UpdateTask(old(State()), taskStatus, news, held)
    {
      if activeTask.Some? { store.Progress(activeTask.value, taskStatus, news, held); }
    }

    method EndTask(taskStatus: L.Status, fate: L.Fate)
      requires store.Valid() && L.Terminal(taskStatus)
      modifies `activeTask, store
      ensures store.Valid() && State() == T.EndTask(old(State()), taskStatus, fate)
    {
      if activeTask.None? || activeTask.value !in store.tasks { return; }
      var turn := if turnId.Some? then turnId.value else 0;
      store.CommitTaskTerminal(activeTask.value, taskStatus, Some(L.Answer(turn)), fate);
      activeTask := None;
    }

    method FinishTask(fate: L.Fate)
      requires store.Valid()
      modifies `activeTask, store
      ensures store.Valid() && State() == T.FinishTask(old(State()), fate)
    {
      var outcome := if status.Cancelled? then L.Cancelled else if status.Idle? then L.Completed else L.Failed;
      EndTask(outcome, fate);
    }

    /** The single terminal transition of a turn, behind one guard per way it can
        have stopped being this callback's business. */
    method FinishTurn(token: nat, reply: T.Reply, w: T.Choice)
      requires store.Valid()
      modifies `status, `moves, `turnSeal, `sealed, `cancelRequested, `activeTask, store
      ensures store.Valid() && State() == T.FinishTurn(old(State()), token, reply, w)
    {
      if stopped { return; }
      if turnId != Some(token) { return; }
      if turnSeal == Some(token) { return; }
      if status == T.Closed { return; }
      if !inStore { return; }
      var _ := SealTurn();
      var accepted: bool;
      match reply {
        case Failure =>
          accepted := SetStatus(if client.Alive? then T.Error else T.Disconnected);
        case Ended(cancelled) =>
          accepted := SetStatus(if cancelRequested || cancelled then T.Cancelled else T.Idle);
          cancelRequested := false;
      }
      FinishTask(w.fate);
    }

    /** Only an unsealed turn on a live worker can be cancelled. */
    method CancelTurn(w: T.Choice)
      requires store.Valid()
      modifies `status, `moves, `cancelRequested, store
      ensures store.Valid() && State() == T.CancelTurn(old(State()), w)
    {
      if !(TurnLive() && T.Active(status) && client.Alive?) { return; }
      cancelRequested := true;
      var _ := SetStatus(T.Cancelling);
      UpdateTask(L.Working, true, w.held);
    }

    /** Close seals before it waits for the worker. */
    method CloseBegins(w: T.Choice)
      requires store.Valid()
      modifies `turnSeal, `sealed, `activeTask, `job, store
      ensures store.Valid() && State() == T.CloseBegins(old(State()), w)
    {
      if status == T.Closed || !inStore { return; }
      var sealing := SealTurn();
      if sealing { EndTask(L.Cancelled, w.fate); }
      job := Some(T.Closing);
    }

    // Everything still waiting is rejected (src/session-queue.js:75-80).
    method CloseWith()
      modifies `queueClosed, `rejected, `items, `critical
      ensures State() == old(State()).(queueClosed := true, rejected := old(rejected + items + critical),
                                       items := [], critical := [])
    {
      queueClosed := true;
      rejected := rejected + items + critical;
      items, critical := [], [];
    }

    /** What a close does once the worker has answered or died; w.yes says whether the
        record goes too. */
    method CloseEnds(w: T.Choice)
      modifies `status, `moves, `client, `inStore, `job, `queueClosed, `rejected, `items, `critical
      ensures State() == T.CloseEnds(old(State()), w)
    {
      var _ := SetStatus(T.Closed);
      client := T.NoClient;
      if w.yes { inStore := false; }
      job := None;
      CloseWith();
    }

    /** The worker process is gone: the last word on any turn it owed. */
    method ProviderExit(w: T.Choice)
      requires store.Valid()
      modifies `status, `moves, `turnSeal, `sealed, `client, `activeTask, store
      ensures store.Valid() && State() == T.Exit(old(State()), w)
    {
      if status == T.Closed || !inStore { return; }
      var finalizing := SealTurn();
      client := T.NoClient;
      var _ := SetStatus(T.Disconnected);
      if finalizing { FinishTask(w.fate); }
    }

    /** Main is gone for good: where it is due, the gateway ends the turn itself. */
    method OrphanCancel(w: T.Choice)
      requires store.Valid()
      modifies `status, `moves, `turnSeal, `sealed, `cancelRequested, `activeTask, store
      ensures store.Valid() && State() == T.OrphanEnd(old(State()), w)
    {
      if !inStore || !w.yes { return; }
      if !T.Active(status) || status == T.Restoring { return; }
      cancelRequested := true;
      var _ := SealTurn();
      var _ := SetStatus(T.Cancelled);
      EndTask(L.Cancelled, w.fate);
    }

    /** Mirrors what the worker still waits on. */
    method SyncInput(permissions: nat, elicitations: nat, w: T.Choice)
      requires store.Valid()
      modifies `status, `moves, store
      ensures store.Valid() && State() == T.SyncInput(old(State()), w.(pending := Waiting(permissions, elicitations)))
    {
      if permissions > 0 {
        var accepted := SetStatus(T.WaitingPermission);
        if accepted { UpdateTask(L.InputRequired, w.news, w.held); }
      } else if elicitations > 0 {
        var accepted := SetStatus(T.WaitingInput);
        if accepted { UpdateTask(L.InputRequired, w.news, w.held); }
      } else if TurnLive() {
        var _ := SetStatus(T.Running);
        UpdateTask(L.Working, w.news, w.held);
      }
    }

    // As the client reports it.
    method SyncReported(w: T.Choice)
      requires store.Valid()
      modifies `status, `moves, store
      ensures store.Valid() && State() == T.SyncInput(old(State()), w)
    {
      var permissions := if w.pending == Some(T.Permission) then 1 else 0;
      var elicitations := if w.pending == Some(T.Elicitation) then 1 else 0;
      assert w.pending.None? || w.pending.value.Permission? || w.pending.value.Elicitation?;
      assert w.(pending := Waiting(permissions, elicitations)) == w;
      SyncInput(permissions, elicitations, w);
    }

    /** A worker's request is shown as what the session waits for, once its inbox row is
        made. */
    method HandleAsk(ask: T.Ask, w: T.Choice)
      requires store.Valid()
      modifies `status, `moves, store
      ensures store.Valid() && State() == T.HandleAsk(old(State()), ask, w)
    {
      if status == T.Closed || !inStore { return; }
      var accepted := SetStatus(if ask.Permission? then T.WaitingPermission else T.WaitingInput);
      if !accepted { return; }
      if w.yes { UpdateTask(L.InputRequired, w.news, w.held); } else { SyncReported(w); }
    }

    // A fresh token, frozen into the reply's callback.
    method MintTurn(task: Option<nat>)
      modifies `turnId, `turnSeal, `next, `replies, `tasksOf
      ensures turnId == Some(old(next)) && turnSeal == None && next == old(next) + 1
      ensures replies == old(replies) + {old(next)}
      ensures tasksOf == if task.Some? then old(tasksOf)[old(next) := task.value] else old(tasksOf)
    {
      replies := replies + {next};
      turnId := Some(next);
      turnSeal := None;
      if task.Some? { tasksOf := tasksOf[next := task.value]; }
      next := next + 1;
    }

    method BeginTurn(task: Option<nat>, w: T.Choice)
      modifies `status, `moves, `turnId, `turnSeal, `cancelRequested, `next, `replies, `tasksOf
      ensures State() == T.StartTurn(old(State()), task, w).(ledger := old(store.State()))
    {
      hide T.SetStatus, T.Accepts, L.Move, L.Attach;
      MintTurn(task);
      var _ := SetStatus(T.Running);
      cancelRequested := false;
    }

    /** The prompt has left: its turn begins, and its task says so. */
    method StartTurn(task: Option<nat>, w: T.Choice)
      requires store.Valid()
      modifies `status, `moves, `turnId, `turnSeal, `cancelRequested, `next, `replies, `tasksOf, store
      ensures store.Valid() && State() == T.StartTurn(old(State()), task, w)
    {
      hide L.Move, L.Attach;
      var token := next;
      BeginTurn(task, w);
      if task.Some? {
        store.AttachTurn(task.value, token);
        store.Progress(task.value, L.Working, true, w.held);
      }
    }

    // A command that failed before it did what it was for (#failUndispatched).
    method Fail(c: T.Command, w: T.Choice)
      requires store.Valid()
      modifies `reserved, `preparing, `activeTask, store
      ensures store.Valid() && State() == T.Fail(old(State()), c, w)
    {
      FailTask(c, w);
      Release(c);
    }

    method FailTask(c: T.Command, w: T.Choice)
      requires store.Valid()
      modifies `activeTask, store
      ensures store.Valid() && State() == T.FailTask(old(State()), c, w)
    {
      hide L.Commit, L.Remove;
      if !c.Prompt? || c.task.None? { return; }
      var id := c.task.value;
      if !c.handedBack {
        if activeTask == Some(id) { activeTask := None; }
        store.Forget(id, w.held);
        return;
      }
      if stopped || id !in store.tasks || L.Terminal(store.tasks[id].status) || store.tasks[id].dispatched { return; }
      if activeTask == Some(id) { activeTask := None; }
      store.CommitTaskTerminal(id, L.Failed, Some(L.Answer(0)), w.later);
    }

    /** The last segment of a prompt: nothing awaits between the stamp and the send. */
    method SendPrompt(c: T.Command, w: T.Choice)
      requires store.Valid() && c.Prompt? && (c.task.Some? ==> c.task.value !in store.sent)
      modifies this, store
      ensures store.Valid() && State() == T.SendPrompt(old(State()), c, w)
    {
      hide L.Commit, L.Remove, L.Dispatch, T.StartTurn, T.Fail, T.Release;
      var takes := w.yes && client.Alive?;
      if c.task.None? {
        if takes {
          StartTurn(None, w);
          Release(c);
        } else {
          Fail(c, w);
        }
        return;
      }
      var id := c.task.value;
      if id in store.tasks && L.Terminal(store.tasks[id].status) {
        Release(c);
        return;
      }
      var leaves := store.SendPrompt(id, w.fate, takes);
      if leaves {
        StartTurn(c.task, w);
        Release(c);
      } else {
        Fail(c, w);
      }
    }

    // ----- The mailbox -----

    // A command's first segment.
    method Start(c: T.Command, w: T.Choice)
      requires store.Valid()
      modifies this, store
      ensures store.Valid() && State() == T.Start(old(State()), c, w)
    {
      hide T.Fail, T.CancelTurn, T.CloseBegins, T.OrphanEnd, T.Exit, T.FinishTurn, T.HandleAsk, T.SyncInput;
      match c {
        case Prompt(_, _) => Prepare(c, w);
        case Configure(_) => Prepare(c, w);
        case Restore =>
          if status == T.Closed || !inStore { Fail(c, w); } else { job := Some(T.Reconnecting(c, false)); }
        case Cancel => CancelTurn(w);
        case Close => CloseBegins(w);
        case Respond =>
          if status == T.Closed || !inStore { return; }
          if w.yes { job := Some(T.Answering); } else { SyncReported(w); }
        case OrphanCancel => OrphanCancel(w);
        case Update(ask) => HandleAsk(ask, w);
        case ProviderExit => ProviderExit(w);
        case Finish(token, reply) => FinishTurn(token, reply, w);
      }
    }

    // A prompt or a change of model needs a live worker first.
    method Prepare(c: T.Command, w: T.Choice)
      requires store.Valid() && (c.Prompt? || c.Configure?)
      modifies this, store
      ensures store.Valid() && State() == T.Start(old(State()), c, w)
    {
      hide T.Fail;
      if status == T.Closed || !inStore {
        Fail(c, w);
      } else if client.Alive? && status != T.Disconnected && status != T.Unavailable {
        job := Some(T.Ready(c));
      } else if w.yes {
        job := Some(T.Reconnecting(c, false));
      } else {
        Fail(c, w);
      }
    }

    /** The next command's first segment, the worker's side of the mailbox first. */
    method Pump(w: T.Choice)
      requires Valid()
      modifies this, store
      ensures Valid() && State() == T.Next(old(State()), T.Runs(w))
    {
      hide T.Start, S.Safe;
      S.NextSafe(State(), T.Runs(w));
      SafeStore(State());
      if job.Some? { return; }
      if critical != [] {
        var c := critical[0];
        critical := critical[1..];
        Start(c, w);
      } else if items != [] {
        var c := items[0];
        items := items[1..];
        Start(c, w);
      }
    }

    method RestoreFailed()
      modifies `status, `moves
      ensures State() == T.RestoreFailed(old(State()))
    {
      if status == T.Closed || !inStore { return; }
      var _ := SetStatus(T.Restoring);
      var _ := SetStatus(T.Unavailable);
    }

    method Restored()
      modifies `status, `moves, `client
      ensures State() == T.SetStatus(old(State()).(client := T.Alive), T.Idle)
    {
      client := T.Alive;
      var _ := SetStatus(T.Idle);
    }

    method Reconnect(c: T.Command, begun: bool, path: T.Path, w: T.Choice)
      requires store.Valid() && job == Some(T.Reconnecting(c, begun))
      modifies this, store
      ensures store.Valid() && State() == T.Resume(old(State()), path, w)
    {
      hide T.Fail, T.Release, T.SetStatus, T.RestoreFailed, L.Sound;
      match path {
        case Begins =>
          if begun { return; }
          var _ := SetStatus(T.Restoring);
          job := Some(T.Reconnecting(c, true));
        case Refused =>
          if begun || !c.Restore? { return; }
          job := None;
          Fail(c, w);
        case Fails =>
          job := None;
          RestoreFailed();
          Fail(c, w);
        case Goes =>
          if !begun { return; }
          job := None;
          if status == T.Closed || !inStore {
            Fail(c, w);
            return;
          }
          Restored();
          if c.Restore? { Release(c); } else { job := Some(T.Ready(c)); }
      }
    }

    /** The next segment of the command that has the mailbox. */
    method Resume(path: T.Path, w: T.Choice)
      requires Valid()
      modifies this, store
      ensures Valid() && State() == T.Next(old(State()), T.Resumes(path, w))
    {
      hide T.Resume, S.Safe, L.Sound;
      S.NextSafe(State(), T.Resumes(path, w));
      SafeStore(State());
      if job.Some? { Segment(path, w); } else { NothingResumes(State(), path, w); }
    }

    method Segment(path: T.Path, w: T.Choice)
      requires store.Valid() && job.Some?
      requires job.value.Ready? && job.value.command.Prompt? && job.value.command.task.Some? ==>
                 job.value.command.task.value !in State().ledger.sent
      modifies this, store
      ensures store.Valid() && State() == T.Resume(old(State()), path, w)
    {
      hide T.Fail, T.SendPrompt, T.SyncInput, T.CloseEnds, T.SetStatus, T.RestoreFailed, T.Release, L.Sound;
      match job.value {
        case Reconnecting(c, begun) =>
          Reconnect(c, begun, path, w);
        case Ready(c) =>
          if path.Begins? { return; }
          job := None;
          if path.Goes? && c.Prompt? { SendPrompt(c, w); } else { Fail(c, w); }
        case Answering =>
          job := None;
          if path.Goes? { SyncReported(w); }
        case Closing =>
          CloseEnds(w);
      }
    }
  }

  // What the session waits for, a permission before a question.
  function Waiting(permissions: nat, elicitations: nat): Option<T.Ask> {
    if permissions > 0 then Some(T.Permission) else if elicitations > 0 then Some(T.Elicitation) else None
  }

  lemma NothingResumes(s: T.Session, path: T.Path, w: T.Choice)
    requires s.job.None?
    ensures T.Resume(s, path, w) == s
  {}

  // What a safe session says of its store, and of the prompt it is about to send.
  lemma SafeStore(s: T.Session)
    requires S.Safe(s)
    ensures L.Sound(s.ledger)
    ensures s.job.Some? && s.job.value.Ready? && s.job.value.command.Prompt? && s.job.value.command.task.Some? ==>
              s.job.value.command.task.value !in s.ledger.sent
  {
    if s.job.Some? && s.job.value.Ready? {
      var c := s.job.value.command;
      assert c in TurnStatus.Held(s.job);
      assert TurnStatus.Sendable(s, c);
    }
  }
}

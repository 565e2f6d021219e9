/** What each step of the turn protocol brings about, status by status and task by task
    (src/gateway-service.js:1463-1505, 1987-2022, 2215-2338, 2462-2478, 3364-3384,
    3555-3641, 3643-3755, 4232-4243, 4733-4745, 4791-4871). */
module TurnEffects {
  import opened Wrappers
  import L = TaskLedger
  import opened TurnProtocol

  // A turn under way whose task can still end.
  predicate UnderWay(s: Session, token: nat, id: nat) {
    && s.status in {Running, WaitingPermission, WaitingInput, Cancelling} && s.inStore
    && s.turnId == Some(token) && s.turnSeal != Some(token)
    && s.activeTask == Some(id) && id in s.ledger.tasks && s.ledger.tasks[id].status in {L.Working, L.InputRequired}
  }

  /** The turn is sealed, and its task has ended as said, durably and told. */
  predicate EndedAs(s: Session, r: Session, token: nat, id: nat, status: L.Status) {
    && r.turnSeal == Some(token) && r.sealed == s.sealed + [token] && r.activeTask == None
    && id in r.ledger.tasks && L.SameOutcome(r.ledger.tasks[id], status, Some(L.Answer(token)))
    && L.Outcome(id, status, Some(L.Answer(token))) in r.ledger.told
  }

  // The end of the session's task, told under the token of its turn.
  lemma TaskEnds(s: Session, token: nat, id: nat, status: L.Status, fate: L.Fate)
    requires s.turnId == Some(token) && s.activeTask == Some(id) && L.Stampable(s.ledger, id)
    requires status in {L.Completed, L.Failed, L.Cancelled} && fate.Synced?
    ensures var r := EndTask(s, status, fate);
            && r.activeTask == None
            && id in r.ledger.tasks && L.SameOutcome(r.ledger.tasks[id], status, Some(L.Answer(token)))
            && L.Outcome(id, status, Some(L.Answer(token))) in r.ledger.told
  {
    hide L.Commit;
    L.CommitMemory(s.ledger, id, status, Some(L.Answer(token)), fate);
  }

  // Where the reply leaves the session, before its task ends.
  lemma ReplyMoves(s: Session, token: nat, id: nat, reply: Reply)
    requires UnderWay(s, token, id)
    ensures var a := Seal(s);
            && a.sealed == s.sealed + [token] && a.turnSeal == Some(token)
            && SetStatus(a, if s.client.Alive? then Error else Disconnected).status
               == (if s.client.Alive? then Error else Disconnected)
            && SetStatus(a, Cancelled).status == Cancelled
            && SetStatus(a, Idle).status == (if s.status == Cancelling then Cancelled else Idle)
  {}

  /** How a turn ends by the worker's reply: a normal end completes the task, a cancel
      that was requested or reported cancels it, and a failure fails it, on a dead worker
      as on a live one. */
  lemma ReplyEnds(s: Session, token: nat, id: nat, reply: Reply, w: Choice)
    requires UnderWay(s, token, id) && !s.stopped && w.fate.Synced?
    ensures var r := FinishTurn(s, token, reply, w);
            match reply
            case Ended(cancelled) =>
              && !r.cancelRequested
              && if s.cancelRequested || cancelled || s.status == Cancelling
                 then r.status == Cancelled && EndedAs(s, r, token, id, L.Cancelled)
                 else r.status == Idle && EndedAs(s, r, token, id, L.Completed)
            case Failure =>
              && r.status == (if s.client.Alive? then Error else Disconnected)
              && EndedAs(s, r, token, id, L.Failed)
  {
    hide EndTask, SetStatus, Seal;
    ReplyMoves(s, token, id, reply);
    match reply
    case Ended(cancelled) =>
      var to := if s.cancelRequested || cancelled then Cancelled else Idle;
      var a := SetStatus(Seal(s), to).(cancelRequested := false);
      TaskEnds(a, token, id, OutcomeOf(a.status), w.fate);
    case Failure =>
      var a := SetStatus(Seal(s), if s.client.Alive? then Error else Disconnected);
      TaskEnds(a, token, id, OutcomeOf(a.status), w.fate);
  }

  /** A reply to a turn that is sealed or not the current one changes nothing. */
  lemma LateReply(s: Session, token: nat, reply: Reply, w: Choice)
    requires s.turnId != Some(token) || s.turnSeal == Some(token) || s.status == Closed || !s.inStore || s.stopped
    ensures FinishTurn(s, token, reply, w) == s
  {}

  /** The worker's death fails the turn it owed. */
  lemma ExitEnds(s: Session, token: nat, id: nat, w: Choice)
    requires UnderWay(s, token, id) && w.fate.Synced?
    ensures var r := Exit(s, w);
            r.status == Disconnected && r.client == NoClient && EndedAs(s, r, token, id, L.Failed)
  {
    hide EndTask;
    var a := SetStatus(Seal(s).(client := NoClient), Disconnected);
    TaskEnds(a, token, id, L.Failed, w.fate);
  }

  /** With Main gone for good, where that is due, the turn is cancelled. */
  lemma OrphanEnds(s: Session, token: nat, id: nat, w: Choice)
    requires UnderWay(s, token, id) && w.fate.Synced?
    ensures var r := OrphanEnd(s, w);
            if !w.yes then r == s
            else r.status == Cancelled && r.cancelRequested && EndedAs(s, r, token, id, L.Cancelled)
  {
    hide EndTask;
    TaskEnds(SetStatus(Seal(s.(cancelRequested := true)), Cancelled), token, id, L.Cancelled, w.fate);
  }

  /** A close cancels the turn at once. */
  lemma CloseCancels(s: Session, token: nat, id: nat, w: Choice)
    requires UnderWay(s, token, id) && w.fate.Synced?
    ensures var r := CloseBegins(s, w);
            r.status == s.status && r.job == Some(Closing) && EndedAs(s, r, token, id, L.Cancelled)
  {
    hide EndTask;
    TaskEnds(Seal(s), token, id, L.Cancelled, w.fate);
  }

  /** It waits for the worker then, turn or no turn, unless the session is closed already. */
  lemma CloseWaits(s: Session, w: Choice)
    ensures var r := CloseBegins(s, w);
            && (s.status == Closed || !s.inStore ==> r == s)
            && (s.status != Closed && s.inStore ==> r.job == Some(Closing) && r.status == s.status)
            && (s.status != Closed && s.inStore && (s.turnId == None || s.turnSeal == s.turnId) ==>
                  r == s.(job := Some(Closing)))
  {
    hide EndTask;
  }

  /** And ends with the session closed from any status, its worker let go, everything
      that waited rejected, and the record gone exactly if it was to be. */
  lemma CloseCloses(s: Session, w: Choice)
    ensures var r := CloseEnds(s, w);
            && r.status == Closed && r.client == NoClient && r.job == None && r.queueClosed
            && r.items == [] && r.critical == [] && r.rejected == s.rejected + s.items + s.critical
            && (r.inStore <==> s.inStore && !w.yes) && r.ledger == s.ledger && r.turnSeal == s.turnSeal
  {}

  /** A cancel asks the worker: the turn goes on, cancelling, and its task with it. */
  lemma CancelAsks(s: Session, token: nat, id: nat, w: Choice)
    requires UnderWay(s, token, id) && s.client.Alive?
    ensures var r := CancelTurn(s, w);
            && r.status == Cancelling && r.cancelRequested && r.turnSeal == s.turnSeal && r.activeTask == Some(id)
            && r.ledger.tasks == s.ledger.tasks[id := s.ledger.tasks[id].(status := L.Working)]
            && r.ledger.pending == s.ledger.pending + Said(s.ledger, id, s.ledger.tasks[id].turn, w.held)
  {}

  // The record of a task that is at work, where the log is kept.
  function Said(l: L.Ledger, id: nat, turn: Option<nat>, held: bool): seq<L.Record>
    requires id in l.tasks
  {
    if l.mode == L.Wal && held then [L.Changed(id, L.Working, turn, l.tasks[id].dispatched)] else []
  }

  lemma CancelWithout(s: Session, w: Choice)
    requires s.turnId == None || s.turnSeal == s.turnId || !s.client.Alive? || s.status == Closed || !s.inStore
    ensures CancelTurn(s, w) == s
  {}

  // ----- What the worker waits on -----

  // What an update makes of the session's task.
  lemma TaskUpdated(s: Session, id: nat, status: L.Status, news: bool, held: bool)
    requires s.activeTask == Some(id) && L.Stampable(s.ledger, id) && status in {L.Working, L.InputRequired}
    ensures UpdateTask(s, status, news, held).ledger.tasks
         == s.ledger.tasks[id := s.ledger.tasks[id].(status := status)]
  {
    hide L.Append;
  }

  /** The status and the task show what the worker waits on: a permission, a question,
      or nothing. A turn that is being cancelled goes on being cancelled. */
  lemma InputShows(s: Session, token: nat, id: nat, w: Choice)
    requires UnderWay(s, token, id)
    ensures var r := SyncInput(s, w);
            var shown := if w.pending.None? then Running
                         else if w.pending.value.Permission? then WaitingPermission else WaitingInput;
            && r.turnSeal == s.turnSeal && r.activeTask == Some(id)
            && r.status == (if s.status == Cancelling then Cancelling else shown)
            && r.ledger.tasks == (
                 if w.pending.None? then s.ledger.tasks[id := s.ledger.tasks[id].(status := L.Working)]
                 else if s.status == Cancelling then s.ledger.tasks
                 else s.ledger.tasks[id := s.ledger.tasks[id].(status := L.InputRequired)])
  {
    hide UpdateTask, SetStatus, L.Stampable;
    var shown := if w.pending.None? then Running
                 else if w.pending.value.Permission? then WaitingPermission else WaitingInput;
    StatusShows(s, token, id, shown);
    TaskUpdated(SetStatus(s, shown), id, if w.pending.None? then L.Working else L.InputRequired, w.news, w.held);
  }

  // The move to show it, which a turn that is being cancelled does not make.
  lemma StatusShows(s: Session, token: nat, id: nat, to: Status)
    requires UnderWay(s, token, id) && to in {Running, WaitingPermission, WaitingInput}
    ensures var a := SetStatus(s, to);
            && a.status == (if s.status == Cancelling then Cancelling else to)
            && a.ledger == s.ledger && a.activeTask == Some(id) && a.turnSeal == s.turnSeal
            && L.Stampable(a.ledger, id)
  {}

  /** A worker's request is shown once its row is made, and otherwise what else the
      worker waits on. */
  lemma AskShows(s: Session, token: nat, id: nat, ask: Ask, w: Choice)
    requires UnderWay(s, token, id) && s.status != Cancelling && w.yes
    ensures var r := HandleAsk(s, ask, w);
            && r.status == (if ask.Permission? then WaitingPermission else WaitingInput)
            && r.ledger.tasks == s.ledger.tasks[id := s.ledger.tasks[id].(status := L.InputRequired)]
  {
    hide UpdateTask, SyncInput;
    var to := if ask.Permission? then WaitingPermission else WaitingInput;
    TaskUpdated(SetStatus(s, to), id, L.InputRequired, w.news, w.held);
  }

  lemma AskRefused(s: Session, token: nat, id: nat, ask: Ask, w: Choice)
    requires UnderWay(s, token, id) && s.status != Cancelling && !w.yes
    ensures var r := HandleAsk(s, ask, w);
            && r.turnSeal == s.turnSeal && r.activeTask == Some(id)
            && r.status == (if w.pending.None? then Running
                            else if w.pending.value.Permission? then WaitingPermission else WaitingInput)
  {
    hide UpdateTask, SyncInput;
    InputShows(SetStatus(s, if ask.Permission? then WaitingPermission else WaitingInput), token, id, w);
  }

  lemma InputWithoutTurn(s: Session, w: Choice)
    requires match w.pending
             case None => s.turnId == None || s.turnSeal == s.turnId || s.status == Closed || !s.inStore
             case Some(ask) => !Accepts(s, if ask.Permission? then WaitingPermission else WaitingInput)
    ensures SyncInput(s, w) == s
  {}

  lemma AskWithoutTurn(s: Session, ask: Ask, w: Choice)
    requires s.status !in {Running, WaitingPermission, WaitingInput} || !s.inStore
    requires s.status != Closed && s.inStore ==>
               !Accepts(s, if ask.Permission? then WaitingPermission else WaitingInput)
    ensures HandleAsk(s, ask, w) == s
  {}

  // ----- A turn begins -----

  /** A turn begins running under a token of its own, and its task with it. */
  lemma TurnBegins(s: Session, id: nat, w: Choice)
    requires s.status in {Idle, Error, Cancelled} && id in s.ledger.tasks
    requires s.ledger.tasks[id].status in {L.Working, L.InputRequired}
    ensures var r := StartTurn(s, Some(id), w);
            && r.status == Running && r.turnId == Some(s.next) && r.turnSeal == None && !r.cancelRequested
            && r.next == s.next + 1 && r.replies == s.replies + {s.next} && r.tasksOf == s.tasksOf[s.next := id]
            && r.ledger.tasks == s.ledger.tasks[id := s.ledger.tasks[id].(status := L.Working, turn := Some(s.next))]
            && r.ledger.pending == s.ledger.pending + Said(s.ledger, id, Some(s.next), w.held)
            && (s.base <= s.next ==> Live(r))
  {}

  /** A prompt without a task starts a turn exactly where the worker takes it. */
  lemma DirectPrompt(s: Session, w: Choice)
    requires s.status in {Idle, Error, Cancelled} && s.reserved == Some(ForPrompt)
    ensures var r := SendPrompt(s, Prompt(None, false), w);
            && r.reserved == None && r.ledger == s.ledger && r.tasksOf == s.tasksOf
            && if w.yes && s.client == Alive
               then r.status == Running && r.turnId == Some(s.next) && r.turnSeal == None
                 && s.next in r.replies && r.next == s.next + 1
               else r.status == s.status && r.turnId == s.turnId && r.replies == s.replies && r.next == s.next
  {}

  /** A prompt that leaves starts its turn and frees the reservation. */
  lemma PromptLeaves(s: Session, id: nat, handedBack: bool, w: Choice)
    requires s.status in {Idle, Error, Cancelled} && s.client.Alive? && s.reserved == Some(ForPrompt)
    requires id in s.ledger.tasks && s.ledger.tasks[id].status in {L.Working, L.InputRequired}
    requires w.yes && w.fate.Synced?
    ensures var r := SendPrompt(s, Prompt(Some(id), handedBack), w);
            && r.status == Running && r.turnId == Some(s.next) && r.turnSeal == None && r.reserved == None
            && r.ledger.sent == s.ledger.sent + {id} && id in r.ledger.tasks && r.ledger.tasks[id].dispatched
            && r.ledger.tasks[id].turn == Some(s.next) && r.ledger.tasks[id].status == L.Working
  {
    hide L.Dispatch, StartTurn, Release;
    DispatchMakes(s.ledger, id, w.fate, true);
    var a := s.(ledger := L.Dispatch(s.ledger, id, w.fate, true));
    TurnBegins(a, id, w);
    StartKeeps(a, id, w);
  }

  lemma StartKeeps(s: Session, id: nat, w: Choice)
    ensures var r := StartTurn(s, Some(id), w); r.reserved == s.reserved && r.ledger.sent == s.ledger.sent
  {
    hide L.Append;
  }

  // The stamp and the send, or neither.
  lemma DispatchMakes(l: L.Ledger, id: nat, fate: L.Fate, leaves: bool)
    requires L.Stampable(l, id)
    ensures var d, gone := L.Dispatch(l, id, fate, leaves), leaves && fate.Synced?;
            && id in d.tasks && d.sent == (if gone then l.sent + {id} else l.sent)
            && (gone ==> d.tasks[id] == l.tasks[id].(dispatched := true))
            && (!gone && !l.tasks[id].dispatched ==> d.tasks[id] == l.tasks[id])
  {
    hide L.AppendDurable;
  }

  /** A prompt that the worker does not take, or whose stamp was not stored, starts no
      turn: its handle is withdrawn, or, where Main holds it already, its task has failed
      unstarted; and the reservation is free. */
  lemma PromptWithheld(s: Session, id: nat, handedBack: bool, w: Choice)
    requires s.reserved == Some(ForPrompt) && !s.stopped
    requires id in s.ledger.tasks && s.ledger.tasks[id].status in {L.Working, L.InputRequired}
    requires !s.ledger.tasks[id].dispatched && (!w.yes || !s.client.Alive? || !w.fate.Synced?)
    ensures var r := SendPrompt(s, Prompt(Some(id), handedBack), w);
            && r.status == s.status && r.turnId == s.turnId && r.ledger.sent == s.ledger.sent && r.reserved == None
            && r.activeTask != Some(id)
            && if !handedBack then id !in r.ledger.tasks
               else id in r.ledger.tasks && r.ledger.tasks[id].status == L.Failed && !r.ledger.tasks[id].dispatched
  {
    hide L.Dispatch, L.Append, L.Commit, Release, StartTurn;
    var takes := w.yes && s.client.Alive?;
    DispatchMakes(s.ledger, id, w.fate, takes);
    var a := s.(ledger := L.Dispatch(s.ledger, id, w.fate, takes));
    if handedBack { L.CommitMemory(a.ledger, id, L.Failed, Some(L.Answer(0)), w.later); }
    var c := Prompt(Some(id), handedBack);
    assert SendPrompt(s, c, w) == Release(FailTask(a, c, w), c);
  }

  /** A prompt whose task was cancelled meanwhile is not sent. */
  lemma EndedIsNotSent(s: Session, id: nat, handedBack: bool, w: Choice)
    requires id in s.ledger.tasks && s.ledger.tasks[id].status in {L.Completed, L.Failed, L.Cancelled}
    ensures var r := SendPrompt(s, Prompt(Some(id), handedBack), w);
            r.ledger == s.ledger && r.status == s.status && r.turnId == s.turnId
            && (s.reserved == Some(ForPrompt) ==> r.reserved == None)
  {}

  // ----- Admission and the mailbox -----

  /** A prompt is admitted exactly where no command holds the session, no turn or
      restore is under way and the session is open; it then holds the session. */
  lemma PromptAdmitted(s: Session)
    ensures var free := && s.reserved == None && s.inStore
                        && s.status in {Idle, Disconnected, Unavailable, Error, Cancelled};
            var r := AdmitPrompt(s);
            if !free then r == s
            else r.reserved == Some(ForPrompt) && r == Enqueue(s.(reserved := Some(ForPrompt)), Prompt(None, false))
  {}

  /** A task's prompt too, once its handle is durable; the task is then the session's. */
  lemma TaskAdmitted(s: Session, w: Choice)
    ensures var free := && s.reserved == None && s.inStore
                        && s.status in {Idle, Disconnected, Unavailable, Error, Cancelled};
            var r := AdmitTask(s, w);
            && (!free ==> r == s)
            && (free && !w.fate.Synced? ==> r.reserved == None && r.activeTask == s.activeTask && r.items == s.items)
            && (free && w.fate.Synced? ==>
                  && r.reserved == Some(ForPrompt) && r.activeTask == Some(s.ledger.next)
                  && s.ledger.next in r.ledger.tasks
                  && r.ledger.tasks[s.ledger.next] == L.Task(L.Working, None, false, None))
            // Main gets the handle back at once where the prompt has to wait.
            && (free && w.fate.Synced? && !s.queueClosed
                && |s.items| + |s.critical| + (if s.job.Some? then 1 else 0) < 32 ==>
                  var waits := s.job.Some? || s.items != [] || s.critical != [] || s.client != Alive
                               || s.status in {Disconnected, Unavailable};
                  && r.items == s.items + [Prompt(Some(s.ledger.next), waits)]
                  && r.preparing == if waits then Some(s.ledger.next) else s.preparing)
  {}

  /** A restore is admitted where no command holds the session, nothing is under way and it
      has lost its worker; a change of its configuration where the first two hold and it is
      open, and a look at the configuration of any open session. */
  lemma OthersAdmitted(s: Session)
    ensures var free := s.reserved == None && s.inStore
                        && s.status !in {Running, WaitingPermission, WaitingInput, Cancelling, Restoring};
            && AdmitRestore(s) == (if free && (s.client != Alive || s.status in {Disconnected, Unavailable})
                                   then Enqueue(s.(reserved := Some(ForRestore)), Restore) else s)
            && AdmitConfigure(s, true) == (if free && s.status != Closed
                                           then Enqueue(s.(reserved := Some(ForConfig)), Configure(true)) else s)
            && AdmitConfigure(s, false) == (if s.inStore && s.status != Closed
                                            then Enqueue(s, Configure(false)) else s)
  {
    hide Enqueue;
  }

  /** What holds a session is let go by the command it was taken for, and by no other. */
  lemma IntentsEnd(s: Session, c: Command)
    ensures var held := s.reserved;
            Release(s, c).reserved == if || (held == Some(ForPrompt) && c.Prompt?)
                                         || (held == Some(ForRestore) && c.Restore?)
                                         || (held == Some(ForConfig) && c == Configure(true)) then None
                                      else held
    ensures Release(s, c).preparing == if c.Prompt? && c.task.Some? && s.preparing == c.task then None else s.preparing
  {}

  /** Each event is the step it is named for. */
  lemma EventsDo(s: Session, e: Event)
    requires !e.Storage?
    ensures Next(s, e) ==
      match e
      case PromptArrives => AdmitPrompt(s)
      case RunArrives(w) => AdmitTask(s, w)
      case RestoreArrives => AdmitRestore(s)
      case ConfigureArrives(change) => AdmitConfigure(s, change)
      case CommandArrives(c) => if s.inStore && c in {Cancel, Close, OrphanCancel} then Enqueue(s, c) else s
      case ResponseArrives =>
        if s.inStore && s.status in {WaitingPermission, WaitingInput} then Enqueue(s, Respond) else s
      case Unloads => Unload(s)
      case Retires(w) => Retire(s, w)
      case Dies => WorkerDies(s)
      case Replies(token, reply) => WorkerReplies(s, token, reply)
      case Asks(ask) => Offer(s, Update(ask))
      case Runs(w) => Dequeue(s, w)
      case Resumes(path, w) => Resume(s, path, w)
      case Rejects(w) => SettleRejected(s, w)
      case TaskCancels(id, w) => CancelTask(s, id, w)
      case Stops => s.(stopped := true)
      case Crashes(turn, closed, kept, expired) => Restart(s, turn, closed, kept, expired)
      case Storage(_) => s
  {
    hide Enqueue, Offer, AdmitPrompt, AdmitTask, AdmitRestore, AdmitConfigure, Unload, Retire, WorkerDies,
      WorkerReplies, Dequeue, Resume, SettleRejected, CancelTask, Restart;
  }

  // The store forgets, answers, syncs and writes snapshots on its own.
  lemma StorageDoes(s: Session, op: L.Op)
    ensures op.Forget? || op.Ask? || op.Sync? || op.Checkpoint? ==>
              Next(s, Storage(op)) == s.(ledger := L.Step(s.ledger, op))
  {
    hide L.Step;
  }

  /** A session opens idle on a live worker, with no turn, no command and no task. */
  lemma OpensIdle(mode: L.Mode)
    ensures var s := Opened(mode);
            && s.status == Idle && s.client == Alive && s.inStore && !s.queueClosed && !s.stopped
            && s.turnId == None && s.reserved == None && s.activeTask == None && s.job == None
            && s.items == [] && s.critical == [] && s.ledger.tasks == map[] && s.ledger.mode == mode && s.replies == {}
            && !s.cancelRequested && s.base == 0 && s.next == 0
  {}

  /** A status is accepted exactly where the session has it or takes it, and each move is
      recorded. */
  lemma MovesAreRecorded(s: Session, to: Status)
    ensures var a := SetStatus(s, to);
            && (Accepts(s, to) <==> s.status == to || a.moves == s.moves + [(s.status, a.status)])
            && (!Accepts(s, to) || s.status == to ==> a == s)
            && (a.status == to || a == s || (s.status == Cancelling && to == Idle && a.status == Cancelled))
  {
    assert |s.moves + [(s.status, SetStatus(s, to).status)]| == |s.moves| + 1;
  }

  lemma EndedIsNotCancelled(s: Session, id: nat, w: Choice)
    requires id !in s.ledger.tasks || s.ledger.tasks[id].status in {L.Completed, L.Failed, L.Cancelled}
    ensures CancelTask(s, id, w) == s
  {}

  /** A task that is cancelled by itself is so at once, told, and no longer the session's. */
  lemma TaskCancelled(s: Session, id: nat, w: Choice)
    requires id in s.ledger.tasks && s.ledger.tasks[id].status in {L.Working, L.InputRequired} && w.fate.Synced?
    ensures var r := CancelTask(s, id, w);
            && id in r.ledger.tasks && r.ledger.tasks[id].status == L.Cancelled && r.status == s.status
            && L.Outcome(id, L.Cancelled, r.ledger.tasks[id].result) in r.ledger.told
  {
    hide L.Commit;
    L.CommitMemory(s.ledger, id, L.Cancelled, Some(L.Answer(0)), w.fate);
  }

  /** The mailbox takes a command at its end while it is open and not full, and rejects
      it otherwise; what the worker says has room of its own. */
  lemma MailboxTakes(s: Session, c: Command)
    ensures var waiting := |s.items| + |s.critical| + if s.job.Some? then 1 else 0;
            && (if !s.queueClosed && waiting < 32
                then Enqueue(s, c).items == s.items + [c] && Enqueue(s, c).rejected == s.rejected
                else Enqueue(s, c).items == s.items && Enqueue(s, c).rejected == s.rejected + [c])
            && Post(s, c).critical == (if s.queueClosed then s.critical else s.critical + [c])
            && Offer(s, c).critical == (if !s.queueClosed && waiting < 34 then s.critical + [c] else s.critical)
  {}

  /** One command at a time, the worker's side first, each side in its order. */
  lemma MailboxRuns(s: Session, w: Choice)
    ensures var r := Next(s, Runs(w));
            && (s.job.Some? || (s.items == [] && s.critical == []) ==> r == s)
            && (s.job.None? && s.critical != [] ==> r == Start(s.(critical := s.critical[1..]), s.critical[0], w))
            && (s.job.None? && s.critical == [] && s.items != [] ==>
                  r == Start(s.(items := s.items[1..]), s.items[0], w))
  {
    hide Start;
  }

  /** Each command does what it is for. */
  lemma CommandDoes(s: Session, w: Choice, token: nat, reply: Reply, ask: Ask)
    ensures Start(s, Cancel, w) == CancelTurn(s, w) && Start(s, Close, w) == CloseBegins(s, w)
    ensures Start(s, OrphanCancel, w) == OrphanEnd(s, w) && Start(s, ProviderExit, w) == Exit(s, w)
    ensures Start(s, Update(ask), w) == HandleAsk(s, ask, w)
    ensures Start(s, Finish(token, reply), w) == FinishTurn(s, token, reply, w)
  {
    hide CancelTurn, CloseBegins, OrphanEnd, Exit, HandleAsk, FinishTurn, Fail;
  }

  /** What the worker sends reaches the mailbox: its death while it lives, and each reply
      it owes, once. */
  lemma WorkerPosts(s: Session, token: nat, reply: Reply)
    requires !s.queueClosed
    ensures s.client.Alive? ==>
              && WorkerDies(s).client == Dead
              && WorkerDies(s).critical == s.critical + if s.inStore then [ProviderExit] else []
    ensures !s.client.Alive? ==> WorkerDies(s) == s
    ensures var r := WorkerReplies(s, token, reply);
            if token !in s.replies then r == s
            else r.critical == s.critical + [Finish(token, reply)] && token !in r.replies
  {}

  // ----- Connecting again -----

  /** A prompt or a change of configuration goes straight on to a live worker, and otherwise
      to a restore, if that may be; a restore begins there; on a closed session each has
      failed. An answer is given on an open session alone. */
  lemma CommandsPrepare(s: Session, c: Command, w: Choice)
    requires c.Prompt? || c.Configure? || c.Restore? || c.Respond?
    ensures var open := s.inStore && s.status != Closed;
            var ready := s.client == Alive && s.status !in {Disconnected, Unavailable};
            Start(s, c, w) ==
              match c
              case Respond => if !open then s else if w.yes then s.(job := Some(Answering)) else SyncInput(s, w)
              case Restore => if open then s.(job := Some(Reconnecting(c, false))) else Fail(s, c, w)
              case _ =>
                if open && ready then s.(job := Some(Ready(c)))
                else if open && w.yes then s.(job := Some(Reconnecting(c, false))) else Fail(s, c, w)
  {
    hide Fail, SyncInput;
  }

  /** How a command that waited goes on. A restore that was called off fails its command
      where it was for that alone and had not begun; an answer or a close that waited ends;
      a prompt that is ready is sent, and what does not go on has failed. */
  lemma SegmentsDo(s: Session, path: Path, w: Choice)
    ensures var idle, r := s.(job := None), Resume(s, path, w);
            match s.job
            case None => r == s
            case Some(Answering) => r == if path == Goes then SyncInput(idle, w) else idle
            case Some(Closing) => r == CloseEnds(s, w)
            case Some(Ready(c)) =>
              if path == Begins then r == s
              else r == if path == Goes && c.Prompt? then SendPrompt(idle, c, w) else Fail(idle, c, w)
            case Some(Reconnecting(c, begun)) =>
              && (path == Refused ==> r == if begun || c != Restore then s else Fail(idle, c, w))
              && (path == Begins && begun ==> r == s)
              && (path == Goes && !begun ==> r == s)
              && (path == Goes && begun && (s.status == Closed || !s.inStore) ==> r == Fail(idle, c, w))
  {
    hide Fail, SyncInput, SendPrompt, CloseEnds, RestoreFailed, SetStatus, Release;
  }

  /** What was rejected fails one command at a time, each letting go of what it held. */
  lemma RejectedFail(s: Session, w: Choice)
    ensures var r := SettleRejected(s, w);
            if s.rejected == [] then r == s
            else r == Fail(s.(rejected := s.rejected[1..]), s.rejected[0], w) && r.rejected == s.rejected[1..]
  {
    hide FailTask;
  }

  /** A restore that succeeds leaves the session idle on a live worker with its command
      ready, one that fails leaves it unavailable and the command has failed. */
  lemma RestoreEnds(s: Session, c: Command, w: Choice)
    requires s.job == Some(Reconnecting(c, true)) && s.status == Restoring && s.inStore
    ensures var r := Resume(s, Goes, w);
            && r.status == Idle && r.client == Alive
            && (c.Restore? ==> r.job == None && (s.reserved == Some(ForRestore) ==> r.reserved == None))
            && (!c.Restore? ==> r.job == Some(Ready(c)))
    ensures var r := Resume(s, Fails, w);
            && r.status == Unavailable && r.job == None
            && (Reserving(c).Some? && s.reserved == Reserving(c) ==> r.reserved == None)
  {
    hide FailTask;
  }

  lemma RestoreBegins(s: Session, c: Command, w: Choice)
    requires s.job == Some(Reconnecting(c, false)) && s.inStore
    requires s.status in {Idle, Disconnected, Unavailable, Error, Cancelled}
    ensures Resume(s, Begins, w).status == Restoring && Resume(s, Begins, w).job == Some(Reconnecting(c, true))
  {}

  /** A quiet session lets its worker go, and one past its time is closed. */
  lemma QuietEnds(s: Session, w: Choice)
    requires s.inStore && s.reserved == None && s.job == None && s.items == [] && s.critical == []
    requires s.status in {Idle, Error, Cancelled}
    ensures s.client.Alive? ==> Unload(s).status == Disconnected && Unload(s).client == NoClient
    ensures Retire(s, w).status == Closed && Retire(s, w).client == NoClient && (Retire(s, w).inStore <==> !w.yes)
    ensures Retire(s, w).queueClosed
  {}

  /** One that is busy keeps both. */
  lemma BusyStays(s: Session, w: Choice)
    requires || s.reserved != None || s.job != None || s.items != [] || s.critical != [] || !s.inStore
             || s.status in {Running, WaitingPermission, WaitingInput, Cancelling, Restoring}
    ensures Unload(s) == s && Retire(s, w) == s
  {}

  /** A restart finds the session disconnected, or closed if it was saved so, with no turn
      of this process; the task of a turn that was under way has failed. */
  lemma RestartFails(s: Session, savedTurn: Option<nat>, savedClosed: bool, kept: nat, expired: set<nat>, id: nat)
    requires (savedTurn.Some? ==> savedTurn.value < s.next) && kept <= |s.ledger.pending| && L.Sound(s.ledger)
    requires id in s.ledger.tasks && s.ledger.tasks[id].status in {L.Working, L.InputRequired} && id !in expired
    ensures var r := Restart(s, savedTurn, savedClosed, kept, expired);
            && r.status == (if savedClosed then Closed else Disconnected) && r.turnId == savedTurn
            && r.client == NoClient
            && r.reserved == None && r.activeTask == None && r.job == None && r.items == [] && r.critical == []
            && !Live(r) && r.inStore && !r.queueClosed && !r.stopped && !r.cancelRequested && r.turnSeal == None
            && r.rejected == [] && r.replies == {} && r.next == s.next
            && id in r.ledger.tasks && L.SameOutcome(r.ledger.tasks[id], L.Failed, Some(L.Restarted))
  {
    assert L.World(s.ledger, L.Survivors(s.ledger, kept));
    hide L.Survivors;
  }

  // ----- The table -----

  /** The table by where it leads: closed from everywhere, disconnected from everywhere
      open that is not yet so, and a turn only from rest and only to its ends. */
  lemma TableByTarget(from: Status, to: Status)
    ensures Edge(from, to) <==>
              from !in {Closed} && match to
              case Closed => true
              case Disconnected => from != Disconnected
              case Restoring => from in {Idle, Disconnected, Unavailable, Error, Cancelled}
              case Unavailable => from == Restoring
              case Idle => from in {Running, WaitingPermission, WaitingInput, Restoring}
              case Running => from in {Idle, WaitingPermission, WaitingInput, Error, Cancelled}
              case WaitingPermission => from in {Running, WaitingInput}
              case WaitingInput => from in {Running, WaitingPermission}
              case Cancelling => from in {Running, WaitingPermission, WaitingInput}
              case Error => from in {Running, WaitingPermission, WaitingInput, Cancelling}
              case Cancelled => from in {Running, WaitingPermission, WaitingInput, Cancelling}
  {}
}

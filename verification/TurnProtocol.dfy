/** One session's turns as a transition system: admission, the mailbox, the
    commands that run in it, the worker's side and a crash
    (src/gateway-service.js, src/session-queue.js). */
module TurnProtocol {
  import opened Wrappers
  import L = TaskLedger

  datatype Status =
    | Idle | Running | WaitingPermission | WaitingInput | Cancelling | Restoring
    | Disconnected | Unavailable | Error | Cancelled | Closed

  predicate Edge(from: Status, to: Status) {
    match from
    case Idle => to in {Running, Restoring, Disconnected, Closed}
    case Running => to in {WaitingPermission, WaitingInput, Cancelling, Idle, Cancelled, Error, Disconnected, Closed}
    case WaitingPermission => to in {Running, WaitingInput, Cancelling, Idle, Cancelled, Error, Disconnected, Closed}
    case WaitingInput => to in {Running, WaitingPermission, Cancelling, Idle, Cancelled, Error, Disconnected, Closed}
    case Cancelling => to in {Cancelled, Error, Disconnected, Closed}
    case Restoring => to in {Idle, Unavailable, Disconnected, Closed}
    case Disconnected => to in {Restoring, Closed}
    case Unavailable => to in {Restoring, Disconnected, Closed}
    case Error => to in {Running, Restoring, Disconnected, Closed}
    case Cancelled => to in {Running, Restoring, Disconnected, Closed}
    case Closed => false
  }

  predicate TurnActive(status: Status) {
    status.Running? || status.WaitingPermission? || status.WaitingInput? || status.Cancelling?
  }

  predicate Active(status: Status) { TurnActive(status) || status.Restoring? }

  datatype Client = NoClient | Dead | Alive

  datatype Intent = ForPrompt | ForRestore | ForConfig

  datatype Ask = Permission | Elicitation

  /** A worker's reply to a prompt: an ended turn (cancelled or not), or a failure. */
  datatype Reply = Ended(cancelled: bool) | Failure

  datatype Command =
    | Prompt(task: Option<nat>, handedBack: bool)
    | Restore
    | Configure(change: bool)
    | Cancel
    | Close
    | Respond
    | OrphanCancel
    | Update(ask: Ask)
    | ProviderExit
    | Finish(token: nat, reply: Reply)

  // The intent a waiting command holds the session with.
  function Reserving(c: Command): Option<Intent> {
    match c
    case Prompt(_, _) => Some(ForPrompt)
    case Restore => Some(ForRestore)
    case Configure(true) => Some(ForConfig)
    case _ => None
  }

  /** Where the command that has the mailbox is waiting. */
  datatype Job =
    | Reconnecting(command: Command, begun: bool)
    | Ready(command: Command)
    | Answering
    | Closing

  const QUEUE_LIMIT := 32
  const CRITICAL_RESERVE := 2

  /** base and next bound the turn tokens of this process; replies are the ones
      its workers still owe. sealed, tasksOf and moves are history of this process. */
  datatype Session = Session(
    status: Status, turnId: Option<nat>, turnSeal: Option<nat>, reserved: Option<Intent>,
    activeTask: Option<nat>, preparing: Option<nat>, cancelRequested: bool, client: Client, inStore: bool,
    queueClosed: bool, critical: seq<Command>, items: seq<Command>, job: Option<Job>, rejected: seq<Command>,
    ledger: L.Ledger, stopped: bool,
    base: nat, next: nat, replies: set<nat>, sealed: seq<nat>, tasksOf: map<nat, nat>, moves: seq<(Status, Status)>)

  /** What the world decides in one step: how a durable write fares and one after
      it, whether a plain log record is written, whether a status message is news,
      which worker request is still pending, and one free choice. */
  datatype Choice = Choice(fate: L.Fate, later: L.Fate, held: bool, news: bool, pending: Option<Ask>, yes: bool)

  datatype Path = Begins | Refused | Fails | Goes

  // ----- The choke point -----

  function Move(s: Session, to: Status): Session { s.(status := to, moves := s.moves + [(s.status, to)]) }

  predicate Accepts(s: Session, to: Status) {
    s.status == to || Edge(s.status, to) || (s.inStore && s.status == Cancelling && to == Idle)
  }

  /** #setStatus: the same status, an edge of the table, or a cancel that turns idle into cancelled. */
  function SetStatus(s: Session, to: Status): (r: Session)
    ensures r == s.(status := r.status, moves := r.moves)
  {
    if s.status == to then s
    else if Edge(s.status, to) then Move(s, to)
    else if s.inStore && s.status == Cancelling && to == Idle then Move(s, Cancelled)
    else s
  }

  predicate Unsealed(s: Session) { s.turnId.Some? && s.turnSeal != s.turnId }

  /** A turn that this process started and nobody has finalized. */
  predicate Live(s: Session) { Unsealed(s) && s.turnId.value >= s.base }

  predicate Open(s: Session) { s.status != Closed && s.inStore }

  function Seal(s: Session): (r: Session)
    ensures r == s.(turnSeal := r.turnSeal, sealed := r.sealed)
  {
    if Unsealed(s) then s.(turnSeal := s.turnId, sealed := s.sealed + [s.turnId.value]) else s
  }

  // ----- The session's task -----

  function UpdateTask(s: Session, status: L.Status, news: bool, held: bool): (r: Session)
    requires !L.Terminal(status)
    ensures r == s.(ledger := r.ledger)
  {
    if s.activeTask.None? then s else s.(ledger := L.Move(s.ledger, s.activeTask.value, status, news, held))
  }

  function EndTask(s: Session, status: L.Status, fate: L.Fate): (r: Session)
    requires L.Terminal(status)
    ensures r == s.(ledger := r.ledger, activeTask := r.activeTask)
  {
    if s.activeTask.None? || s.activeTask.value !in s.ledger.tasks then s
    else
      var turn := if s.turnId.Some? then s.turnId.value else 0;
      s.(ledger := L.Commit(s.ledger, s.activeTask.value, status, Some(L.Answer(turn)), fate), activeTask := None)
  }

  function OutcomeOf(status: Status): (o: L.Status)
    ensures L.Terminal(o)
  {
    if status.Cancelled? then L.Cancelled else if status.Idle? then L.Completed else L.Failed
  }

  function FinishTask(s: Session, fate: L.Fate): Session { EndTask(s, OutcomeOf(s.status), fate) }

  function Unclaim(s: Session, id: nat): Session { if s.activeTask == Some(id) then s.(activeTask := None) else s }

  // ----- Admission and the mailbox -----

  function Depth(s: Session): nat { |s.items| + |s.critical| + if s.job.Some? then 1 else 0 }

  // A command the mailbox does not take fails like one that a close rejects.
  function Enqueue(s: Session, c: Command): (r: Session)
    ensures r == s.(items := r.items, rejected := r.rejected)
  {
    if s.queueClosed || Depth(s) >= QUEUE_LIMIT then s.(rejected := s.rejected + [c]) else s.(items := s.items + [c])
  }

  function Post(s: Session, c: Command): (r: Session)
    ensures r == s.(critical := r.critical)
  {
    if s.queueClosed then s else s.(critical := s.critical + [c])
  }

  function Offer(s: Session, c: Command): (r: Session)
    ensures r == s.(critical := r.critical)
  {
    if s.queueClosed || Depth(s) >= QUEUE_LIMIT + CRITICAL_RESERVE then s else s.(critical := s.critical + [c])
  }

  predicate QueueIdle(s: Session) { s.job.None? && s.items == [] && s.critical == [] }

  predicate Quiet(s: Session) { s.reserved.None? && QueueIdle(s) }

  predicate NeedsRestore(s: Session) { !s.client.Alive? || s.status.Disconnected? || s.status.Unavailable? }

  predicate Admits(s: Session) { s.reserved.None? && !Active(s.status) && Open(s) }

  function AdmitPrompt(s: Session): Session {
    if Admits(s) then Enqueue(s.(reserved := Some(ForPrompt)), Prompt(None, false)) else s
  }

  function AdmitTask(s: Session, w: Choice): Session {
    if !Admits(s) then s
    else
      var id := s.ledger.next;
      var made := s.(ledger := L.Create(s.ledger, w.fate, w.held));
      if !w.fate.Synced? then made
      else
        var handBack := !QueueIdle(s) || NeedsRestore(s);
        Enqueue(made.(reserved := Some(ForPrompt), activeTask := Some(id),
                      preparing := if handBack then Some(id) else made.preparing), Prompt(Some(id), handBack))
  }

  function AdmitRestore(s: Session): Session {
    if s.inStore && NeedsRestore(s) && s.reserved.None? && !Active(s.status)
    then Enqueue(s.(reserved := Some(ForRestore)), Restore) else s
  }

  function AdmitConfigure(s: Session, change: bool): Session {
    if !Open(s) then s
    else if !change then Enqueue(s, Configure(false))
    else if s.reserved.None? && !Active(s.status) then Enqueue(s.(reserved := Some(ForConfig)), Configure(true))
    else s
  }

  function AskRespond(s: Session): Session {
    if s.inStore && (s.status.WaitingPermission? || s.status.WaitingInput?) then Enqueue(s, Respond) else s
  }

  function Release(s: Session, c: Command): (r: Session)
    ensures r == s.(reserved := r.reserved, preparing := r.preparing)
    ensures r.reserved == if Reserving(c).Some? && s.reserved == Reserving(c) then None else s.reserved
  {
    var done := if c.Prompt? && c.task.Some? && s.preparing == c.task then s.(preparing := None) else s;
    if Reserving(c).Some? && s.reserved == Reserving(c) then done.(reserved := None) else done
  }

  function Withdraw(s: Session, id: nat, held: bool): (r: Session)
    ensures r == s.(ledger := r.ledger, activeTask := r.activeTask)
  {
    Unclaim(s, id).(ledger := L.Remove(s.ledger, id, held))
  }

  function FailUnsent(s: Session, id: nat, fate: L.Fate): (r: Session)
    ensures r == s.(ledger := r.ledger, activeTask := r.activeTask)
  {
    if s.stopped || !L.Stampable(s.ledger, id) || s.ledger.tasks[id].dispatched then s
    else Unclaim(s, id).(ledger := L.Commit(s.ledger, id, L.Failed, Some(L.Answer(0)), fate))
  }

  // The task of a prompt that will not be sent: its handle is withdrawn, or, if
  // Main already holds it, it fails as one that never started.
  function FailTask(s: Session, c: Command, w: Choice): (r: Session)
    ensures r == s.(ledger := r.ledger, activeTask := r.activeTask)
  {
    if !c.Prompt? || c.task.None? then s
    else if !c.handedBack then Withdraw(s, c.task.value, w.held)
    else FailUnsent(s, c.task.value, w.later)
  }

  /** A command that failed before it did what it was for. */
  function Fail(s: Session, c: Command, w: Choice): (r: Session)
    ensures r == s.(ledger := r.ledger, activeTask := r.activeTask, reserved := r.reserved, preparing := r.preparing)
    ensures r.reserved == if Reserving(c).Some? && s.reserved == Reserving(c) then None else s.reserved
  {
    Release(FailTask(s, c, w), c)
  }

  // ----- Commands that finish at once -----

  function CancelTurn(s: Session, w: Choice): Session {
    if Unsealed(s) && Open(s) && Active(s.status) && s.client.Alive?
    then UpdateTask(SetStatus(s.(cancelRequested := true), Cancelling), L.Working, true, w.held) else s
  }

  function FinishTurn(s: Session, token: nat, reply: Reply, w: Choice): Session {
    if s.stopped || s.turnId != Some(token) || s.turnSeal == Some(token) || !Open(s) then s
    else
      var a := Seal(s);
      match reply
      case Failure => FinishTask(SetStatus(a, if s.client.Alive? then Error else Disconnected), w.fate)
      case Ended(cancelled) =>
        var to := if s.cancelRequested || cancelled then Cancelled else Idle;
        FinishTask(SetStatus(a, to).(cancelRequested := false), w.fate)
  }

  function Exit(s: Session, w: Choice): Session {
    if !Open(s) then s
    else
      var a := SetStatus(Seal(s).(client := NoClient), Disconnected);
      if Unsealed(s) then FinishTask(a, w.fate) else a
  }

  function OrphanEnd(s: Session, w: Choice): Session {
    if !s.inStore || !w.yes || !TurnActive(s.status) then s
    else EndTask(SetStatus(Seal(s.(cancelRequested := true)), Cancelled), L.Cancelled, w.fate)
  }

  // What the worker still waits on, mirrored onto the session.
  function SyncInput(s: Session, w: Choice): Session {
    match w.pending
    case Some(ask) =>
      var to := if ask.Permission? then WaitingPermission else WaitingInput;
      if Accepts(s, to) then UpdateTask(SetStatus(s, to), L.InputRequired, w.news, w.held) else s
    case None =>
      if Unsealed(s) && Open(s) then UpdateTask(SetStatus(s, Running), L.Working, w.news, w.held) else s
  }

  // A worker's request; w.yes says whether its inbox row was made.
  function HandleAsk(s: Session, ask: Ask, w: Choice): Session {
    var to := if ask.Permission? then WaitingPermission else WaitingInput;
    if !Open(s) || !Accepts(s, to) then s
    else if !w.yes then SyncInput(SetStatus(s, to), w)
    else UpdateTask(SetStatus(s, to), L.InputRequired, w.news, w.held)
  }

  // ----- Commands that wait on the way -----

  // Close seals before it waits for the worker.
  function CloseBegins(s: Session, w: Choice): Session {
    if !Open(s) then s
    else if Unsealed(s) then EndTask(Seal(s), L.Cancelled, w.fate).(job := Some(Closing))
    else s.(job := Some(Closing))
  }

  // Everything still queued is rejected; w.yes says whether the record went too.
  function CloseEnds(s: Session, w: Choice): Session {
    SetStatus(s, Closed).(client := NoClient, inStore := s.inStore && !w.yes, job := None, queueClosed := true,
                          rejected := s.rejected + s.items + s.critical, items := [], critical := [])
  }

  predicate TaskEnded(l: L.Ledger, task: Option<nat>) {
    task.Some? && task.value in l.tasks && L.Terminal(l.tasks[task.value].status)
  }

  /** The prompt is on its way: the turn begins. */
  function StartTurn(s: Session, task: Option<nat>, w: Choice): Session {
    var token := s.next;
    var a := SetStatus(s.(turnId := Some(token), turnSeal := None, replies := s.replies + {token}, next := token + 1,
                          tasksOf := if task.Some? then s.tasksOf[token := task.value] else s.tasksOf), Running)
             .(cancelRequested := false);
    if task.None? then a
    else a.(ledger := L.Move(L.Attach(a.ledger, task.value, token), task.value, L.Working, true, w.held))
  }

  /** The last segment of a prompt: nothing awaits between the stamp and the send. */
  function SendPrompt(s: Session, c: Command, w: Choice): Session
    requires c.Prompt?
  {
    if TaskEnded(s.ledger, c.task) then Release(s, c)
    else
      var takes := w.yes && s.client.Alive?;
      if c.task.None? then (if takes then Release(StartTurn(s, None, w), c) else Fail(s, c, w))
      else
        var id := c.task.value;
        var a := s.(ledger := L.Dispatch(s.ledger, id, w.fate, takes));
        if takes && (L.Stampable(s.ledger, id) ==> w.fate.Synced?) then Release(StartTurn(a, c.task, w), c)
          else Fail(a, c, w)
  }

  function Start(s: Session, c: Command, w: Choice): Session {
    match c
    case Prompt(_, _) =>
      if !Open(s) then Fail(s, c, w)
      else if !NeedsRestore(s) then s.(job := Some(Ready(c)))
      else if w.yes then s.(job := Some(Reconnecting(c, false))) else Fail(s, c, w)
    case Restore => if !Open(s) then Fail(s, c, w) else s.(job := Some(Reconnecting(c, false)))
    case Configure(_) =>
      if !Open(s) then Fail(s, c, w)
      else if !NeedsRestore(s) then s.(job := Some(Ready(c)))
      else if w.yes then s.(job := Some(Reconnecting(c, false))) else Fail(s, c, w)
    case Cancel => CancelTurn(s, w)
    case Close => CloseBegins(s, w)
    case Respond => if !Open(s) then s else if w.yes then s.(job := Some(Answering)) else SyncInput(s, w)
    case OrphanCancel => OrphanEnd(s, w)
    case Update(ask) => HandleAsk(s, ask, w)
    case ProviderExit => Exit(s, w)
    case Finish(token, reply) => FinishTurn(s, token, reply, w)
  }

  // The worker's side of the mailbox goes first.
  function Dequeue(s: Session, w: Choice): Session {
    if s.job.Some? then s
    else if s.critical != [] then Start(s.(critical := s.critical[1..]), s.critical[0], w)
    else if s.items != [] then Start(s.(items := s.items[1..]), s.items[0], w)
    else s
  }

  // A restore attempt that goes wrong ends at unavailable.
  function RestoreFailed(s: Session): Session {
    if Open(s) then SetStatus(SetStatus(s, Restoring), Unavailable) else s
  }

  function Resume(s: Session, path: Path, w: Choice): Session {
    if s.job.None? then s
    else
      var idle := s.(job := None);
      match s.job.value
      case Reconnecting(c, begun) =>
        if path.Begins? then (if begun then s else SetStatus(s, Restoring).(job := Some(Reconnecting(c, true))))
        else if path.Refused? then (if begun || !c.Restore? then s else Fail(idle, c, w))
        else if path.Fails? then Fail(RestoreFailed(idle), c, w)
        else if !begun then s
        else if !Open(s) then Fail(idle, c, w)
        else
          var back := SetStatus(idle.(client := Alive), Idle);
          if c.Restore? then Release(back, c) else back.(job := Some(Ready(c)))
      case Ready(c) =>
        if path.Begins? then s // the model is being switched
        else if path.Goes? && c.Prompt? then SendPrompt(idle, c, w)
        else Fail(idle, c, w)
      case Answering => if path.Goes? then SyncInput(idle, w) else idle
      case Closing => CloseEnds(s, w)
  }

  // ----- Outside the mailbox -----

  function Unload(s: Session): Session {
    if s.inStore && s.client.Alive? && !Active(s.status) && Quiet(s)
    then SetStatus(s.(client := NoClient), Disconnected)
    else s
  }

  function Retire(s: Session, w: Choice): Session {
    if s.inStore && !Active(s.status) && Quiet(s)
    then SetStatus(s, Closed).(client := NoClient, queueClosed := true, inStore := s.inStore && !w.yes) else s
  }

  function WorkerDies(s: Session): Session {
    if !s.client.Alive? then s else if s.inStore then Post(s.(client := Dead), ProviderExit) else s.(client := Dead)
  }

  function WorkerReplies(s: Session, token: nat, reply: Reply): Session {
    if token in s.replies then Post(s.(replies := s.replies - {token}), Finish(token, reply)) else s
  }

  function SettleRejected(s: Session, w: Choice): Session {
    if s.rejected == [] then s else Fail(s.(rejected := s.rejected[1..]), s.rejected[0], w)
  }

  function CancelTask(s: Session, id: nat, w: Choice): (r: Session)
    ensures r == s.(ledger := r.ledger, activeTask := r.activeTask)
  {
    if !L.Stampable(s.ledger, id) then s
    else Unclaim(s, id).(ledger := L.Commit(s.ledger, id, L.Cancelled, Some(L.Answer(0)), w.fate))
  }

  /** A crash and the next start: what was in flight is gone, the record comes
      back closed or disconnected with the turn id it was saved with, unsealed. */
  function Restart(s: Session, savedTurn: Option<nat>, savedClosed: bool, kept: nat, expired: set<nat>): Session {
    if (savedTurn.Some? && savedTurn.value >= s.next) || kept > |s.ledger.pending| then s
    else Session(if savedClosed then Closed else Disconnected, savedTurn, None, None, None, None, false, NoClient, true,
                 false, [], [], None, [], L.Crash(s.ledger, kept, expired), false, s.next, s.next, {}, [], map[], [])
  }

  datatype Event =
    | PromptArrives
    | RunArrives(w: Choice)
    | RestoreArrives
    | ConfigureArrives(change: bool)
    | CommandArrives(command: Command)
    | ResponseArrives
    | Unloads
    | Retires(w: Choice)
    | Dies
    | Replies(token: nat, reply: Reply)
    | Asks(ask: Ask)
    | Runs(w: Choice)
    | Resumes(path: Path, w: Choice)
    | Rejects(w: Choice)
    | TaskCancels(id: nat, w: Choice)
    | Storage(op: L.Op)
    | Stops
    | Crashes(savedTurn: Option<nat>, savedClosed: bool, kept: nat, expired: set<nat>)

  // What the task store and the state store do on their own.
  predicate Housekeeping(op: L.Op) { op.Forget? || op.Ask? || op.Sync? || op.Checkpoint? }

  function Next(s: Session, e: Event): Session {
    match e
    case PromptArrives => AdmitPrompt(s)
    case RunArrives(w) => AdmitTask(s, w)
    case RestoreArrives => AdmitRestore(s)
    case ConfigureArrives(change) => AdmitConfigure(s, change)
    case CommandArrives(c) => if s.inStore && (c.Cancel? || c.Close? || c.OrphanCancel?) then Enqueue(s, c) else s
    case ResponseArrives => AskRespond(s)
    case Unloads => Unload(s)
    case Retires(w) => Retire(s, w)
    case Dies => WorkerDies(s)
    case Replies(token, reply) => WorkerReplies(s, token, reply)
    case Asks(ask) => Offer(s, Update(ask))
    case Runs(w) => Dequeue(s, w)
    case Resumes(path, w) => Resume(s, path, w)
    case Rejects(w) => SettleRejected(s, w)
    case TaskCancels(id, w) => CancelTask(s, id, w)
    case Storage(op) => if Housekeeping(op) then s.(ledger := L.Step(s.ledger, op)) else s
    case Stops => s.(stopped := true)
    case Crashes(turn, closed, kept, expired) => Restart(s, turn, closed, kept, expired)
  }

  function RunAll(s: Session, events: seq<Event>): Session
    decreases |events|
  {
    if events == [] then s else Next(RunAll(s, events[..|events| - 1]), events[|events| - 1])
  }

  /** A session as sessionOpen registers it: idle, on a live worker. */
  function Opened(mode: L.Mode): Session {
    Session(Idle, None, None, None, None, None, false, Alive, true, false, [], [], None, [], L.Empty(mode), false,
            0, 0, {}, [], map[], [])
  }
}

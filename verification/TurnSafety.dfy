/** What holds in every run of the turn protocol, with crashes at any step. */
module TurnSafety {
  import opened Wrappers
  import L = TaskLedger
  import Effects = TurnEffects
  import opened TurnProtocol
  import opened TurnStatus
  import opened TurnTasks
  import opened TurnHistory
  import opened TurnLedger

  ghost predicate Safe(s: Session) { Turns(s) && Queue(s) && Tasks(s) && History(s) && L.Sound(s.ledger) }

  lemma OpenedStatus(mode: L.Mode)
    ensures Turns(Opened(mode)) && History(Opened(mode))
  {
  }

  lemma EmptyQueue(s: Session)
    requires s.items == [] && s.rejected == [] && s.job.None? && s.reserved.None?
    ensures Queue(s)
  {
    CountEmpty();
  }

  lemma NoTasks(s: Session)
    requires s.tasksOf == map[] && s.activeTask.None?
    ensures Tasks(s)
  {
  }

  lemma OpenedSafe(mode: L.Mode)
    ensures Safe(Opened(mode))
  {
    hide Turns, History, QueueOf, Tasks, L.Sound, L.Empty;
    OpenedStatus(mode);
    EmptyQueue(Opened(mode));
    NoTasks(Opened(mode));
    L.EmptySound(mode);
  }

  lemma NextSafe(s: Session, e: Event)
    requires Safe(s)
    ensures Safe(Next(s, e))
  {
    hide Turns, QueueOf, Tasks, History, L.Memory, L.Agrees, Next, Reaches;
    NextTurns(s, e);
    NextKeeps(s, e);
    NextHistory(s, e);
    NextReaches(s, e);
    ReachesSound(s.ledger, Next(s, e).ledger);
  }

  lemma {:induction false} RunSafe(mode: L.Mode, events: seq<Event>)
    ensures Safe(RunAll(Opened(mode), events))
    decreases |events|
  {
    hide Safe, Next;
    OpenedSafe(mode);
    if events != [] {
      RunSafe(mode, events[..|events| - 1]);
      NextSafe(RunAll(Opened(mode), events[..|events| - 1]), events[|events| - 1]);
    }
  }

  /** A session in running, waiting_permission, waiting_input or cancelling has an
      unsealed turn of this process, except while a close that sealed it is under
      way; and a turn is unsealed only in those statuses. */
  lemma ActiveHasTurn(mode: L.Mode, events: seq<Event>)
    ensures var s := RunAll(Opened(mode), events);
            && (TurnActive(s.status) ==> Live(s) || s.job == Some(Closing))
            && (Live(s) ==> TurnActive(s.status) && s.job != Some(Closing))
            && (s.status.Restoring? ==> s.job.Some? && s.job.value.Reconnecting?)
  {
    RunSafe(mode, events);
    hide RunAll, Queue, Tasks, History, L.Sound;
  }

  /** Each turn is finalized at most once, and then its task has ended or is gone. */
  lemma SealedOnce(mode: L.Mode, events: seq<Event>)
    ensures var s := RunAll(Opened(mode), events);
            && (forall i, j | 0 <= i < j < |s.sealed| :: s.sealed[i] != s.sealed[j])
            && (forall k | k in s.sealed && k in s.tasksOf :: Over(s.ledger, s.tasksOf[k]))
  {
    RunSafe(mode, events);
    hide RunAll, Queue, Turns, L.Sound;
  }

  /** Every status move of every run is an edge of the table, and the moves lead, each
      where the next begins, from where the session began to the status it has. */
  lemma MovesAreEdges(mode: L.Mode, events: seq<Event>)
    ensures var s := RunAll(Opened(mode), events);
            && (forall m | m in s.moves :: Edge(m.0, m.1))
            && (forall i, j | 0 <= i < j < |s.moves| && j == i + 1 :: s.moves[i].1 == s.moves[j].0)
            && (if s.moves == [] then s.status in {Idle, Disconnected, Closed}
                else s.moves[0].0 in {Idle, Disconnected, Closed} && s.moves[|s.moves| - 1].1 == s.status)
  {
    RunSafe(mode, events);
    hide RunAll, Queue, Turns, Tasks, L.Sound;
  }

  // Only a prompt that was sent changes the turn.
  lemma StartKeepsTurn(s: Session, c: Command, w: Choice)
    ensures Start(s, c, w).turnId == s.turnId
  {
    hide CancelTurn, CloseBegins, OrphanEnd, Exit, SyncInput, HandleAsk, FinishTurn, Fail, Calm, NeedsRestore, Open;
    match c
    case Cancel => CancelSteady(s, w);
    case Close => CloseSteady(s, w);
    case Respond => SyncSteady(s, w);
    case OrphanCancel => OrphanSteady(s, w);
    case Update(ask) => AskSteady(s, ask, w);
    case ProviderExit => ExitSteady(s, w);
    case Finish(token, reply) => FinishSteady(s, token, reply, w);
    case Prompt(_, _) =>
    case Restore =>
    case Configure(_) =>
  }

  predicate Sends(s: Session) { s.job.Some? && s.job.value.Ready? && s.job.value.command.Prompt? }

  lemma OthersKeepTurn(s: Session, path: Path, w: Choice)
    requires !Sends(s)
    ensures Resume(s, path, w).turnId == s.turnId
  {
    SyncSteady(s.(job := None), w);
    RestoreFields(s.(job := None));
    hide SendPrompt, Fail, Release, SetStatus, SyncInput, Open, RestoreFailed, Calm;
  }

  lemma SendsUnrivalled(s: Session)
    requires Turns(s) && Queue(s) && Sends(s)
    ensures !Live(s)
  {
    assert s.job.value.command in Held(s.job);
    FirstReserves(s, s.job.value.command);
    NotLive(s);
  }

  lemma ResumeKeepsTurn(s: Session, path: Path, w: Choice)
    requires Turns(s) && Queue(s)
    ensures Resume(s, path, w).turnId != s.turnId ==> !Live(s) && Resume(s, path, w).turnId == Some(s.next)
  {
    if Sends(s) {
      SendsUnrivalled(s);
      SendTurnId(s.(job := None), s.job.value.command, w);
      hide Turns, QueueOf, SendPrompt, Fail, Live;
    } else {
      OthersKeepTurn(s, path, w);
    }
  }

  lemma SendTurnId(s: Session, c: Command, w: Choice)
    requires c.Prompt?
    ensures SendPrompt(s, c, w).turnId == s.turnId || SendPrompt(s, c, w).turnId == Some(s.next)
  {
    SendCases(s, c, w);
    hide SendPrompt, Fail, Release, L.Dispatch, SetStatus, L.Move, L.Attach;
  }

  lemma OtherKeepsTurn(s: Session, e: Event)
    requires !e.Runs? && !e.Resumes? && !e.Crashes?
    ensures Next(s, e).turnId == s.turnId
  {
    hide SetStatus, Enqueue, Post, Offer, Fail, CancelTask, L.Step, L.Create, Admits, NeedsRestore, Open, Quiet,
      QueueIdle;
  }

  /** No turn starts while another of this process is unsealed. */
  lemma NoRivalTurn(mode: L.Mode, events: seq<Event>, e: Event)
    requires !e.Crashes?
    ensures var s := RunAll(Opened(mode), events);
            Next(s, e).turnId != s.turnId ==> !Live(s) && Next(s, e).turnId == Some(s.next)
  {
    var s := RunAll(Opened(mode), events);
    RunSafe(mode, events);
    hide Turns, QueueOf, Tasks, History, L.Sound, RunAll, Live, Start, Resume;
    if e.Runs? {
      if s.critical != [] { StartKeepsTurn(s.(critical := s.critical[1..]), s.critical[0], e.w); }
      if s.items != [] { StartKeepsTurn(s.(items := s.items[1..]), s.items[0], e.w); }
    } else if e.Resumes? {
      ResumeKeepsTurn(s, e.path, e.w);
    } else {
      OtherKeepsTurn(s, e);
      hide Next;
    }
  }

  lemma SetClosed(s: Session, to: Status)
    ensures s.status.Closed? ==> SetStatus(s, to).status.Closed?
  {
  }

  // Commands find a closed session and leave its status alone.
  lemma StartClosed(s: Session, c: Command, w: Choice)
    requires s.status.Closed?
    ensures Start(s, c, w).status.Closed?
  {
    hide SetStatus, Seal, EndTask, UpdateTask, Fail, OutcomeOf, NeedsRestore, Unsealed;
  }

  lemma SendClosed(s: Session, c: Command, w: Choice)
    requires c.Prompt? && s.status.Closed?
    ensures SendPrompt(s, c, w).status.Closed?
  {
    SendCases(s, c, w);
    var a := Dispatched(s, c, w);
    SetClosed(a.(turnId := Some(a.next), turnSeal := None, replies := a.replies + {a.next}, next := a.next + 1,
                 tasksOf := if c.task.Some? then a.tasksOf[a.next := c.task.value] else a.tasksOf), Status.Running);
    hide SendPrompt, Fail, Release, L.Dispatch, SetStatus, L.Move, L.Attach;
  }

  lemma ResumeClosed(s: Session, path: Path, w: Choice)
    requires s.status.Closed?
    ensures Resume(s, path, w).status.Closed?
  {
    SetClosed(s, Status.Restoring);
    SetClosed(s, Status.Closed);
    if s.job.Some? && s.job.value.Ready? && s.job.value.command.Prompt? {
      SendClosed(s.(job := None), s.job.value.command, w);
    }
    hide SendPrompt, Fail, Release, SetStatus, UpdateTask, Unsealed;
  }

  lemma OtherClosed(s: Session, e: Event)
    requires s.status.Closed? && !e.Runs? && !e.Resumes? && !e.Crashes?
    ensures Next(s, e).status.Closed?
  {
    SetClosed(s, Status.Closed);
    SetClosed(s.(client := NoClient), Disconnected);
    hide SetStatus, Enqueue, Post, Offer, Fail, CancelTask, L.Step, L.Create, Admits, NeedsRestore, Open, Quiet,
      QueueIdle;
  }

  /** Closed is absorbing, short of a crash that comes before it was saved. */
  lemma ClosedIsFinal(s: Session, e: Event)
    requires s.status.Closed? && !e.Crashes?
    ensures Next(s, e).status.Closed?
  {
    hide Start, Resume;
    if e.Runs? {
      if s.critical != [] { StartClosed(s.(critical := s.critical[1..]), s.critical[0], e.w); }
      if s.items != [] { StartClosed(s.(items := s.items[1..]), s.items[0], e.w); }
    } else if e.Resumes? {
      ResumeClosed(s, e.path, e.w);
    } else {
      OtherClosed(s, e);
      hide Next;
    }
  }

  lemma {:induction false} RunReaches(mode: L.Mode, events: seq<Event>, more: seq<Event>)
    ensures Reaches(RunAll(Opened(mode), events).ledger, RunAll(RunAll(Opened(mode), events), more).ledger)
    ensures RunAll(RunAll(Opened(mode), events), more) == RunAll(Opened(mode), events + more)
    decreases |more|
  {
    hide Reaches, Next, Queue;
    var s := RunAll(Opened(mode), events);
    if more == [] {
      Stays(s.ledger);
      assert events + more == events;
    } else {
      var before := more[..|more| - 1];
      RunReaches(mode, events, before);
      assert (events + more)[..|events + more| - 1] == events + before;
      RunSafe(mode, events + before);
      NextReaches(RunAll(s, before), more[|more| - 1]);
      Chains(s.ledger, RunAll(s, before).ledger, RunAll(s, more).ledger);
    }
  }

  /** Whatever the protocol does and whenever it crashes: the prompt of a task
      still in the store left after its record and its stamp were durable. */
  lemma SentIsDurable(mode: L.Mode, events: seq<Event>, id: nat, kept: nat)
    requires var l := RunAll(Opened(mode), events).ledger; id in l.sent && id in l.tasks && kept <= |l.pending|
    ensures var m := L.Survivors(RunAll(Opened(mode), events).ledger, kept); id in m && !L.NotStarted(m[id])
  {
    RunSafe(mode, events);
    hide RunAll, Turns, Queue, Tasks, History, L.Replay;
    var l := RunAll(Opened(mode), events).ledger;
    assert L.World(l, L.Survivors(l, kept));
  }

  /** An outcome that a waiter or subscriber saw is in whatever a crash leaves. */
  lemma ToldIsDurable(mode: L.Mode, events: seq<Event>, o: L.Outcome, kept: nat)
    requires var l := RunAll(Opened(mode), events).ledger;
             o in l.told && L.Stored(o.result) && o.id in l.tasks && kept <= |l.pending|
    ensures var m := L.Survivors(RunAll(Opened(mode), events).ledger, kept);
            o.id in m && L.SameOutcome(L.Recovered(m[o.id]), o.status, o.result)
  {
    RunSafe(mode, events);
    hide RunAll, Turns, Queue, Tasks, History, L.Replay, L.Recovered;
    var l := RunAll(Opened(mode), events).ledger;
    assert L.World(l, L.Survivors(l, kept));
  }

  /** And it is never another one later, nor lost while the store has the task: whatever
      a crash then leaves has it still. */
  lemma ToldIsFinal(mode: L.Mode, events: seq<Event>, more: seq<Event>, o: L.Outcome)
    requires o in RunAll(Opened(mode), events).ledger.told && L.Stored(o.result)
    ensures var l := RunAll(Opened(mode), events + more).ledger;
            o.id in l.tasks ==>
              && L.SameOutcome(l.tasks[o.id], o.status, o.result)
              && forall kept: nat | kept <= |l.pending| ::
                   var m := L.Survivors(l, kept);
                   o.id in m && L.SameOutcome(L.Recovered(m[o.id]), o.status, o.result)
  {
    RunReaches(mode, events, more);
    RunSafe(mode, events);
    RunSafe(mode, events + more);
    hide RunAll, Reaches, L.Agrees, Turns, Queue, Tasks, History, L.Recovered, L.Survivors;
    ReachesSound(RunAll(Opened(mode), events).ledger, RunAll(Opened(mode), events + more).ledger);
    var l := RunAll(Opened(mode), events + more).ledger;
    if o.id in l.tasks {
      forall kept: nat | kept <= |l.pending| ensures o.id in L.Survivors(l, kept)
        && L.SameOutcome(L.Recovered(L.Survivors(l, kept)[o.id]), o.status, o.result)
      {
        ToldIsDurable(mode, events + more, o, kept);
      }
    }
  }

  /** A crash in the middle of a turn fails its task, whatever of the log survives and
      however the session was saved, and leaves no turn of this process. */
  lemma UnsealedTurnFails(mode: L.Mode, events: seq<Event>, token: nat, savedTurn: Option<nat>, savedClosed: bool,
                          kept: nat, expired: set<nat>)
    requires var s := RunAll(Opened(mode), events);
             && s.turnId == Some(token) && s.turnSeal != Some(token) && token in s.tasksOf
             && s.tasksOf[token] in s.ledger.tasks && s.tasksOf[token] !in expired
             && s.ledger.tasks[s.tasksOf[token]].status in {L.Working, L.InputRequired}
             && kept <= |s.ledger.pending| && (savedTurn.Some? ==> savedTurn.value < s.next)
    ensures var s := RunAll(Opened(mode), events);
            var r, id := Next(s, Crashes(savedTurn, savedClosed, kept, expired)), s.tasksOf[token];
            && s.activeTask == Some(id) && r.activeTask == None && !Live(r)
            && r.status == (if savedClosed then Closed else Disconnected)
            && id in r.ledger.tasks && r.ledger.tasks[id].status == L.Failed
            && r.ledger.tasks[id].result == Some(L.Restarted)
  {
    RunSafe(mode, events);
    hide RunAll, Turns, QueueOf, Queue, History, L.Sound, Restart;
    var s := RunAll(Opened(mode), events);
    Effects.RestartFails(s, savedTurn, savedClosed, kept, expired, s.tasksOf[token]);
  }
}

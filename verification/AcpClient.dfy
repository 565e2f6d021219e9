/** The client as it updates its maps in place (src/acp-client.js:440-582,
    658-708, 801-814, 1569-1619, 1612-1625), kept sound and within its limits by what
    WorkerRequests proves. What the world decides is an argument: which answers the
    channel takes, and whether a session's handler takes an announcement. */
module AcpClient {
  import opened Wrappers
  import opened W = WorkerRequests

  class AcpClient {
    const limits: Limits
    const isNumber: string -> bool
    var alive: bool
    var sessionHandlers: set<Session>
    var inboundRequests: map<Id, Handler>
    var pendingPermissions: map<Id, Pending>
    var pendingElicitations: map<Id, Pending>
    var pendingOperations: map<Id, Pending>
    var clientRequests: map<Session, nat>
    var nextSerial: nat
    ghost var answered: seq<nat>
    ghost var shown: seq<(string, nat)>
    ghost var ran: seq<nat>

    constructor (limits: Limits, isNumber: string -> bool)
      ensures Valid() && State() == Fresh(limits, isNumber)
    {
      this.limits, this.isNumber, alive, sessionHandlers := limits, isNumber, true, {};
      inboundRequests, pendingPermissions, pendingElicitations, pendingOperations := map[], map[], map[], map[];
      clientRequests, nextSerial := map[], 0;
      answered, shown, ran := [], [], [];
      new;
      RunSafe(limits, isNumber, []);
      RunCaps(limits, isNumber, []);
    }

    ghost predicate Valid()
      reads this
    {
      Safe(State()) && Caps(State())
    }

    // An event keeps the client valid.
    twostate lemma Kept(e: Event)
      requires old(Valid()) && State() == Next(old(State()), e)
      ensures Valid()
    {
      hide Safe, Caps, Next;
      NextSafe(old(State()), e);
      NextCaps(old(State()), e);
    }

    ghost function State(): Client
      reads this
    {
      Client(limits, isNumber, alive, sessionHandlers, inboundRequests, pendingPermissions, pendingElicitations,
             pendingOperations, clientRequests, nextSerial, answered, shown, ran)
    }

    /** Whether a request is pending under id, or under the id that reads the same. */
    method IdInUse(id: Id) returns (used: bool)
      ensures used == RequestIdInUse(State(), id)
    {
      var candidates := match id
        case Num(text) => [id, Str(text)]
        case Str(text) => if isNumber(text) then [id, Num(text)] else [id];
      assert candidates == SameReading(State(), id);
      used := false;
      for i := 0 to |candidates|
        invariant used <==> exists j | 0 <= j < i :: InUse(State(), candidates[j])
      {
        var candidate := candidates[i];
        if candidate in inboundRequests || candidate in pendingPermissions || candidate in pendingElicitations
           || candidate in pendingOperations {
          used := true;
        }
      }
    }

    // How many entries of a map are a session's.
    static method CountOf(m: map<Id, Pending>, session: Session) returns (count: nat)
      ensures count == |Of(m, session)|
    {
      count := 0;
      var left := m.Keys;
      SeenNone(m, session);
      while left != {}
        invariant left <= m.Keys && count == |Seen(m, left, session)|
        decreases |left|
      {
        var id :| id in left;
        SeenMore(m, left, id, session);
        left := left - {id};
        if m[id].session == session { count := count + 1; }
      }
      SeenAll(m, session);
    }

    method PendingSessionInput(session: Session) returns (permissions: nat, elicitations: nat)
      ensures permissions + elicitations == PendingOf(State(), session)
      ensures permissions == |Of(pendingPermissions, session)| + |Of(pendingOperations, session)|
    {
      var asked := CountOf(pendingPermissions, session);
      var operations := CountOf(pendingOperations, session);
      permissions := asked + operations;
      elicitations := CountOf(pendingElicitations, session);
    }

    /** Room for one more request to wait for Main. */
    method RequirePendingInputCapacity(session: Session) returns (room: bool)
      ensures room == HasRoom(State(), session)
    {
      if session !in sessionHandlers { return false; }
      var permissions, elicitations := PendingSessionInput(session);
      if permissions + elicitations >= limits.perSession { return false; }
      var held := |pendingPermissions.Keys| + |pendingElicitations.Keys| + |pendingOperations.Keys|;
      room := held < limits.perProvider;
    }

    method RequirePendingOperationBytes(session: Session, bytes: nat) returns (room: bool)
      ensures room == HasByteRoom(State(), session, bytes)
    {
      var held := 0;
      var left := pendingOperations.Keys;
      SeenNone(pendingOperations, session);
      while left != {}
        invariant left <= pendingOperations.Keys
        invariant held == TotalBytes(pendingOperations, Seen(pendingOperations, left, session))
        decreases |left|
      {
        var id :| id in left;
        SeenMore(pendingOperations, left, id, session);
        left := left - {id};
        if pendingOperations[id].session == session { held := held + pendingOperations[id].bytes; }
      }
      SeenAll(pendingOperations, session);
      room := held + bytes <= limits.sessionBytes;
    }

    // One answer on the wire, if the channel takes it.
    method Respond(serial: nat, written: bool)
      modifies `answered
      ensures State() == Answer(old(State()), serial, written)
    {
      if written && alive { answered := answered + [serial]; }
    }

    method SetPhase(id: Id, phase: Phase)
      modifies `inboundRequests
      ensures State() == Phased(old(State()), id, phase)
    {
      if id in inboundRequests { inboundRequests := inboundRequests[id := inboundRequests[id].(phase := phase)]; }
    }

    /** Main's answer, or its approval or refusal of an operation. */
    method RespondPermission(id: Id, option: Option<string>, expected: Option<Session>, w: Choice)
      requires Valid()
      modifies `pendingOperations, `pendingPermissions, `inboundRequests, `answered, `ran
      ensures Valid() && State() == W.RespondPermission(old(State()), id, option, expected, w)
    {
      hide Safe, Caps;
      AnswerPermission(id, option, expected, w);
      Kept(Permits(id, option, expected, w));
    }

    method AnswerPermission(id: Id, option: Option<string>, expected: Option<Session>, w: Choice)
      modifies `pendingOperations, `pendingPermissions, `inboundRequests, `answered, `ran
      ensures State() == W.RespondPermission(old(State()), id, option, expected, w)
    {
      if id in pendingOperations {
        var operation := pendingOperations[id];
        if expected.Some? && operation.session != expected.value { return; }
        pendingOperations := pendingOperations - {id};
        if option.None? || option.value !in operation.allows {
          Respond(operation.serial, w.written);
          SetPhase(id, Done);
          return;
        }
        ran := ran + [operation.serial];
        SetPhase(id, Executing);
        return;
      }
      if id !in pendingPermissions { return; }
      var pending := pendingPermissions[id];
      if expected.Some? && pending.session != expected.value { return; }
      if option.Some? && option.value !in pending.options { return; }
      pendingPermissions := pendingPermissions - {id};
      Respond(pending.serial, w.written);
    }

    method RespondElicitation(id: Id, expected: Option<Session>, w: Choice)
      requires Valid()
      modifies `pendingElicitations, `answered
      ensures Valid() && State() == W.RespondElicitation(old(State()), id, expected, w)
    {
      hide Safe, Caps;
      AnswerElicitation(id, expected, w);
      Kept(Answers(id, expected, w));
    }

    method AnswerElicitation(id: Id, expected: Option<Session>, w: Choice)
      modifies `pendingElicitations, `answered
      ensures State() == W.RespondElicitation(old(State()), id, expected, w)
    {
      if id !in pendingElicitations { return; }
      var pending := pendingElicitations[id];
      if expected.Some? && pending.session != expected.value { return; }
      pendingElicitations := pendingElicitations - {id};
      Respond(pending.serial, w.written);
    }

    method RejectOperation(id: Id, w: Choice)
      requires id in pendingOperations
      modifies `pendingOperations, `inboundRequests, `answered
      ensures State() == W.RejectOperation(old(State()), id, w)
    {
      var operation := pendingOperations[id];
      pendingOperations := pendingOperations - {id};
      Respond(operation.serial, w.written);
      SetPhase(id, Done);
    }

    // Answers every permission request of a session as cancelled.
    method CancelPermissions(session: Session, wire: Id -> Choice) returns (ghost batch: Batch)
      modifies `pendingOperations, `pendingPermissions, `inboundRequests, `answered, `ran
      ensures Enumerates(batch, old(pendingPermissions), session) && Faring(batch, wire)
      ensures State() == W.CancelPermissions(old(State()), batch)
    {
      batch := [];
      var left := pendingPermissions.Keys;
      var all := pendingPermissions;
      while left != {}
        invariant left <= all.Keys && Faring(batch, wire)
        invariant forall entry | entry in batch :: entry.0 in all && all[entry.0].session == session
        invariant forall id | id in all && all[id].session == session && id !in left :: Names(batch, id)
        invariant State() == W.CancelPermissions(old(State()), batch)
        decreases |left|
      {
        var id :| id in left;
        left := left - {id};
        ghost var before := batch;
        if all[id].session == session {
          AnswerPermission(id, None, None, wire(id));
          batch := batch + [(id, wire(id))];
          assert batch[..|batch| - 1] == before;
          assert (id, wire(id)) in batch;
          forall x | Names(before, x) ensures Names(batch, x) { NamesMore(before, (id, wire(id)), x); }
        }
      }
    }

    method CancelElicitations(session: Session, wire: Id -> Choice) returns (ghost batch: Batch)
      modifies `pendingElicitations, `answered
      ensures Enumerates(batch, old(pendingElicitations), session) && Faring(batch, wire)
      ensures State() == W.CancelElicitations(old(State()), batch, session)
    {
      batch := [];
      var left := pendingElicitations.Keys;
      var all := pendingElicitations;
      while left != {}
        invariant left <= all.Keys && Faring(batch, wire)
        invariant forall entry | entry in batch :: entry.0 in all && all[entry.0].session == session
        invariant forall id | id in all && all[id].session == session && id !in left :: Names(batch, id)
        invariant State() == W.CancelElicitations(old(State()), batch, session)
        decreases |left|
      {
        var id :| id in left;
        left := left - {id};
        ghost var before := batch;
        if all[id].session == session {
          AnswerElicitation(id, Some(session), wire(id));
          batch := batch + [(id, wire(id))];
          assert batch[..|batch| - 1] == before;
          assert (id, wire(id)) in batch;
          forall x | Names(before, x) ensures Names(batch, x) { NamesMore(before, (id, wire(id)), x); }
        }
      }
    }

    method RejectSessionOperations(session: Session, wire: Id -> Choice) returns (ghost batch: Batch)
      modifies `pendingOperations, `inboundRequests, `answered
      ensures Enumerates(batch, old(pendingOperations), session) && Faring(batch, wire)
      ensures State() == W.RejectOperations(old(State()), batch)
    {
      batch := [];
      var all := pendingOperations;
      var left := all.Keys;
      while left != {}
        invariant left <= all.Keys && Faring(batch, wire)
        invariant forall id | id in left :: id in pendingOperations && pendingOperations[id] == all[id]
        invariant forall entry | entry in batch :: entry.0 in all && all[entry.0].session == session
        invariant forall id | id in all && all[id].session == session && id !in left :: Names(batch, id)
        invariant State() == W.RejectOperations(old(State()), batch)
        decreases |left|
      {
        var id :| id in left;
        left := left - {id};
        ghost var before := batch;
        if all[id].session == session {
          RejectOperation(id, wire(id));
          batch := batch + [(id, wire(id))];
          assert batch[..|batch| - 1] == before;
          assert (id, wire(id)) in batch;
          forall x | Names(before, x) ensures Names(batch, x) { NamesMore(before, (id, wire(id)), x); }
        }
      }
    }

    /** Everything of the session that waits for Main is answered now, in some order. */
    method CancelSession(session: Session, wire: Id -> Choice) returns (ghost order: Order)
      requires Valid()
      modifies `pendingPermissions, `pendingElicitations, `pendingOperations, `inboundRequests, `answered, `ran
      ensures Valid() && Covers(order, old(State()), session) && FaringAll(order, wire)
      ensures State() == W.CancelSession(old(State()), session, order) && NoneOf(State(), session)
    {
      hide Safe, Caps, W.CancelPermissions, W.CancelElicitations, W.RejectOperations, NoneOf, Enumerates, Faring;
      ghost var permissions := CancelPermissions(session, wire);
      ghost var asked := State();
      ghost var elicitations := CancelElicitations(session, wire);
      CancelSpares(old(State()), permissions, elicitations, session);
      ghost var operations := RejectSessionOperations(session, wire);
      order := Order(permissions, elicitations, operations);
      NothingLeft(old(State()), session, order);
      Kept(Cancels(session, order));
    }

    method ClearSession(session: Session, wire: Id -> Choice) returns (ghost order: Order)
      requires Valid()
      modifies `pendingPermissions, `pendingElicitations, `pendingOperations, `inboundRequests, `answered, `ran,
               `sessionHandlers, `clientRequests
      ensures Valid() && Covers(order, old(State()), session) && FaringAll(order, wire)
      ensures State() == W.ClearSession(old(State()), session, order) && NoneOf(State(), session)
    {
      hide Safe, Caps, W.CancelPermissions, W.CancelElicitations, W.RejectOperations, NoneOf, Enumerates, Faring;
      ghost var permissions := CancelPermissions(session, wire);
      ghost var elicitations := CancelElicitations(session, wire);
      CancelSpares(old(State()), permissions, elicitations, session);
      sessionHandlers := sessionHandlers - {session};
      clientRequests := clientRequests - {session};
      ghost var operations := RejectSessionOperations(session, wire);
      order := Order(permissions, elicitations, operations);
      NothingLeft(old(State()), session, order);
      Kept(Clears(session, order));
    }

    method AdmitClientRequest(session: Session) returns (admitted: bool)
      modifies `clientRequests
      ensures admitted == (Admitted(old(State()), session) < limits.clientRequests)
      ensures clientRequests ==
                if admitted then old(clientRequests)[session := Admitted(old(State()), session) + 1]
                else old(clientRequests)
    {
      var current := if session in clientRequests then clientRequests[session] else 0;
      if current >= limits.clientRequests { return false; }
      clientRequests := clientRequests[session := current + 1];
      return true;
    }

    // Tells Main about a request just registered; a handler that throws takes
    // the registration back.
    method AnnouncePending(id: Id, serial: nat, taken: bool)
      modifies `shown
      ensures shown == if taken then old(shown) + [(id.text, serial)] else old(shown)
    {
      if taken { shown := shown + [(id.text, serial)]; }
    }

    // Registered and announced, or not registered.
    method RegisterPermission(id: Id, p: Pending, taken: bool)
      requires id !in pendingPermissions
      modifies `pendingPermissions, `shown
      ensures pendingPermissions == if taken then old(pendingPermissions)[id := p] else old(pendingPermissions)
      ensures shown == if taken then old(shown) + [(id.text, p.serial)] else old(shown)
    {
      pendingPermissions := pendingPermissions[id := p];
      AnnouncePending(id, p.serial, taken);
      if !taken { pendingPermissions := pendingPermissions - {id}; }
    }

    method RegisterElicitation(id: Id, p: Pending, taken: bool)
      requires id !in pendingElicitations
      modifies `pendingElicitations, `shown
      ensures pendingElicitations == if taken then old(pendingElicitations)[id := p] else old(pendingElicitations)
      ensures shown == if taken then old(shown) + [(id.text, p.serial)] else old(shown)
    {
      pendingElicitations := pendingElicitations[id := p];
      AnnouncePending(id, p.serial, taken);
      if !taken { pendingElicitations := pendingElicitations - {id}; }
    }

    method RegisterOperation(id: Id, p: Pending, taken: bool)
      requires id !in pendingOperations
      modifies `pendingOperations, `shown
      ensures pendingOperations == if taken then old(pendingOperations)[id := p] else old(pendingOperations)
      ensures shown == if taken then old(shown) + [(id.text, p.serial)] else old(shown)
    {
      pendingOperations := pendingOperations[id := p];
      AnnouncePending(id, p.serial, taken);
      if !taken { pendingOperations := pendingOperations - {id}; }
    }

    /** A permission request or a question: decided at once (w.settled), refused, or
        left with Main. */
    method AskMain(id: Id, kind: Kind, p: Pending, w: Choice)
      requires kind.Permission? || kind.Elicitation?
      requires id !in pendingPermissions && id !in pendingElicitations
      modifies `pendingPermissions, `pendingElicitations, `answered, `shown
      ensures State() == Ask(old(State()), id, kind, p, w)
    {
      hide HasRoom, PendingOf;
      var room := RequirePendingInputCapacity(p.session);
      if w.settled || !room || p.bytes > limits.itemBytes {
        Respond(p.serial, w.written);
        return;
      }
      if kind.Permission? {
        RegisterPermission(id, p, w.announced);
      } else {
        RegisterElicitation(id, p, w.announced);
      }
      if !w.announced { Respond(p.serial, w.written); }
    }

    /** A request of the worker's, as it arrives. */
    method Dispatch(id: Id, kind: Kind, p: Pending, w: Choice)
      requires Valid() && Proper(State(), id)
      modifies `inboundRequests, `pendingPermissions, `pendingElicitations, `answered, `shown, `clientRequests,
               `nextSerial
      ensures Valid() && State() == Arrive(old(State()), id, kind, p, w)
    {
      hide Safe, Caps, Arrive;
      Handle(id, kind, p, w);
      Kept(Arrives(id, kind, p, w));
    }

    method Handle(id: Id, kind: Kind, p: Pending, w: Choice)
      modifies `inboundRequests, `pendingPermissions, `pendingElicitations, `answered, `shown, `clientRequests,
               `nextSerial
      ensures State() == Arrive(old(State()), id, kind, p, w)
    {
      hide HasRoom, RequestIdInUse, Ask;
      var used := IdInUse(id);
      if !used { NotInUse(State(), id); }
      var q := p.(serial := nextSerial);
      nextSerial := nextSerial + 1;
      if used {
        Respond(q.serial, w.written);
        return;
      }
      if kind.Permission? || kind.Elicitation? {
        inboundRequests := inboundRequests[id := Handler(q.serial, q.session, kind, Done)];
        AskMain(id, kind, q, w);
        return;
      }
      var admitted := false;
      if Bounded(kind) { admitted := AdmitClientRequest(q.session); }
      if !admitted {
        inboundRequests := inboundRequests[id := Handler(q.serial, q.session, Unsupported, Done)];
        Respond(q.serial, w.written);
        return;
      }
      inboundRequests := inboundRequests[id := Handler(q.serial, q.session, kind, Working)];
    }

    /** A protected operation once its checks and waits are over: it has run or failed
        (w.settled), or it waits for Main (#runProtectedOperation). */
    method RunProtectedOperation(id: Id, p: Pending, w: Choice)
      requires Valid()
      requires id in inboundRequests && inboundRequests[id].phase.Working? && inboundRequests[id].kind.Operation?
      modifies `pendingOperations, `inboundRequests, `answered, `shown
      ensures Valid() && State() == Progress(old(State()), id, p, w)
    {
      hide HasRoom, HasByteRoom, Caps;
      WorkingIsNotPending(State(), id);
      hide Safe;
      var handler := inboundRequests[id];
      var room := RequirePendingInputCapacity(handler.session);
      var bytes := RequirePendingOperationBytes(handler.session, p.bytes);
      var waits := !w.settled && room && bytes;
      if waits {
        RegisterOperation(id, p.(serial := handler.serial, session := handler.session), w.announced);
      }
      if waits && w.announced {
        SetPhase(id, Waiting);
      } else {
        Respond(handler.serial, w.written);
        SetPhase(id, Done);
      }
      Kept(Progresses(id, p, w));
    }
  }

  // Each answer of a batch fares as the world has it.
  predicate Faring(batch: Batch, wire: Id -> Choice) {
    forall entry | entry in batch :: entry.1 == wire(entry.0)
  }

  predicate FaringAll(o: Order, wire: Id -> Choice) {
    Faring(o.permissions, wire) && Faring(o.elicitations, wire) && Faring(o.operations, wire)
  }

  // A request whose handler is at work waits for nobody.
  lemma WorkingIsNotPending(c: Client, id: Id)
    requires Safe(c) && id in c.inbound && c.inbound[id].phase.Working?
    ensures id !in c.operations
  {
    assert Fits(c, id);
  }

  // Cancelling a session's permission requests touches neither questions nor operations.
  lemma {:induction false} PermissionsSpare(c: Client, batch: Batch)
    requires forall entry | entry in batch :: entry.0 !in c.operations
    ensures var after := W.CancelPermissions(c, batch);
            after.operations == c.operations && after.elicitations == c.elicitations
    decreases |batch|
  {
    if batch != [] {
      assert batch[|batch| - 1] in batch;
      PermissionsSpare(c, batch[..|batch| - 1]);
    }
  }

  lemma {:induction false} ElicitationsSpare(c: Client, batch: Batch, session: Session)
    ensures W.CancelElicitations(c, batch, session).operations == c.operations
    decreases |batch|
  {
    if batch != [] { ElicitationsSpare(c, batch[..|batch| - 1], session); }
  }

  lemma CancelSpares(c: Client, permissions: Batch, elicitations: Batch, session: Session)
    requires Safe(c) && Enumerates(permissions, c.permissions, session)
    ensures var a := W.CancelPermissions(c, permissions);
            && a.elicitations == c.elicitations
            && W.CancelElicitations(a, elicitations, session).operations == c.operations
  {
    hide W.CancelPermissions, W.CancelElicitations;
    forall entry | entry in permissions ensures entry.0 !in c.operations {
      assert Fits(c, entry.0);
    }
    PermissionsSpare(c, permissions);
    ElicitationsSpare(W.CancelPermissions(c, permissions), elicitations, session);
  }

  lemma NotInUse(c: Client, id: Id)
    requires !RequestIdInUse(c, id)
    ensures !InUse(c, id)
  {
    assert id in SameReading(c, id);
  }

  // The entries of a session that a loop has passed, with left still to come.
  function Seen(m: map<Id, Pending>, left: set<Id>, session: Session): (seen: set<Id>)
    ensures seen <= m.Keys
  {
    Of(m, session) - left
  }

  lemma SeenNone(m: map<Id, Pending>, session: Session)
    ensures Seen(m, m.Keys, session) == {}
  {
  }

  lemma SeenAll(m: map<Id, Pending>, session: Session)
    ensures Seen(m, {}, session) == Of(m, session)
  {
  }

  lemma SeenMore(m: map<Id, Pending>, left: set<Id>, id: Id, session: Session)
    requires id in left && left <= m.Keys
    ensures var before, after := Seen(m, left, session), Seen(m, left - {id}, session);
            && |after| == |before| + (if m[id].session == session then 1 else 0)
            && TotalBytes(m, after) == TotalBytes(m, before) + (if m[id].session == session then m[id].bytes else 0)
  {
    var before, after := Seen(m, left, session), Seen(m, left - {id}, session);
    if m[id].session == session {
      assert after == before + {id} && after - {id} == before;
      BytesWithout(m, after, id);
    } else {
      assert after == before;
    }
  }

  lemma NamesMore(batch: Batch, entry: (Id, Choice), id: Id)
    requires Names(batch, id)
    ensures Names(batch + [entry], id)
  {
    var e :| e in batch && e.0 == id;
    assert e in batch + [entry];
  }
}

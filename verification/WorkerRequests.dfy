/** The requests a worker has pending with its client, and Main's answers to them
    (src/acp-client.js:453-582, 658-800, 1300-1364, 1560-1640, 1843-1854). */
module WorkerRequests {
  import opened Wrappers

  type Session = string

  /** A JSON-RPC id: a string, or a finite number given by the text that
      JavaScript prints it as, which tells numbers apart. */
  datatype Id = Str(text: string) | Num(text: string)

  /** Something waiting for Main. Each request has a serial number of its own, so
      that two that use one id after another are told apart. */
  datatype Pending = Pending(serial: nat, session: Session, options: set<string>, allows: set<string>, bytes: nat)

  /** How far the handler of a request is: at work, waiting for Main, running what
      Main approved, or done with only its bookkeeping left. */
  datatype Phase = Working | Waiting | Executing | Done

  datatype Handler = Handler(serial: nat, session: Session, kind: Kind, phase: Phase)

  /** What a request asks for: Main's word, an operation that Main may have to
      allow, something the client does on its own, or nothing it knows. */
  datatype Kind = Permission | Elicitation | Operation | Other | Unsupported

  predicate Bounded(kind: Kind) { kind.Operation? || kind.Other? }

  datatype Limits = Limits(perSession: nat, perProvider: nat, itemBytes: nat, sessionBytes: nat, clientRequests: nat)

  /** The client's maps. next, answered, shown and ran are history: the serials
      answered, what Main was shown under which id's text, and what was run. */
  datatype Client = Client(
    limits: Limits, isNumber: string -> bool, alive: bool, sessions: set<Session>, inbound: map<Id, Handler>,
    permissions: map<Id, Pending>, elicitations: map<Id, Pending>, operations: map<Id, Pending>,
    active: map<Session, nat>, next: nat, answered: seq<nat>, shown: seq<(string, nat)>, ran: seq<nat>)

  // ----- Ids that read the same -----

  predicate Proper(c: Client, id: Id) { id.Num? ==> c.isNumber(id.text) }

  /** An id and the one that reads the same in the other JSON type, if there is one. */
  function SameReading(c: Client, id: Id): seq<Id> {
    match id
    case Num(text) => [id, Str(text)]
    case Str(text) => if c.isNumber(text) then [id, Num(text)] else [id]
  }

  lemma SameReadingIsSameText(c: Client, a: Id, b: Id)
    requires Proper(c, a) && Proper(c, b)
    ensures b in SameReading(c, a) <==> b.text == a.text
  {
  }

  predicate InUse(c: Client, id: Id) {
    id in c.inbound || id in c.permissions || id in c.elicitations || id in c.operations
  }

  predicate RequestIdInUse(c: Client, id: Id) {
    exists candidate | candidate in SameReading(c, id) :: InUse(c, candidate)
  }

  // ----- Room for one more -----

  function Of(m: map<Id, Pending>, session: Session): set<Id> { set id | id in m && m[id].session == session }

  function PendingOf(c: Client, session: Session): nat {
    |Of(c.permissions, session)| + |Of(c.operations, session)| + |Of(c.elicitations, session)|
  }

  function AllPending(c: Client): nat { |c.permissions.Keys| + |c.elicitations.Keys| + |c.operations.Keys| }

  ghost function TotalBytes(m: map<Id, Pending>, ids: set<Id>): nat
    requires ids <= m.Keys
  {
    if ids == {} then 0
    else
      var id :| id in ids;
      m[id].bytes + TotalBytes(m, ids - {id})
  }

  ghost function HeldBytes(m: map<Id, Pending>, session: Session): nat { TotalBytes(m, Of(m, session)) }

  predicate HasRoom(c: Client, session: Session) {
    session in c.sessions && PendingOf(c, session) < c.limits.perSession && AllPending(c) < c.limits.perProvider
  }

  ghost predicate HasByteRoom(c: Client, session: Session, bytes: nat) {
    HeldBytes(c.operations, session) + bytes <= c.limits.sessionBytes
  }

  // ----- Answers -----

  // An answer that the channel takes; one that it refuses leaves no trace.
  function Answer(c: Client, serial: nat, written: bool): (r: Client)
    ensures r == c.(answered := r.answered)
  {
    if written && c.alive then c.(answered := c.answered + [serial]) else c
  }

  function Phased(c: Client, id: Id, phase: Phase): (r: Client)
    ensures r == c.(inbound := r.inbound)
  {
    if id in c.inbound then c.(inbound := c.inbound[id := c.inbound[id].(phase := phase)]) else c
  }

  /** What the world decides in one step: whether an answer is written, whether
      the session's handler takes the announcement, and, for a request that the
      client can settle alone, whether it does. */
  datatype Choice = Choice(written: bool, announced: bool, settled: bool)

  /** A permission request or question: registered and announced in one turn, or
      answered with why not. */
  function Ask(c: Client, id: Id, kind: Kind, p: Pending, w: Choice): Client {
    if w.settled || !HasRoom(c, p.session) || p.bytes > c.limits.itemBytes || !w.announced
    then Answer(c, p.serial, w.written)
    else if kind.Permission? then
      c.(permissions := c.permissions[id := p], shown := c.shown + [(id.text, p.serial)])
    else
      c.(elicitations := c.elicitations[id := p], shown := c.shown + [(id.text, p.serial)])
  }

  function Admitted(c: Client, session: Session): nat { if session in c.active then c.active[session] else 0 }

  // A request taken up under its id.
  function Enter(c: Client, id: Id, kind: Kind, session: Session, phase: Phase): Client {
    c.(inbound := c.inbound[id := Handler(c.next, session, kind, phase)], next := c.next + 1)
  }

  /** A request that arrives (#dispatch): refused under an id in use, else handled
      up to its first wait. */
  function Arrive(c: Client, id: Id, kind: Kind, p: Pending, w: Choice): Client {
    var q := p.(serial := c.next);
    if RequestIdInUse(c, id) then Answer(c.(next := c.next + 1), q.serial, w.written)
    else if kind.Permission? || kind.Elicitation? then Ask(Enter(c, id, kind, q.session, Done), id, kind, q, w)
    else if kind.Unsupported? || Admitted(c, q.session) >= c.limits.clientRequests then
      Answer(Enter(c, id, Unsupported, q.session, Done), q.serial, w.written)
    else
      Enter(c, id, kind, q.session, Working).(active := c.active[q.session := Admitted(c, q.session) + 1])
  }

  /** A handler at work answers, or leaves its operation waiting for Main. */
  ghost function Progress(c: Client, id: Id, p: Pending, w: Choice): Client {
    if id !in c.inbound || !c.inbound[id].phase.Working? then c
    else
      var h := c.inbound[id];
      var q := p.(serial := h.serial, session := h.session);
      if w.settled || !h.kind.Operation? || !HasRoom(c, h.session) || !HasByteRoom(c, h.session, p.bytes)
        || !w.announced
      then Phased(Answer(c, h.serial, w.written), id, Done)
      else Phased(c.(operations := c.operations[id := q], shown := c.shown + [(id.text, h.serial)]), id, Waiting)
  }

  // What Main approved has run.
  function Complete(c: Client, id: Id, w: Choice): Client {
    if id in c.inbound && c.inbound[id].phase.Executing?
    then Phased(Answer(c, c.inbound[id].serial, w.written), id, Done) else c
  }

  // The last of a handler: its id is free, and so is its place.
  function Settle(c: Client, id: Id): Client {
    if id !in c.inbound || !c.inbound[id].phase.Done? then c
    else
      var h := c.inbound[id];
      var a := c.(inbound := c.inbound - {id});
      if !Bounded(h.kind) then a
      else if Admitted(c, h.session) > 1 then a.(active := a.active[h.session := Admitted(c, h.session) - 1])
      else a.(active := a.active - {h.session})
  }

  // ----- Main answers -----

  predicate Expects(p: Pending, session: Option<Session>) { session.Some? ==> p.session == session.value }

  // The operation leaves the map before it runs.
  function Approve(c: Client, id: Id): Client
    requires id in c.operations
  {
    Phased(c.(operations := c.operations - {id}, ran := c.ran + [c.operations[id].serial]), id, Executing)
  }

  function RejectOperation(c: Client, id: Id, w: Choice): Client {
    if id !in c.operations then c
    else Phased(Answer(c.(operations := c.operations - {id}), c.operations[id].serial, w.written), id, Done)
  }

  /** Main's answer to a permission request, or its approval or refusal of an operation. */
  function RespondPermission(c: Client, id: Id, option: Option<string>, session: Option<Session>, w: Choice): Client {
    if id in c.operations then
      if !Expects(c.operations[id], session) then c
      else if option.Some? && option.value in c.operations[id].allows then Approve(c, id)
      else RejectOperation(c, id, w)
    else if id in c.permissions then
      var p := c.permissions[id];
      if !Expects(p, session) || (option.Some? && option.value !in p.options) then c
      else Answer(c.(permissions := c.permissions - {id}), p.serial, w.written)
    else c
  }

  function RespondElicitation(c: Client, id: Id, session: Option<Session>, w: Choice): Client {
    if id !in c.elicitations || !Expects(c.elicitations[id], session) then c
    else Answer(c.(elicitations := c.elicitations - {id}), c.elicitations[id].serial, w.written)
  }

  // Answers to several ids in turn, each written or not on its own.
  type Batch = seq<(Id, Choice)>

  function CancelPermissions(c: Client, batch: Batch): Client
    decreases |batch|
  {
    if batch == [] then c
    else
      var (id, w) := batch[|batch| - 1];
      RespondPermission(CancelPermissions(c, batch[..|batch| - 1]), id, None, None, w)
  }

  function CancelElicitations(c: Client, batch: Batch, session: Session): Client
    decreases |batch|
  {
    if batch == [] then c
    else
      var (id, w) := batch[|batch| - 1];
      RespondElicitation(CancelElicitations(c, batch[..|batch| - 1], session), id, Some(session), w)
  }

  function RejectOperations(c: Client, batch: Batch): Client
    decreases |batch|
  {
    if batch == [] then c
    else
      var (id, w) := batch[|batch| - 1];
      RejectOperation(RejectOperations(c, batch[..|batch| - 1]), id, w)
  }

  predicate Names(batch: Batch, id: Id) { exists entry | entry in batch :: entry.0 == id }

  // A batch for every entry of a session.
  predicate Enumerates(batch: Batch, m: map<Id, Pending>, session: Session) {
    && (forall entry | entry in batch :: entry.0 in m && m[entry.0].session == session)
    && (forall id | id in m && m[id].session == session :: Names(batch, id))
  }

  datatype Order = Order(permissions: Batch, elicitations: Batch, operations: Batch)

  predicate Covers(o: Order, c: Client, session: Session) {
    && Enumerates(o.permissions, c.permissions, session)
    && Enumerates(o.elicitations, c.elicitations, session)
    && Enumerates(o.operations, c.operations, session)
  }

  function CancelSession(c: Client, session: Session, o: Order): Client {
    RejectOperations(CancelElicitations(CancelPermissions(c, o.permissions), o.elicitations, session), o.operations)
  }

  function ClearSession(c: Client, session: Session, o: Order): Client {
    var a := CancelElicitations(CancelPermissions(c, o.permissions), o.elicitations, session);
    RejectOperations(a.(sessions := a.sessions - {session}, active := a.active - {session}), o.operations)
  }

  // The worker is gone, and with it everything it waited for: no answer leaves any more.
  function Fail(c: Client): Client {
    c.(alive := false, permissions := map[], elicitations := map[], operations := map[], active := map[],
       inbound := map id | id in c.inbound :: if id in c.operations then c.inbound[id].(phase := Done)
         else c.inbound[id])
  }

  datatype Event =
    | Opens(session: Session)
    | Arrives(id: Id, kind: Kind, request: Pending, w: Choice)
    | Progresses(id: Id, request: Pending, w: Choice)
    | Completes(id: Id, w: Choice)
    | Settles(id: Id)
    | Permits(id: Id, option: Option<string>, expected: Option<Session>, w: Choice)
    | Answers(id: Id, expected: Option<Session>, w: Choice)
    | Cancels(session: Session, order: Order)
    | Clears(session: Session, order: Order)
    | Fails

  predicate Possible(c: Client, e: Event) {
    match e
    case Arrives(id, _, _, _) => Proper(c, id)
    case Cancels(session, order) => Covers(order, c, session)
    case Clears(session, order) => Covers(order, c, session)
    case _ => true
  }

  ghost function Next(c: Client, e: Event): Client {
    if !Possible(c, e) then c
    else match e
      case Opens(session) => c.(sessions := c.sessions + {session})
      case Arrives(id, kind, request, w) => Arrive(c, id, kind, request, w)
      case Progresses(id, request, w) => Progress(c, id, request, w)
      case Completes(id, w) => Complete(c, id, w)
      case Settles(id) => Settle(c, id)
      case Permits(id, option, expected, w) => RespondPermission(c, id, option, expected, w)
      case Answers(id, expected, w) => RespondElicitation(c, id, expected, w)
      case Cancels(session, order) => CancelSession(c, session, order)
      case Clears(session, order) => ClearSession(c, session, order)
      case Fails => Fail(c)
  }

  ghost function Run(c: Client, events: seq<Event>): Client
    decreases |events|
  {
    if events == [] then c else Next(Run(c, events[..|events| - 1]), events[|events| - 1])
  }

  function Fresh(limits: Limits, isNumber: string -> bool): Client {
    Client(limits, isNumber, true, {}, map[], map[], map[], map[], map[], 0, [], [], [])
  }

  // ----- One id -----

  datatype Slot = Slot(handler: Option<Handler>, permission: Option<Pending>, elicitation: Option<Pending>,
    operation: Option<Pending>)

  function Get<V>(m: map<Id, V>, id: Id): Option<V> { if id in m then Some(m[id]) else None }

  function At(c: Client, id: Id): Slot {
    Slot(Get(c.inbound, id), Get(c.permissions, id), Get(c.elicitations, id), Get(c.operations, id))
  }

  predicate Used(s: Slot) { s.handler.Some? || s.permission.Some? || s.elicitation.Some? || s.operation.Some? }

  // The request under an id that is still to be answered, if there is one.
  function Owed(s: Slot): Option<nat> {
    if s.permission.Some? then Some(s.permission.value.serial)
    else if s.elicitation.Some? then Some(s.elicitation.value.serial)
    else if s.handler.Some? && !s.handler.value.phase.Done? then Some(s.handler.value.serial)
    else None
  }

  // Whether Main is asked about it, and has not said.
  predicate Asked(s: Slot) { s.permission.Some? || s.elicitation.Some? || s.operation.Some? }

  predicate Unrun(s: Slot) { Owed(s).Some? && !(s.handler.Some? && s.handler.value.phase.Executing?) }

  // An id is pending in one place, and its handler knows where.
  predicate OnePlace(s: Slot) {
    && !(s.permission.Some? && s.elicitation.Some?) && !(s.permission.Some? && s.operation.Some?)
    && !(s.elicitation.Some? && s.operation.Some?)
    && (s.operation.Some? <==> s.handler.Some? && s.handler.value.phase.Waiting?)
    && (s.operation.Some? ==> s.handler.value.serial == s.operation.value.serial)
    && ((s.permission.Some? || s.elicitation.Some?) && s.handler.Some? ==> s.handler.value.phase.Done?)
  }

  // What Main was last shown under an id's text.
  function LastShown(shown: seq<(string, nat)>, text: string): Option<nat>
    decreases |shown|
  {
    if shown == [] then None
    else if shown[|shown| - 1].0 == text then Some(shown[|shown| - 1].1)
    else LastShown(shown[..|shown| - 1], text)
  }

  /** What holds of each id on its own. */
  ghost predicate Fits(c: Client, id: Id) {
    var s := At(c, id);
    && OnePlace(s)
    && (Used(s) ==> Proper(c, id))
    && (Owed(s).Some? ==> Owed(s).value < c.next && Owed(s).value !in c.answered)
    && (Unrun(s) ==> Owed(s).value !in c.ran)
    && (Asked(s) ==> LastShown(c.shown, id.text) == Owed(s))
  }

  /** Ids in use that read the same are one id, and each request is owed once. */
  ghost predicate Apart(c: Client, a: Id, b: Id) {
    a != b && Used(At(c, a)) && Used(At(c, b)) ==>
      a.text != b.text && (Owed(At(c, a)).Some? ==> Owed(At(c, a)) != Owed(At(c, b)))
  }

  ghost predicate Distinct(ks: seq<nat>, next: nat) {
    (forall k | k in ks :: k < next) && (forall i, j | 0 <= i < j < |ks| :: ks[i] != ks[j])
  }

  ghost predicate Safe(c: Client) {
    && (forall id :: Fits(c, id))
    && (forall a, b :: Apart(c, a, b))
    && Distinct(c.answered, c.next) && Distinct(c.ran, c.next)
  }

  // A step about one id: what it answers, runs or shows is that id's own.
  ghost predicate About(c: Client, c': Client, id: Id) {
    && c'.isNumber == c.isNumber && c.next <= c'.next
    && (forall x | x != id :: At(c', x) == At(c, x))
    && (c'.answered == c.answered || exists k :: c'.answered == c.answered + [k] && Own(c, c', id, k))
    && (c'.ran == c.ran || exists k :: c'.ran == c.ran + [k] && Own(c, c', id, k) && Unrun(At(c, id)))
    && (c'.shown == c.shown || exists k :: c'.shown == c.shown + [(id.text, k)])
  }

  // The request of this id, or the one that has just arrived.
  ghost predicate Own(c: Client, c': Client, id: Id, k: nat) {
    Owed(At(c, id)) == Some(k) || (k == c.next && k < c'.next)
  }

  lemma AboutApart(c: Client, c': Client, id: Id, x: Id)
    requires Safe(c) && About(c, c', id) && x != id
    requires Used(At(c', id)) ==> Used(At(c, id)) || forall y | Used(At(c, y)) :: y.text != id.text
    requires c'.shown != c.shown ==> Used(At(c', id))
    ensures Fits(c', x)
  {
    assert Fits(c, x) && Apart(c, x, id) && Apart(c, id, x) && At(c', x) == At(c, x);
    assert Proper(c', x) == Proper(c, x);
    if c'.shown != c.shown {
      var k :| c'.shown == c.shown + [(id.text, k)];
      assert c'.shown[..|c'.shown| - 1] == c.shown;
    }
    hide At, Used, OnePlace;
  }

  // An id that comes into use reads like none that is.
  ghost predicate Enters(c: Client, c': Client, id: Id) {
    && (Used(At(c', id)) ==> Used(At(c, id)) || forall y | Used(At(c, y)) :: y.text != id.text)
    && (c'.shown != c.shown ==> Used(At(c', id)))
    && (Owed(At(c', id)).Some? ==> Owed(At(c', id)) == Owed(At(c, id)) || Owed(At(c', id)) == Some(c.next))
  }

  lemma Local(c: Client, c': Client, id: Id)
    requires Safe(c) && About(c, c', id) && Enters(c, c', id) && Fits(c', id)
    ensures Safe(c')
  {
    forall x ensures Fits(c', x) {
      if x != id { AboutApart(c, c', id, x); }
    }
    forall a, b ensures Apart(c', a, b) {
      LocalApart(c, c', id, a, b);
    }
    LocalDistinct(c, c', id);
    hide Fits, Apart, About, Enters, Distinct;
  }

  lemma LocalApart(c: Client, c': Client, id: Id, a: Id, b: Id)
    requires Safe(c) && About(c, c', id) && Enters(c, c', id)
    ensures Apart(c', a, b)
  {
    hide At, OnePlace;
    assert Apart(c, a, b) && Apart(c, b, a) && Fits(c, a) && Fits(c, b);
  }

  lemma GrowDistinct(ks: seq<nat>, k: nat, next: nat, more: nat)
    requires Distinct(ks, next) && next <= more
    ensures Distinct(ks, more) && (k < more && k !in ks ==> Distinct(ks + [k], more))
  {
  }

  lemma LocalDistinct(c: Client, c': Client, id: Id)
    requires Safe(c) && About(c, c', id)
    ensures Distinct(c'.answered, c'.next) && Distinct(c'.ran, c'.next)
  {
    assert Fits(c, id);
    assert c.next !in c.answered && c.next !in c.ran;
    GrowDistinct(c.answered, 0, c.next, c'.next);
    GrowDistinct(c.ran, 0, c.next, c'.next);
    hide At, Used, OnePlace, Owed, Apart;
    if c'.answered != c.answered {
      var k :| c'.answered == c.answered + [k] && Own(c, c', id, k);
      GrowDistinct(c.answered, k, c.next, c'.next);
    }
    if c'.ran != c.ran {
      var k :| c'.ran == c.ran + [k] && Own(c, c', id, k) && Unrun(At(c, id));
      GrowDistinct(c.ran, k, c.next, c'.next);
    }
    hide Distinct;
  }

  // ----- Each step -----

  lemma FreeId(c: Client, id: Id)
    requires Safe(c) && Proper(c, id) && !RequestIdInUse(c, id)
    ensures !Used(At(c, id)) && forall y | Used(At(c, y)) :: y.text != id.text
  {
    assert id in SameReading(c, id);
    forall y | Used(At(c, y)) ensures y.text != id.text {
      assert Fits(c, y) && InUse(c, y);
      if y.text == id.text { SameReadingIsSameText(c, id, y); }
    }
  }

  lemma AskedLast(shown: seq<(string, nat)>, text: string, k: nat)
    ensures LastShown(shown + [(text, k)], text) == Some(k)
  {
  }

  lemma FitsOne(c: Client, id: Id)
    requires Safe(c)
    ensures Fits(c, id) && c.next !in c.answered && c.next !in c.ran
  {
  }

  lemma AskSafe(c: Client, id: Id, kind: Kind, p: Pending, w: Choice)
    requires Safe(c) && Proper(c, id) && !RequestIdInUse(c, id) && p.serial == c.next
    ensures Safe(Ask(Enter(c, id, kind, p.session, Done), id, kind, p, w))
  {
    FitsOne(c, id);
    FreeId(c, id);
    AskedLast(c.shown, id.text, c.next);
    var a := Enter(c, id, kind, p.session, Done);
    var r := Ask(a, id, kind, p, w);
    hide Safe, RequestIdInUse, HasRoom, LastShown;
    Local(c, r, id);
  }

  lemma EnterSafe(c: Client, id: Id, kind: Kind, session: Session, phase: Phase, active: map<Session, nat>, w: Choice)
    requires Safe(c) && Proper(c, id) && !RequestIdInUse(c, id) && (phase.Done? || phase.Working?)
    ensures phase.Done? ==> Safe(Answer(Enter(c, id, kind, session, phase), c.next, w.written))
    ensures Safe(Enter(c, id, kind, session, phase).(active := active))
  {
    FitsOne(c, id);
    FreeId(c, id);
    hide Safe, RequestIdInUse, LastShown;
    if phase.Done? { Local(c, Answer(Enter(c, id, kind, session, phase), c.next, w.written), id); }
    Local(c, Enter(c, id, kind, session, phase).(active := active), id);
  }

  // A frame under an id in use: answered, and nothing else.
  lemma RefuseSafe(c: Client, id: Id, w: Choice)
    requires Safe(c)
    ensures Safe(Answer(c.(next := c.next + 1), c.next, w.written))
  {
    FitsOne(c, id);
    hide Safe, LastShown;
    Local(c, Answer(c.(next := c.next + 1), c.next, w.written), id);
  }

  lemma ArriveSafe(c: Client, id: Id, kind: Kind, p: Pending, w: Choice)
    requires Safe(c) && Proper(c, id)
    ensures Safe(Arrive(c, id, kind, p, w))
  {
    hide Safe, RequestIdInUse, HasRoom, Ask, Enter, Answer;
    if RequestIdInUse(c, id) {
      RefuseSafe(c, id, w);
    } else {
      AskSafe(c, id, kind, p.(serial := c.next), w);
      EnterSafe(c, id, Unsupported, p.session, Done, c.active, w);
      EnterSafe(c, id, kind, p.session, Working, c.active[p.session := Admitted(c, p.session) + 1], w);
    }
  }

  lemma ProgressSafe(c: Client, id: Id, p: Pending, w: Choice)
    requires Safe(c)
    ensures Safe(Progress(c, id, p, w))
  {
    FitsOne(c, id);
    if id in c.inbound { AskedLast(c.shown, id.text, c.inbound[id].serial); }
    hide Safe, HasRoom, HasByteRoom, LastShown;
    if Progress(c, id, p, w) != c { Local(c, Progress(c, id, p, w), id); }
  }

  lemma CompleteSafe(c: Client, id: Id, w: Choice)
    requires Safe(c)
    ensures Safe(Complete(c, id, w))
  {
    FitsOne(c, id);
    hide Safe, LastShown;
    if Complete(c, id, w) != c { Local(c, Complete(c, id, w), id); }
  }

  // A map without one key, or with one more.
  lemma Elsewhere<V>(m: map<Id, V>, id: Id)
    ensures Get(m - {id}, id) == None && forall x | x != id :: Get(m - {id}, x) == Get(m, x)
  {
  }

  lemma SettleSafe(c: Client, id: Id)
    requires Safe(c)
    ensures Safe(Settle(c, id))
  {
    FitsOne(c, id);
    Elsewhere(c.inbound, id);
    var r := Settle(c, id);
    assert r == c.(inbound := r.inbound, active := r.active);
    hide Safe, LastShown, Bounded, Admitted;
    if r != c {
      assert r.inbound == c.inbound - {id};
      hide Get;
      Local(c, r, id);
    }
  }

  lemma RejectSafe(c: Client, id: Id, w: Choice)
    requires Safe(c)
    ensures Safe(RejectOperation(c, id, w))
  {
    FitsOne(c, id);
    Elsewhere(c.operations, id);
    hide Safe, LastShown;
    if RejectOperation(c, id, w) != c { Local(c, RejectOperation(c, id, w), id); }
  }

  lemma ApproveSafe(c: Client, id: Id)
    requires Safe(c) && id in c.operations
    ensures Safe(Approve(c, id))
  {
    FitsOne(c, id);
    Elsewhere(c.operations, id);
    hide Safe, LastShown;
    var k := c.operations[id].serial;
    assert Own(c, Approve(c, id), id, k) && Unrun(At(c, id));
    Local(c, Approve(c, id), id);
  }

  lemma PermitSafe(c: Client, id: Id, option: Option<string>, expected: Option<Session>, w: Choice)
    requires Safe(c)
    ensures Safe(RespondPermission(c, id, option, expected, w))
  {
    if id in c.operations {
      ApproveSafe(c, id);
      RejectSafe(c, id, w);
      hide Safe, Approve, RejectOperation, Expects;
    } else if id in c.permissions {
      FitsOne(c, id);
      Elsewhere(c.permissions, id);
      hide Safe, LastShown, Expects;
      if RespondPermission(c, id, option, expected, w) != c {
        Local(c, RespondPermission(c, id, option, expected, w), id);
      }
    }
  }

  lemma AnswerSafe(c: Client, id: Id, expected: Option<Session>, w: Choice)
    requires Safe(c)
    ensures Safe(RespondElicitation(c, id, expected, w))
  {
    FitsOne(c, id);
    Elsewhere(c.elicitations, id);
    hide Safe, LastShown, Expects;
    if RespondElicitation(c, id, expected, w) != c { Local(c, RespondElicitation(c, id, expected, w), id); }
  }

  lemma {:induction false} CancelPermissionsSafe(c: Client, batch: Batch)
    requires Safe(c)
    ensures Safe(CancelPermissions(c, batch))
    decreases |batch|
  {
    hide Safe, RespondPermission;
    if batch != [] {
      var (id, w) := batch[|batch| - 1];
      CancelPermissionsSafe(c, batch[..|batch| - 1]);
      PermitSafe(CancelPermissions(c, batch[..|batch| - 1]), id, None, None, w);
    }
  }

  lemma {:induction false} CancelElicitationsSafe(c: Client, batch: Batch, session: Session)
    requires Safe(c)
    ensures Safe(CancelElicitations(c, batch, session))
    decreases |batch|
  {
    hide Safe, RespondElicitation;
    if batch != [] {
      var (id, w) := batch[|batch| - 1];
      CancelElicitationsSafe(c, batch[..|batch| - 1], session);
      AnswerSafe(CancelElicitations(c, batch[..|batch| - 1], session), id, Some(session), w);
    }
  }

  lemma {:induction false} RejectOperationsSafe(c: Client, batch: Batch)
    requires Safe(c)
    ensures Safe(RejectOperations(c, batch))
    decreases |batch|
  {
    hide Safe, RejectOperation;
    if batch != [] {
      var (id, w) := batch[|batch| - 1];
      RejectOperationsSafe(c, batch[..|batch| - 1]);
      RejectSafe(RejectOperations(c, batch[..|batch| - 1]), id, w);
    }
  }

  // What the sets of sessions and of places say nothing about.
  lemma OutsideSafe(c: Client, c': Client)
    requires Safe(c) && c' == c.(sessions := c'.sessions, active := c'.active)
    ensures Safe(c')
  {
    forall x ensures At(c', x) == At(c, x) && Fits(c', x) { assert Fits(c, x); }
    forall a, b ensures Apart(c', a, b) { assert Apart(c, a, b); }
  }

  lemma EndSafe(c: Client, session: Session, o: Order)
    requires Safe(c)
    ensures Safe(CancelSession(c, session, o)) && Safe(ClearSession(c, session, o))
  {
    hide Safe, CancelPermissions, CancelElicitations, RejectOperations;
    CancelPermissionsSafe(c, o.permissions);
    var b := CancelPermissions(c, o.permissions);
    CancelElicitationsSafe(b, o.elicitations, session);
    var a := CancelElicitations(b, o.elicitations, session);
    RejectOperationsSafe(a, o.operations);
    OutsideSafe(a, a.(sessions := a.sessions - {session}, active := a.active - {session}));
    RejectOperationsSafe(a.(sessions := a.sessions - {session}, active := a.active - {session}), o.operations);
  }

  lemma FailSafe(c: Client)
    requires Safe(c)
    ensures Safe(Fail(c))
  {
    forall x ensures Fits(Fail(c), x) { assert Fits(c, x); }
    forall a, b ensures Apart(Fail(c), a, b) { assert Apart(c, a, b) && Fits(c, a) && Fits(c, b); }
  }

  lemma NextSafe(c: Client, e: Event)
    requires Safe(c)
    ensures Safe(Next(c, e))
  {
    hide Safe, Arrive, Progress, Complete, Settle, RespondPermission, RespondElicitation, CancelSession,
      ClearSession, Fail, Covers;
    if Possible(c, e) {
      match e
      case Opens(session) => OutsideSafe(c, Next(c, e));
      case Arrives(id, kind, request, w) => ArriveSafe(c, id, kind, request, w);
      case Progresses(id, request, w) => ProgressSafe(c, id, request, w);
      case Completes(id, w) => CompleteSafe(c, id, w);
      case Settles(id) => SettleSafe(c, id);
      case Permits(id, option, expected, w) => PermitSafe(c, id, option, expected, w);
      case Answers(id, expected, w) => AnswerSafe(c, id, expected, w);
      case Cancels(session, order) => EndSafe(c, session, order);
      case Clears(session, order) => EndSafe(c, session, order);
      case Fails => FailSafe(c);
    }
  }

  lemma {:induction false} RunSafe(limits: Limits, isNumber: string -> bool, events: seq<Event>)
    ensures Safe(Run(Fresh(limits, isNumber), events))
    decreases |events|
  {
    hide Next;
    if events != [] {
      hide Safe;
      RunSafe(limits, isNumber, events[..|events| - 1]);
      NextSafe(Run(Fresh(limits, isNumber), events[..|events| - 1]), events[|events| - 1]);
    }
  }

  /** In every run no two requests that are pending read the same, and each is in
      one map. */
  lemma PendingReadDifferently(limits: Limits, isNumber: string -> bool, events: seq<Event>, a: Id, b: Id)
    ensures var c := Run(Fresh(limits, isNumber), events);
            && (InUse(c, a) && InUse(c, b) && a != b ==> b !in SameReading(c, a))
            && (a in c.operations ==> a !in c.permissions && a !in c.elicitations)
              && !(a in c.permissions && a in c.elicitations)
  {
    RunSafe(limits, isNumber, events);
    hide Run;
    var c := Run(Fresh(limits, isNumber), events);
    assert Fits(c, a) && Fits(c, b) && Apart(c, a, b);
    assert InUse(c, a) == Used(At(c, a)) && InUse(c, b) == Used(At(c, b));
  }

  /** No request is answered twice, whether by Main, a cancel, a clear or its handler. */
  lemma AnsweredOnce(limits: Limits, isNumber: string -> bool, events: seq<Event>)
    ensures var c := Run(Fresh(limits, isNumber), events);
            && (forall i, j | 0 <= i < j < |c.answered| :: c.answered[i] != c.answered[j])
            && (forall i, j | 0 <= i < j < |c.ran| :: c.ran[i] != c.ran[j])
  {
    RunSafe(limits, isNumber, events);
    hide Run;
  }

  /** What Main's answer to a waiting operation brings about: it runs exactly if the option
      given is one that allows it, and otherwise the request is answered; either way it
      waits no more. An answer meant for another session changes nothing. */
  lemma OperationAnswered(c: Client, id: Id, option: Option<string>, expected: Option<Session>, w: Choice)
    requires id in c.operations
    ensures var p, r := c.operations[id], RespondPermission(c, id, option, expected, w);
            if expected.Some? && p.session != expected.value then r == c
            else
              && r.operations == c.operations - {id} && r.permissions == c.permissions
              && (option.Some? && option.value in p.allows <==> r.ran == c.ran + [p.serial])
              && (option.Some? && option.value in p.allows ==> r.answered == c.answered)
              && (option.None? || option.value !in p.allows ==>
                    r.ran == c.ran && r.answered == c.answered + if w.written && c.alive then [p.serial] else [])
              && (id in c.inbound ==>
                    id in r.inbound
                    && r.inbound[id].phase == if option.Some? && option.value in p.allows then Executing else Done)
  {}

  /** Main's answer to a permission request is given once, for the session it belongs to
      and with an option that was offered, or none; any other changes nothing. */
  lemma PermissionAnswered(c: Client, id: Id, option: Option<string>, expected: Option<Session>, w: Choice)
    requires id in c.permissions && id !in c.operations
    ensures var p, r := c.permissions[id], RespondPermission(c, id, option, expected, w);
            var other := expected.Some? && p.session != expected.value;
            if other || (option.Some? && option.value !in p.options) then r == c
            else
              r == c.(permissions := c.permissions - {id},
                      answered := c.answered + if w.written && c.alive then [p.serial] else [])
  {}

  /** And its answer to a question. */
  lemma QuestionAnswered(c: Client, id: Id, expected: Option<Session>, w: Choice)
    requires id in c.elicitations
    ensures var p, r := c.elicitations[id], RespondElicitation(c, id, expected, w);
            if expected.Some? && p.session != expected.value then r == c
            else
              r == c.(elicitations := c.elicitations - {id},
                      answered := c.answered + if w.written && c.alive then [p.serial] else [])
  {}

  /** Main's approval under an id runs the operation that Main was last shown under what
      the id reads as, once, and nothing else; and it runs it exactly if an operation
      waits there, for the session expected, that the option allows. */
  lemma RunsWhatWasShown(limits: Limits, isNumber: string -> bool, events: seq<Event>,
                         id: Id, option: string, expected: Option<Session>, w: Choice)
    ensures var c := Run(Fresh(limits, isNumber), events);
            var r := RespondPermission(c, id, Some(option), expected, w);
            && (r.ran != c.ran <==>
                  && id in c.operations && option in c.operations[id].allows
                  && (expected.Some? ==> c.operations[id].session == expected.value))
            && (r.ran != c.ran ==>
                  && LastShown(c.shown, id.text).Some?
                  && r.ran == c.ran + [LastShown(c.shown, id.text).value]
                  && LastShown(c.shown, id.text).value !in c.ran)
  {
    RunSafe(limits, isNumber, events);
    hide Run, LastShown;
    var c := Run(Fresh(limits, isNumber), events);
    assert Fits(c, id);
    if id in c.operations { OperationAnswered(c, id, Some(option), expected, w); }
  }

  // ----- What the other steps bring about -----

  // Whether one more request of the session may wait for Main.
  predicate Roomy(c: Client, session: Session) {
    && session in c.sessions
    && |set id | id in c.permissions && c.permissions[id].session == session|
       + |set id | id in c.operations && c.operations[id].session == session|
       + |set id | id in c.elicitations && c.elicitations[id].session == session| < c.limits.perSession
    && |c.permissions| + |c.elicitations| + |c.operations| < c.limits.perProvider
  }

  lemma RoomIsRoomy(c: Client, session: Session)
    ensures HasRoom(c, session) <==> Roomy(c, session)
  {
    SameOf(c.permissions, session);
    SameOf(c.operations, session);
    SameOf(c.elicitations, session);
  }

  lemma SameOf(m: map<Id, Pending>, session: Session)
    ensures Of(m, session) == (set id: Id | id in m && m[id].session == session) && |m.Keys| == |m|
  {
    assert |m.Keys| == |m|;
  }

  /** A permission request or question waits for Main exactly if it was not decided at
      once, there is room, it is not too large and the session's handler took it; Main
      has then been shown it. Otherwise it is answered. */
  lemma AskedWaits(c: Client, id: Id, kind: Kind, p: Pending, w: Choice)
    requires kind in {Permission, Elicitation} && id !in c.permissions && id !in c.elicitations
    ensures var r := Ask(c, id, kind, p, w);
            var waits := !w.settled && Roomy(c, p.session) && p.bytes <= c.limits.itemBytes && w.announced;
            && (waits ==>
                  && r.permissions == (if kind == Permission then c.permissions[id := p] else c.permissions)
                  && r.elicitations == (if kind == Elicitation then c.elicitations[id := p] else c.elicitations)
                  && r.shown == c.shown + [(id.text, p.serial)] && r.answered == c.answered)
            && (!waits ==> r == c.(answered := c.answered + if w.written && c.alive then [p.serial] else []))
  {
    hide HasRoom, Roomy;
    RoomIsRoomy(c, p.session);
  }

  // Whether something is pending under an id, or one that reads the same.
  predicate Taken(c: Client, id: Id) {
    exists other | other in SameReading(c, id) ::
      other in c.inbound || other in c.permissions || other in c.elicitations || other in c.operations
  }

  lemma TakenIsInUse(c: Client, id: Id)
    ensures RequestIdInUse(c, id) <==> Taken(c, id)
  {}

  /** A request that arrives under an id in use, or under one that reads the same, is
      answered and changes nothing else. */
  lemma ReusedIsRefused(c: Client, id: Id, kind: Kind, p: Pending, w: Choice)
    requires Taken(c, id)
    ensures Arrive(c, id, kind, p, w)
         == c.(next := c.next + 1, answered := c.answered + if w.written && c.alive then [c.next] else [])
  {
    hide SameReading;
    TakenIsInUse(c, id);
  }

  /** Another takes its id; one that is bounded takes one of the session's places and is
      at work, or is answered where there is none, as is one that is not supported. */
  lemma ArrivalDoes(c: Client, id: Id, kind: Kind, p: Pending, w: Choice)
    requires !Taken(c, id) && kind in {Operation, Other, Unsupported}
    ensures var r, answer := Arrive(c, id, kind, p, w), if w.written && c.alive then [c.next] else [];
            var active := if p.session in c.active then c.active[p.session] else 0;
            if kind != Unsupported && active < c.limits.clientRequests then
              r == c.(next := c.next + 1, inbound := c.inbound[id := Handler(c.next, p.session, kind, Working)],
                      active := c.active[p.session := active + 1])
            else
              r == c.(next := c.next + 1, inbound := c.inbound[id := Handler(c.next, p.session, Unsupported, Done)],
                      answered := c.answered + answer)
  {
    hide SameReading, Taken;
    TakenIsInUse(c, id);
  }

  /** And what asks Main is asked, under the id it came with. */
  lemma ArrivalAsks(c: Client, id: Id, kind: Kind, p: Pending, w: Choice)
    requires !Taken(c, id) && kind in {Permission, Elicitation}
    ensures var entered := c.(next := c.next + 1, inbound := c.inbound[id := Handler(c.next, p.session, kind, Done)]);
            Arrive(c, id, kind, p, w) == Ask(entered, id, kind, p.(serial := c.next), w)
  {
    hide SameReading, Taken, Ask;
    TakenIsInUse(c, id);
  }

  /** An operation whose checks are over waits for Main exactly if it has not settled, there
      is room for it and its bytes, and Main could be told; otherwise it is answered. */
  lemma OperationWaits(c: Client, id: Id, p: Pending, w: Choice)
    requires id in c.inbound && c.inbound[id].phase == Working && c.inbound[id].kind == Operation
    ensures var h, r := c.inbound[id], Progress(c, id, p, w);
            var waits := !w.settled && Roomy(c, h.session) && w.announced
              && HeldBytes(c.operations, h.session) + p.bytes <= c.limits.sessionBytes;
            && r.ran == c.ran
            && (waits ==>
                  && r.operations == c.operations[id := p.(serial := h.serial, session := h.session)]
                  && r.inbound[id].phase == Waiting && r.shown == c.shown + [(id.text, h.serial)]
                  && r.answered == c.answered)
            && (!waits ==>
                  && r.operations == c.operations && r.shown == c.shown && r.inbound[id].phase == Done
                  && r.answered == c.answered + if w.written && c.alive then [h.serial] else [])
  {
    hide HasRoom, Roomy, HeldBytes;
    RoomIsRoomy(c, c.inbound[id].session);
  }

  /** What Main approved is answered once it has run, and at its end a request gives back
      its id and its place. */
  lemma HandlerEnds(c: Client, id: Id, w: Choice)
    requires id in c.inbound
    ensures c.inbound[id].phase == Executing ==>
              var r := Complete(c, id, w);
              && r.inbound[id].phase == Done
              && r.answered == c.answered + if w.written && c.alive then [c.inbound[id].serial] else []
    ensures c.inbound[id].phase == Done ==>
              var h, r := c.inbound[id], Settle(c, id);
              var active := if h.session in c.active then c.active[h.session] else 0;
              && r.inbound == c.inbound - {id}
              && (h.kind in {Operation, Other} ==>
                    r.active == if active > 1 then c.active[h.session := active - 1] else c.active - {h.session})
              && (h.kind !in {Operation, Other} ==> r.active == c.active)
  {}

  /** A client starts with its worker alive, nothing at work and nothing waiting. */
  lemma StartsEmpty(limits: Limits, isNumber: string -> bool)
    ensures var c := Run(Fresh(limits, isNumber), []);
            && c.alive && c.limits == limits && c.isNumber == isNumber && c.sessions == {} && c.inbound == map[]
            && c.permissions == map[] && c.elicitations == map[] && c.operations == map[] && c.active == map[]
            && c.answered == [] && c.ran == []
  {}

  /** Each event is the step it is named for: a request under an id JavaScript can have, a
      cancel or a clear of all the session has. */
  lemma EventsDo(c: Client, e: Event)
    requires e.Arrives? ==> Proper(c, e.id)
    requires e.Cancels? || e.Clears? ==> Covers(e.order, c, e.session)
    ensures Next(c, e) ==
      match e
      case Opens(session) => c.(sessions := c.sessions + {session})
      case Arrives(id, kind, request, w) => Arrive(c, id, kind, request, w)
      case Progresses(id, request, w) => Progress(c, id, request, w)
      case Completes(id, w) => Complete(c, id, w)
      case Settles(id) => Settle(c, id)
      case Permits(id, option, expected, w) => RespondPermission(c, id, option, expected, w)
      case Answers(id, expected, w) => RespondElicitation(c, id, expected, w)
      case Cancels(session, order) => CancelSession(c, session, order)
      case Clears(session, order) => ClearSession(c, session, order)
      case Fails => Fail(c)
  {
    hide Arrive, Progress, Complete, Settle, Fail, RespondPermission, RespondElicitation, CancelSession, ClearSession,
      Covers, Proper;
  }

  /** With the worker gone nothing waits, and no answer leaves. */
  lemma FailEmpties(c: Client)
    ensures var r := Fail(c);
            && !r.alive && r.permissions == map[] && r.elicitations == map[] && r.operations == map[]
            && r.active == map[]
            && r.answered == c.answered && r.ran == c.ran
            && forall id | id in c.operations && id in c.inbound :: r.inbound[id].phase == Done
  {}

  /** Clearing a session forgets its handler and its count. */
  lemma {:induction false} ClearForgets(c: Client, session: Session, o: Order)
    ensures var r := ClearSession(c, session, o); session !in r.sessions && session !in r.active
  {
    var a := CancelElicitations(CancelPermissions(c, o.permissions), o.elicitations, session);
    RejectsKeep(a.(sessions := a.sessions - {session}, active := a.active - {session}), o.operations);
    hide CancelPermissions, CancelElicitations, RejectOperations;
  }

  lemma {:induction false} RejectsKeep(c: Client, batch: Batch)
    ensures RejectOperations(c, batch).sessions == c.sessions && RejectOperations(c, batch).active == c.active
    decreases |batch|
  {
    if batch != [] { RejectsKeep(c, batch[..|batch| - 1]); }
  }

  // ----- Caps -----

  predicate Within(active: map<Session, nat>, cap: nat) { forall session | session in active :: active[session] <= cap }

  /** The per-session, per-provider and byte caps; the count of client requests
      in progress stays within its own too, as a count. */
  ghost predicate Caps(c: Client) {
    && (forall session :: PendingOf(c, session) <= c.limits.perSession)
    && AllPending(c) <= c.limits.perProvider
    && (forall session :: HeldBytes(c.operations, session) <= c.limits.sessionBytes)
    && (forall id | id in c.permissions :: c.permissions[id].bytes <= c.limits.itemBytes)
    && (forall id | id in c.elicitations :: c.elicitations[id].bytes <= c.limits.itemBytes)
    && Within(c.active, c.limits.clientRequests)
  }

  lemma Subset(a: set<Id>, b: set<Id>)
    requires a <= b
    ensures |a| <= |b|
  {
    assert b == a + (b - a);
  }

  lemma {:induction false} BytesWithout(m: map<Id, Pending>, ids: set<Id>, id: Id)
    requires ids <= m.Keys && id in ids
    ensures TotalBytes(m, ids) == m[id].bytes + TotalBytes(m, ids - {id})
  {
    var first :| first in ids && TotalBytes(m, ids) == m[first].bytes + TotalBytes(m, ids - {first});
    if first != id {
      BytesWithout(m, ids - {first}, id);
      BytesWithout(m, ids - {id}, first);
      assert ids - {first} - {id} == ids - {id} - {first};
    }
  }

  lemma {:induction false} BytesSame(m: map<Id, Pending>, n: map<Id, Pending>, ids: set<Id>)
    requires ids <= m.Keys && ids <= n.Keys && forall id | id in ids :: m[id] == n[id]
    ensures TotalBytes(m, ids) == TotalBytes(n, ids)
  {
    if ids != {} {
      var id :| id in ids;
      BytesWithout(m, ids, id);
      BytesWithout(n, ids, id);
      BytesSame(m, n, ids - {id});
    }
  }

  lemma {:induction false} BytesFewer(m: map<Id, Pending>, a: set<Id>, b: set<Id>)
    requires a <= b <= m.Keys
    ensures TotalBytes(m, a) <= TotalBytes(m, b)
  {
    if b - a == {} {
      assert b == a + (b - a) == a;
    } else {
      var id :| id in b - a;
      BytesWithout(m, b, id);
      BytesFewer(m, a, b - {id});
    }
  }

  // Part of a map.
  predicate Part(m: map<Id, Pending>, n: map<Id, Pending>) { forall id | id in m :: id in n && m[id] == n[id] }

  lemma PartOf(m: map<Id, Pending>, n: map<Id, Pending>, session: Session)
    requires Part(m, n)
    ensures |m.Keys| <= |n.Keys| && |Of(m, session)| <= |Of(n, session)|
    ensures HeldBytes(m, session) <= HeldBytes(n, session)
  {
    Subset(m.Keys, n.Keys);
    Subset(Of(m, session), Of(n, session));
    BytesSame(m, n, Of(m, session));
    BytesFewer(n, Of(m, session), Of(n, session));
  }

  lemma LessCaps(c: Client, c': Client)
    requires Caps(c) && c'.limits == c.limits && Part(c'.permissions, c.permissions)
        && Part(c'.elicitations, c.elicitations)
    requires Part(c'.operations, c.operations)
    requires Within(c'.active, c.limits.clientRequests)
    ensures Caps(c')
  {
    hide Of, HeldBytes;
    forall session ensures PendingOf(c', session) <= c.limits.perSession
                           && HeldBytes(c'.operations, session) <= c.limits.sessionBytes {
      PartOf(c'.permissions, c.permissions, session);
      PartOf(c'.elicitations, c.elicitations, session);
      PartOf(c'.operations, c.operations, session);
      assert PendingOf(c, session) <= c.limits.perSession;
      assert HeldBytes(c.operations, session) <= c.limits.sessionBytes;
    }
    PartOf(c'.permissions, c.permissions, "");
    PartOf(c'.elicitations, c.elicitations, "");
    PartOf(c'.operations, c.operations, "");
  }

  lemma AddedOf(m: map<Id, Pending>, id: Id, p: Pending, session: Session)
    requires id !in m
    ensures |m[id := p].Keys| == |m.Keys| + 1
    ensures |Of(m[id := p], session)| == |Of(m, session)| + if p.session == session then 1 else 0
    ensures HeldBytes(m[id := p], session) == HeldBytes(m, session) + if p.session == session then p.bytes else 0
  {
    var n := m[id := p];
    assert n.Keys == m.Keys + {id};
    BytesSame(m, n, Of(m, session));
    if p.session == session {
      assert Of(n, session) == Of(m, session) + {id};
      BytesWithout(n, Of(n, session), id);
      assert Of(n, session) - {id} == Of(m, session);
    } else {
      assert Of(n, session) == Of(m, session);
    }
  }

  lemma AskCaps(c: Client, id: Id, kind: Kind, p: Pending, w: Choice)
    requires Caps(c) && id !in c.permissions && id !in c.elicitations
    ensures Caps(Ask(c, id, kind, p, w))
  {
    var r := Ask(c, id, kind, p, w);
    hide Of, HeldBytes;
    forall session ensures PendingOf(r, session) <= c.limits.perSession
                           && HeldBytes(r.operations, session) <= c.limits.sessionBytes {
      AddedOf(c.permissions, id, p, session);
      AddedOf(c.elicitations, id, p, session);
      assert PendingOf(c, session) <= c.limits.perSession;
      assert HeldBytes(c.operations, session) <= c.limits.sessionBytes;
    }
    AddedOf(c.permissions, id, p, "");
    AddedOf(c.elicitations, id, p, "");
  }

  lemma ProgressCaps(c: Client, id: Id, p: Pending, w: Choice)
    requires Caps(c) && Safe(c)
    ensures Caps(Progress(c, id, p, w))
  {
    var r := Progress(c, id, p, w);
    FitsOne(c, id);
    if r.operations != c.operations {
      var q := p.(serial := c.inbound[id].serial, session := c.inbound[id].session);
      assert At(c, id).operation.None? && id !in c.operations;
      hide Safe, Fits, Of, HeldBytes;
      forall session ensures PendingOf(r, session) <= c.limits.perSession
                             && HeldBytes(r.operations, session) <= c.limits.sessionBytes {
        AddedOf(c.operations, id, q, session);
        assert PendingOf(c, session) <= c.limits.perSession;
        assert HeldBytes(c.operations, session) <= c.limits.sessionBytes;
      }
      AddedOf(c.operations, id, q, "");
    } else {
      hide Safe, Fits;
      LessCaps(c, r);
    }
  }

  // A client with the same limits that has fewer requests waiting for Main.
  ghost predicate Fewer(c: Client, r: Client) {
    && r.limits == c.limits && r.active == c.active
    && Part(r.permissions, c.permissions) && Part(r.elicitations, c.elicitations) && Part(r.operations, c.operations)
  }

  lemma PartMinus(m: map<Id, Pending>, id: Id)
    ensures Part(m, m) && Part(m - {id}, m)
  {
  }

  lemma RejectFewer(c: Client, id: Id, w: Choice)
    ensures Fewer(c, RejectOperation(c, id, w)) && (id in c.operations ==> Fewer(c, Approve(c, id)))
  {
    PartMinus(c.permissions, id);
    PartMinus(c.elicitations, id);
    PartMinus(c.operations, id);
    hide Answer, Phased, Part;
  }

  lemma RespondFewer(c: Client, id: Id, option: Option<string>, expected: Option<Session>, w: Choice)
    ensures Fewer(c, RespondPermission(c, id, option, expected, w)) && Fewer(c, RespondElicitation(c, id, expected, w))
  {
    RejectFewer(c, id, w);
    PartMinus(c.permissions, id);
    PartMinus(c.elicitations, id);
    PartMinus(c.operations, id);
    hide Answer, Approve, RejectOperation, Expects, Part;
  }

  lemma FewerStill(c: Client, m: Client, r: Client)
    requires Fewer(c, m) && Fewer(m, r)
    ensures Fewer(c, r)
  {
  }

  lemma {:induction false} CancelPermissionsFewer(c: Client, batch: Batch)
    ensures Fewer(c, CancelPermissions(c, batch))
    decreases |batch|
  {
    if batch != [] {
      hide Fewer, RespondPermission;
      var m := CancelPermissions(c, batch[..|batch| - 1]);
      CancelPermissionsFewer(c, batch[..|batch| - 1]);
      RespondFewer(m, batch[|batch| - 1].0, None, None, batch[|batch| - 1].1);
      FewerStill(c, m, CancelPermissions(c, batch));
    }
  }

  lemma {:induction false} CancelElicitationsFewer(c: Client, batch: Batch, session: Session)
    ensures Fewer(c, CancelElicitations(c, batch, session))
    decreases |batch|
  {
    if batch != [] {
      hide Fewer, RespondElicitation;
      var m := CancelElicitations(c, batch[..|batch| - 1], session);
      CancelElicitationsFewer(c, batch[..|batch| - 1], session);
      RespondFewer(m, batch[|batch| - 1].0, None, Some(session), batch[|batch| - 1].1);
      FewerStill(c, m, CancelElicitations(c, batch, session));
    }
  }

  lemma {:induction false} RejectOperationsFewer(c: Client, batch: Batch)
    ensures Fewer(c, RejectOperations(c, batch))
    decreases |batch|
  {
    if batch != [] {
      hide Fewer, RejectOperation;
      var m := RejectOperations(c, batch[..|batch| - 1]);
      RejectOperationsFewer(c, batch[..|batch| - 1]);
      RejectFewer(m, batch[|batch| - 1].0, batch[|batch| - 1].1);
      FewerStill(c, m, RejectOperations(c, batch));
    }
  }

  lemma EndFewer(c: Client, session: Session, o: Order)
    ensures Fewer(c, CancelSession(c, session, o))
    ensures var r := ClearSession(c, session, o); Fewer(c.(active := c.active - {session}), r)
  {
    hide Fewer, CancelPermissions, CancelElicitations, RejectOperations;
    var m := CancelPermissions(c, o.permissions);
    CancelPermissionsFewer(c, o.permissions);
    CancelElicitationsFewer(m, o.elicitations, session);
    var a := CancelElicitations(m, o.elicitations, session);
    FewerStill(c, m, a);
    RejectOperationsFewer(a, o.operations);
    FewerStill(c, a, RejectOperations(a, o.operations));
    var b := a.(sessions := a.sessions - {session}, active := a.active - {session});
    FewerActive(c, a, session);
    RejectOperationsFewer(b, o.operations);
    FewerStill(c.(active := c.active - {session}), b, RejectOperations(b, o.operations));
  }

  lemma FewerActive(c: Client, a: Client, session: Session)
    requires Fewer(c, a)
    ensures Fewer(c.(active := c.active - {session}),
        a.(sessions := a.sessions - {session}, active := a.active - {session}))
  {
  }

  // A step that only takes up a request, or turns it away.
  lemma EnterCaps(c: Client, c': Client)
    requires Caps(c) && c' == c.(inbound := c'.inbound, next := c'.next, answered := c'.answered, active := c'.active)
    requires Within(c'.active, c.limits.clientRequests)
    ensures Caps(c')
  {
    hide Caps;
    LessCaps(c, c');
  }

  lemma AskedCaps(c: Client, id: Id, kind: Kind, p: Pending, w: Choice)
    requires Safe(c) && Caps(c) && Proper(c, id) && !RequestIdInUse(c, id)
    ensures Caps(Ask(Enter(c, id, kind, p.session, Done), id, kind, p, w))
  {
    FreeId(c, id);
    assert !Used(At(c, id));
    hide Safe, RequestIdInUse;
    EnterCaps(c, Enter(c, id, kind, p.session, Done));
    hide Caps;
    AskCaps(Enter(c, id, kind, p.session, Done), id, kind, p, w);
  }

  lemma ActiveWithin(c: Client, session: Session)
    requires Caps(c)
    ensures Within(c.active, c.limits.clientRequests)
    ensures Admitted(c, session) < c.limits.clientRequests ==>
              Within(c.active[session := Admitted(c, session) + 1], c.limits.clientRequests)
    ensures Admitted(c, session) > 1 ==> Within(c.active[session := Admitted(c, session) - 1], c.limits.clientRequests)
    ensures Within(c.active - {session}, c.limits.clientRequests)
  {
    hide Of, HeldBytes;
  }

  lemma AnsweredCaps(c: Client, k: nat, written: bool)
    requires Caps(c)
    ensures Caps(Answer(c, k, written))
  {
    EnterCaps(c, Answer(c, k, written));
  }

  lemma TakenCaps(c: Client, id: Id, kind: Kind, session: Session, w: Choice)
    requires Caps(c)
    ensures Caps(Answer(Enter(c, id, Unsupported, session, Done), c.next, w.written))
    ensures Caps(Answer(c.(next := c.next + 1), c.next, w.written))
    ensures Admitted(c, session) < c.limits.clientRequests ==>
              Caps(Enter(c, id, kind, session, Working).(active := c.active[session := Admitted(c, session) + 1]))
  {
    ActiveWithin(c, session);
    hide Caps, Answer, Admitted, Within;
    EnterCaps(c, Enter(c, id, Unsupported, session, Done));
    AnsweredCaps(Enter(c, id, Unsupported, session, Done), c.next, w.written);
    EnterCaps(c, c.(next := c.next + 1));
    AnsweredCaps(c.(next := c.next + 1), c.next, w.written);
    if Admitted(c, session) < c.limits.clientRequests {
      EnterCaps(c, Enter(c, id, kind, session, Working).(active := c.active[session := Admitted(c, session) + 1]));
    }
  }

  lemma ArriveCaps(c: Client, id: Id, kind: Kind, p: Pending, w: Choice)
    requires Safe(c) && Caps(c) && Proper(c, id)
    ensures Caps(Arrive(c, id, kind, p, w))
  {
    hide Safe, Caps, RequestIdInUse, Ask, Answer, Enter, Admitted, Proper;
    if !RequestIdInUse(c, id) && (kind.Permission? || kind.Elicitation?) {
      AskedCaps(c, id, kind, p.(serial := c.next), w);
    } else {
      TakenCaps(c, id, kind, p.session, w);
    }
  }

  lemma NextCaps(c: Client, e: Event)
    requires Safe(c) && Caps(c)
    ensures Caps(Next(c, e))
  {
    hide Safe, Caps, Arrive, Progress, Settle, RespondPermission, RespondElicitation, CancelSession, ClearSession,
      Covers, Phased, Answer;
    if Possible(c, e) {
      match e
      case Opens(session) => FewerCaps(c, Next(c, e));
      case Arrives(id, kind, request, w) => ArriveCaps(c, id, kind, request, w);
      case Progresses(id, request, w) => ProgressCaps(c, id, request, w);
      case Completes(id, w) => FewerCaps(c, Complete(c, id, w));
      case Settles(id) => SettleCaps(c, id);
      case Permits(id, option, expected, w) =>
        RespondFewer(c, id, option, expected, w);
        FewerCaps(c, Next(c, e));
      case Answers(id, expected, w) =>
        RespondFewer(c, id, None, expected, w);
        FewerCaps(c, Next(c, e));
      case Cancels(session, order) =>
        EndFewer(c, session, order);
        FewerCaps(c, Next(c, e));
      case Clears(session, order) =>
        EndFewer(c, session, order);
        ClearCaps(c, session);
        FewerCaps(c.(active := c.active - {session}), Next(c, e));
      case Fails => FailCaps(c);
    }
  }

  lemma FewerCaps(c: Client, r: Client)
    requires Caps(c) && Fewer(c, r)
    ensures Caps(r)
  {
    assert Within(r.active, c.limits.clientRequests);
    hide Caps;
    LessCaps(c, r);
  }

  lemma ClearCaps(c: Client, session: Session)
    requires Caps(c)
    ensures Caps(c.(active := c.active - {session}))
  {
    var r := c.(active := c.active - {session});
    assert Within(r.active, c.limits.clientRequests);
    hide Caps;
    LessCaps(c, r);
  }

  lemma SettleCaps(c: Client, id: Id)
    requires Caps(c)
    ensures Caps(Settle(c, id))
  {
    if id in c.inbound { ActiveWithin(c, c.inbound[id].session); } else { ActiveWithin(c, ""); }
    hide Caps, Admitted, Within;
    EnterCaps(c, Settle(c, id));
  }

  lemma FailCaps(c: Client)
    requires Caps(c)
    ensures Caps(Fail(c))
  {
    var r := Fail(c);
    hide Caps;
    LessCaps(c, r);
  }

  /** In every run what waits for Main stays within the session's, the provider's
      and the byte limits. */
  lemma {:induction false} RunCaps(limits: Limits, isNumber: string -> bool, events: seq<Event>)
    ensures Caps(Run(Fresh(limits, isNumber), events))
    decreases |events|
  {
    if events == [] {
      NothingPending(Fresh(limits, isNumber));
    } else {
      hide Safe, Caps, Next;
      RunCaps(limits, isNumber, events[..|events| - 1]);
      RunSafe(limits, isNumber, events[..|events| - 1]);
      NextCaps(Run(Fresh(limits, isNumber), events[..|events| - 1]), events[|events| - 1]);
    }
  }

  lemma NothingPending(c: Client)
    requires c.permissions == map[] && c.elicitations == map[] && c.operations == map[] && c.active == map[]
    ensures Caps(c)
  {
    assert forall session ::
        Of(c.operations, session) == {} && Of(c.permissions, session) == {} && Of(c.elicitations, session) == {};
  }

  // ----- Cancel and clear leave nothing of the session behind -----

  lemma {:induction false} CancelPermissionsGone(c: Client, batch: Batch, id: Id)
    requires Safe(c) && Names(batch, id)
    ensures id !in CancelPermissions(c, batch).permissions
    decreases |batch|
  {
    var m := CancelPermissions(c, batch[..|batch| - 1]);
    CancelPermissionsSafe(c, batch[..|batch| - 1]);
    assert Fits(m, batch[|batch| - 1].0);
    hide Safe, Answer, RejectOperation;
    RespondFewer(m, batch[|batch| - 1].0, None, None, batch[|batch| - 1].1);
    if Names(batch[..|batch| - 1], id) {
      CancelPermissionsGone(c, batch[..|batch| - 1], id);
    } else {
      LastNames(batch, id);
    }
  }

  lemma LastNames(batch: Batch, id: Id)
    requires Names(batch, id)
    ensures batch != [] && (Names(batch[..|batch| - 1], id) || batch[|batch| - 1].0 == id)
  {
    var entry :| entry in batch && entry.0 == id;
    assert batch == batch[..|batch| - 1] + [batch[|batch| - 1]];
  }

  lemma {:induction false} CancelElicitationsGone(c: Client, batch: Batch, session: Session, id: Id)
    requires Names(batch, id) && (id in c.elicitations ==> c.elicitations[id].session == session)
    ensures id !in CancelElicitations(c, batch, session).elicitations
    decreases |batch|
  {
    LastNames(batch, id);
    var m := CancelElicitations(c, batch[..|batch| - 1], session);
    CancelElicitationsFewer(c, batch[..|batch| - 1], session);
    hide Answer;
    RespondFewer(m, batch[|batch| - 1].0, None, Some(session), batch[|batch| - 1].1);
    if Names(batch[..|batch| - 1], id) { CancelElicitationsGone(c, batch[..|batch| - 1], session, id); }
  }

  lemma {:induction false} RejectOperationsGone(c: Client, batch: Batch, id: Id)
    requires Names(batch, id)
    ensures id !in RejectOperations(c, batch).operations
    decreases |batch|
  {
    LastNames(batch, id);
    var m := RejectOperations(c, batch[..|batch| - 1]);
    hide Answer;
    RejectFewer(m, batch[|batch| - 1].0, batch[|batch| - 1].1);
    if Names(batch[..|batch| - 1], id) { RejectOperationsGone(c, batch[..|batch| - 1], id); }
  }

  predicate NoneOf(c: Client, session: Session) {
    && (forall id | id in c.permissions :: c.permissions[id].session != session)
    && (forall id | id in c.elicitations :: c.elicitations[id].session != session)
    && (forall id | id in c.operations :: c.operations[id].session != session)
  }

  /** After a cancel or a clear nothing of the session waits for Main any more. */
  lemma NothingLeft(c: Client, session: Session, o: Order)
    requires Safe(c) && Covers(o, c, session)
    ensures NoneOf(CancelSession(c, session, o), session) && NoneOf(ClearSession(c, session, o), session)
  {
    var m := CancelPermissions(c, o.permissions);
    var a := CancelElicitations(m, o.elicitations, session);
    var b := a.(sessions := a.sessions - {session}, active := a.active - {session});
    EndFewer(c, session, o);
    CancelPermissionsFewer(c, o.permissions);
    CancelElicitationsFewer(m, o.elicitations, session);
    RejectOperationsFewer(a, o.operations);
    RejectOperationsFewer(b, o.operations);
    forall id | Names(o.permissions, id) ensures id !in m.permissions { CancelPermissionsGone(c, o.permissions, id); }
    forall id | Names(o.elicitations, id) ensures id !in a.elicitations {
      CancelElicitationsGone(m, o.elicitations, session, id);
    }
    forall id | Names(o.operations, id) ensures id !in RejectOperations(a, o.operations).operations {
      RejectOperationsGone(a, o.operations, id);
    }
    forall id | Names(o.operations, id) ensures id !in RejectOperations(b, o.operations).operations {
      RejectOperationsGone(b, o.operations, id);
    }
    hide Safe, CancelPermissions, CancelElicitations, RejectOperations, Names;
  }
}

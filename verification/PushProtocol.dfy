/**
 The write-ahead protocol of a Git push as a step system: any number of calls
 run through the capability service (internal/policy/service.go) and the broker
 (internal/git/broker.go) at once, every audit write may fail in any way, the
 remote may answer anything, and the process may be lost after any step.
 */
module PushProtocol {
  import opened Wrappers
  import opened PushStatus
  import opened Broker

  // ---------------------------------------------------------------------
  // Durable log

  /** How one `Record` call ends; all but `Written` are reported to the caller as errors. */
  datatype Write = Written | Lost | Kept | Torn

  /** A line appended after a damaged one is never readable: the stream refuses at the first bad line. */
  function Append(j: Journal, e: AuditEvent, w: Write): Journal {
    if w == Lost then j
    else if w == Torn then j.(damaged := true)
    else if j.damaged then j.(hidden := j.hidden + [e])
    else j.(records := j.records + [e])
  }

  function Event(kind: Kind, id: string, q: Request, attributes: Attributes, success: Option<bool>): AuditEvent {
    AuditEvent(kind, id, q.capability, q.action, q.resource, q.environment, q.instance, attributes, success)
  }

  // ---------------------------------------------------------------------
  // State

  datatype Proposal = Proposal(
    environment: string,
    repository: string,
    remote: string,
    ref: string,
    oldOid: string,
    newOid: string,
    operation: Action)

  /** The capability request `perform` builds from a proposal. */
  function RequestOf(p: Proposal, op: string, instance: string): (q: Request)
    ensures q.capability == Git && RepositoryOwner !in q.attributes
    ensures Attr(q.attributes, OperationId) == op
  {
    var base := map[Repository := p.repository, Remote := p.remote, TargetRef := p.ref,
                    OldOid := p.oldOid, NewOid := p.newOid, OperationId := op];
    Request(Git, p.operation, p.environment, instance, p.remote,
            if p.operation != Push then base
            else base[UpdateKind := if p.oldOid == ZERO_OID then "create" else "fast-forward"])
  }

  datatype Reply = Failed | Replied(ref: string, oid: string, error: string)

  /** An external push: the request it serves and what came back, if anything did. */
  datatype Attempt = Attempt(id: string, request: Request, reply: Option<Reply>)

  /** The porcelain receipt: exactly the proposed ref at exactly the proposed commit. */
  predicate Exact(q: Request, reply: Reply) {
    reply == Replied(Attr(q.attributes, TargetRef), Attr(q.attributes, NewOid), "")
  }

  datatype Phase =
    | Entered                       // before the service records the request
    | Asked                         // recorded, being evaluated
    | Waiting(channel: nat)         // waiting for a decision
    | Denied                        // will not execute
    | Admitted                      // claimed by Execute
    | Dispatched                    // started record accepted
    | Sent(attempt: nat)            // external push running
    | Confirming                    // exact receipt in hand
    | Completing(success: bool)
    | Finished

  /** One call of the capability service; `context` is the operation bound by `perform`. */
  datatype Call = Call(
    context: Option<string>,
    request: Request,
    target: Option<AuditEvent>,
    id: string,
    receipt: AuditEvent,
    phase: Phase)

  datatype Execution = Execution(op: string, request: Request, context: Option<string>)

  datatype Machine = Machine(
    journal: Journal,
    maps: Maps,
    calls: map<nat, Call>,
    // History that survives a lost process, for stating properties.
    prepared: map<string, Request>,
    drawn: map<string, Request>,
    attempts: seq<Attempt>,
    executed: seq<Execution>)

  const INITIAL := Machine(Journal([], false, []), EMPTY, map[], map[], map[], [], [])

  // ---------------------------------------------------------------------
  // What one call does

  datatype Move =
    | Open(id: string, request: Request, write: Write)
    | Note(kind: Kind, write: Write)
    | Ask(scope: Option<Request>, channel: nat)
    | Hear(decision: Decision)
    | GiveUp
    | Refuse
    | Execute(admitted: bool)
    | Fail
    | Begin(owner: Option<string>, write: Write)
    | Transmit(attempt: nat)
    | Answer(reply: Reply)
    | Confirm(write: Write)
    | Read
    | Sight(oid: string, write: Write)
    | Complete(write: Write)

  function StartedEvent(c: Call, owner: Option<string>): AuditEvent {
    Event(Started, c.id, c.request,
          if owner.None? then c.request.attributes else c.request.attributes[RepositoryOwner := owner.value], None)
  }

  /** What `beginPush` demands before it records anything. */
  predicate Beginnable(fm: Formats, e: AuditEvent) {
    e.requestId != "" && fm.instance(e.instance) && ValidPushAudit(fm, e) && fm.id(Attr(e.attributes, RepositoryOwner))
  }

  function ObservedEvent(started: AuditEvent, oid: string, observer: string): AuditEvent {
    started.(kind := Observed, attributes := started.attributes[ObservedOid := oid][ObservationRequestId := observer])
  }

  predicate CanMove(c: Call, m: Move) {
    match m
    case Open(id, q, w) => c.phase == Entered && id != ""
    case Note(kind, w) => (c.phase == Asked || c.phase == Denied) && kind.OtherKind?
    case Ask(scope, k) => c.phase == Asked && c.context.Some?
    case Hear(d) => c.phase.Waiting?
    case GiveUp => c.phase.Waiting?
    case Refuse => c.phase == Entered || c.phase == Asked || c.phase == Denied
    case Execute(admitted) => c.phase == Asked
    case Fail => c.phase == Admitted
    case Begin(owner, w) => c.phase == Admitted && c.request.action == Push
    case Transmit(k) => c.phase == Dispatched
    case Answer(reply) => c.phase.Sent?
    case Confirm(w) => c.phase == Confirming
    case Read => c.phase == Admitted && c.request.action != Push && c.target.None?
    case Sight(oid, w) => c.phase == Admitted && c.request.action != Push && c.target.Some?
    case Complete(w) => c.phase.Completing?
  }

  /** The phase a move leads to; a failed audit write never lets a push go ahead. */
  function PhaseAfter(fm: Formats, c: Call, m: Move): Phase
    requires CanMove(c, m)
  {
    match m
    case Open(id, q, w) => if w == Written then Asked else Finished
    case Note(kind, w) => if w == Written then c.phase else Finished
    case Ask(scope, k) => Waiting(k)
    case Hear(d) => if d.approved then Asked else Denied
    case GiveUp => Denied
    case Refuse => Finished
    case Execute(admitted) => if admitted then Admitted else Completing(false)
    case Fail => Completing(false)
    case Begin(owner, w) =>
      if Beginnable(fm, StartedEvent(c, owner)) && w == Written then Dispatched else Completing(false)
    case Transmit(k) => Sent(k)
    case Answer(reply) => if Exact(c.request, reply) then Confirming else Completing(false)
    case Confirm(w) => Completing(w == Written)
    case Read => Completing(true)
    case Sight(oid, w) => Completing(w == Written)
    case Complete(w) => Finished
  }

  /** The service normalises the request it was given before recording it; nothing below relies on how. */
  function After(fm: Formats, c: Call, m: Move): Call
    requires CanMove(c, m)
  {
    var moved := c.(phase := PhaseAfter(fm, c, m));
    if m.Open? then moved.(id := m.id, request := m.request)
    else if m.Begin? then moved.(receipt := StartedEvent(c, m.owner))
    else moved
  }

  datatype Line = Line(event: AuditEvent, write: Write)

  /** The record a move tries to append. */
  function Wrote(fm: Formats, c: Call, m: Move): Option<Line>
    requires CanMove(c, m)
  {
    match m
    case Open(id, q, w) => Some(Line(Event(Requested, id, q, q.attributes, None), w))
    case Note(kind, w) => Some(Line(Event(kind, c.id, c.request, c.request.attributes, None), w))
    case Begin(owner, w) =>
      if Beginnable(fm, StartedEvent(c, owner)) then Some(Line(StartedEvent(c, owner), w)) else None
    case Confirm(w) => Some(Line(c.receipt.(kind := Confirmed), w))
    case Sight(oid, w) => Some(Line(ObservedEvent(c.target.value, oid, c.id), w))
    case Complete(w) =>
      Some(Line(Event(Completed, c.id, c.request, c.request.attributes, Some(c.phase.success)), w))
    case _ => None
  }

  // ---------------------------------------------------------------------
  // Steps of the whole system

  datatype Step =
    | Prepare(call: nat, op: string, proposal: Proposal, instance: string, reconcile: Option<string>)
    | Submit(call: nat, request: Request)
    | Act(call: nat, move: Move)
    | Decide(op: string, decision: Decision)
    | Return(call: nat)
    | Crash
    | Foreign(event: AuditEvent, write: Write)

  /** The push `ReconcilePush` may look at again: found, dispatched and no longer running. */
  predicate Reconcilable(fm: Formats, s: Machine, environment: string, id: string) {
    var a := StatusOf(fm, s.journal, environment, id, s.maps.active);
    a.Ok? && a.value.status.found && a.value.status.dispatched && !a.value.active
  }

  function Target(fm: Formats, s: Machine, environment: string, reconcile: Option<string>): Option<AuditEvent>
    requires reconcile.Some? ==> Reconcilable(fm, s, environment, reconcile.value)
  {
    if reconcile.None? then None
    else Some(StatusOf(fm, s.journal, environment, reconcile.value, s.maps.active).value.started)
  }

  /** What a move needs of the shared state, beyond its call being in the right phase. */
  predicate Fits(s: Machine, c: Call, m: Move) {
    match m
    case Open(id, q, w) => id !in s.drawn
    case Ask(scope, k) => k == |s.maps.channels|
    case Hear(d) =>
      c.phase.Waiting? && c.phase.channel < |s.maps.channels|
      && var b := s.maps.channels[c.phase.channel].buffer; b != [] && b[0] == d
    case Execute(admitted) => admitted == Admits(s.maps, c.context, c.request)
    case Transmit(k) => k == |s.attempts|
    case Answer(reply) => c.phase.Sent? && c.phase.attempt < |s.attempts|
    case _ => true
  }

  predicate Enabled(fm: Formats, s: Machine, step: Step) {
    match step
    case Prepare(t, op, p, instance, reconcile) =>
      && t !in s.calls && op !in s.prepared && (p.operation == Push || p.operation == Fetch)
      && (reconcile.Some? ==> p.operation == Fetch && Reconcilable(fm, s, p.environment, reconcile.value))
    case Submit(t, q) => t !in s.calls
    case Act(t, m) => t in s.calls && CanMove(s.calls[t], m) && Fits(s, s.calls[t], m)
    case Decide(op, d) => op in s.maps.pending && s.maps.pending[op].channel < |s.maps.channels|
    case Return(t) => t in s.calls && s.calls[t].phase == Finished
    case Crash => true
    case Foreign(e, w) => e.capability != Git
  }

  function MapsAfter(s: Machine, c: Call, m: Move): Maps
    requires CanMove(c, m) && Fits(s, c, m)
  {
    match m
    case Ask(scope, k) => Prompted(s.maps, c.context.value, scope)
    case Hear(d) => Heard(s.maps, c.phase.channel)
    case Execute(admitted) => if admitted then Claimed(s.maps, c.request) else s.maps
    case _ => s.maps
  }

  function AttemptsAfter(s: Machine, c: Call, m: Move): seq<Attempt>
    requires CanMove(c, m) && Fits(s, c, m)
  {
    match m
    case Transmit(k) => s.attempts + [Attempt(c.id, c.request, None)]
    case Answer(reply) => s.attempts[c.phase.attempt := s.attempts[c.phase.attempt].(reply := Some(reply))]
    case _ => s.attempts
  }

  function Logged(j: Journal, line: Option<Line>): Journal {
    if line.None? then j else Append(j, line.value.event, line.value.write)
  }

  function Acted(fm: Formats, s: Machine, t: nat, m: Move): Machine
    requires t in s.calls && CanMove(s.calls[t], m) && Fits(s, s.calls[t], m)
  {
    var c := s.calls[t];
    Machine(
      Logged(s.journal, Wrote(fm, c, m)),
      MapsAfter(s, c, m),
      s.calls[t := After(fm, c, m)],
      s.prepared,
      if m.Open? then s.drawn[m.id := m.request] else s.drawn,
      AttemptsAfter(s, c, m),
      if m.Execute? && m.admitted
      then s.executed + [Execution(Attr(c.request.attributes, OperationId), c.request, c.context)]
      else s.executed)
  }

  function Next(fm: Formats, s: Machine, step: Step): Machine
    requires Enabled(fm, s, step)
  {
    match step
    case Prepare(t, op, p, instance, reconcile) =>
      var q := RequestOf(p, op, instance);
      s.(maps := Prepared(s.maps, op, q), prepared := s.prepared[op := q],
         calls := s.calls[t := Call(Some(op), q, Target(fm, s, p.environment, reconcile), "", NO_EVENT, Entered)])
    case Submit(t, q) =>
      s.(calls := s.calls[t := Call(None, q, None, "", NO_EVENT, Entered)])
    case Act(t, m) => Acted(fm, s, t, m)
    case Decide(op, d) => s.(maps := Decided(s.maps, op, d))
    case Return(t) =>
      var c := s.calls[t];
      s.(calls := s.calls - {t}, maps := if c.context.None? then s.maps else Returned(s.maps, c.context.value))
    case Crash => s.(maps := EMPTY, calls := map[])
    case Foreign(e, w) => s.(journal := Append(s.journal, e, w))
  }

  /** `s` is reached from the empty system by these steps, each enabled where it is taken. */
  ghost predicate Reaches(fm: Formats, steps: seq<Step>, s: Machine) {
    if steps == [] then s == INITIAL
    else
      var n := |steps| - 1;
      exists r :: Reaches(fm, steps[..n], r) && Enabled(fm, r, steps[n]) && s == Next(fm, r, steps[n])
  }
}

/**
 The recovery scan never gets stuck on the protocol's own records: whatever
 interleaving, failed write or lost process produced the log, the by-ID status
 of every well-formed push request can be read back.
 */
module PushRecovery {
  import opened Wrappers
  import opened PushStatus
  import opened Broker
  import opened PushProtocol
  import opened PushSafety

  function RequestedEvent(id: string, q: Request): AuditEvent {
    Event(Requested, id, q, q.attributes, None)
  }

  /** A push request the scan accepts; every push `exchange` lets through is one. */
  predicate Recoverable(fm: Formats, id: string, q: Request) {
    && q.capability == Git && q.action == Push && RepositoryOwner !in q.attributes
    && ValidPushAudit(fm, RequestedEvent(id, q))
  }

  function Scan(fm: Formats, j: Journal, id: string, q: Request): Result<History, Error> {
    Fold(fm, q.environment, id, j.records)
  }

  predicate Followed(fm: Formats, j: Journal, id: string, q: Request) {
    Recoverable(fm, id, q) ==>
      && Scan(fm, j, id, q).Ok?
      && var h := Scan(fm, j, id, q).value;
      h.status.found ==> h.requested == RequestedEvent(id, q) && h.status.requestId == id
  }

  /** How far the log has got agrees with how far the call has got. */
  predicate InStep(fm: Formats, j: Journal, c: Call) {
    c.id != "" && Recoverable(fm, c.id, c.request) && Scan(fm, j, c.id, c.request).Ok? ==>
      var h := Scan(fm, j, c.id, c.request).value;
      && (c.phase != Entered && c.phase != Finished && !j.damaged ==> h.status.found)
      && (c.phase.Asked? || c.phase.Waiting? || c.phase.Denied? || c.phase.Admitted? ==> !h.status.dispatched)
      && (c.phase != Finished ==> h.status.completed.None?)
      && (!c.phase.Completing? && c.phase != Finished ==> h.status.state == UnconfirmedState)
      && (Begun(c.phase) && !j.damaged ==> h.status.dispatched && h.started == c.receipt)
  }

  ghost predicate RecoveryInv(fm: Formats, s: Machine) {
    && (forall id :: id in s.drawn ==> id != "" && Followed(fm, s.journal, id, s.drawn[id]))
    && (forall t :: t in s.calls ==> InStep(fm, s.journal, s.calls[t]))
  }

  lemma FoldElsewhere(fm: Formats, environment: string, id: string, j: Journal, line: Option<Line>)
    requires line.Some? ==> !Relevant(environment, id, line.value.event)
    ensures Fold(fm, environment, id, Logged(j, line).records) == Fold(fm, environment, id, j.records)
  {
    if line.Some? {
      FoldAppend(fm, environment, id, j.records, line.value.event);
    }
  }

  lemma {:induction false} FoldUnseen(fm: Formats, environment: string, id: string, events: seq<AuditEvent>)
    requires forall e :: e in events ==> !Relevant(environment, id, e)
    ensures Fold(fm, environment, id, events) == Ok(NO_HISTORY)
  {
    if events == [] {
    } else {
      FoldUnseen(fm, environment, id, events[..|events| - 1]);
    }
  }

  /** The by-ID scan of a request nobody drew yet has seen nothing. */
  lemma FreshIdUnseen(fm: Formats, s: Machine, environment: string, id: string)
    requires LogInv(fm, s) && id !in s.drawn && id != ""
    ensures Fold(fm, environment, id, s.journal.records) == Ok(NO_HISTORY)
  {
    forall e | e in s.journal.records ensures !Relevant(environment, id, e) {
      assert RecordOk(s.drawn, s.attempts, e);
    }
    FoldUnseen(fm, environment, id, s.journal.records);
  }

  /** A record that reaches the readable part of the log extends every scan by itself. */
  predicate Readable(j: Journal, w: Write) {
    !j.damaged && (w == Written || w == Kept)
  }

  lemma LoggedScan(fm: Formats, j: Journal, line: Line, id: string, q: Request)
    ensures var j' := Logged(j, Some(line));
            && (Readable(j, line.write) ==>
                    !j'.damaged && Scan(fm, j', id, q) == Extend(fm, q.environment, id, Scan(fm, j, id, q), line.event))
            && (!Readable(j, line.write) ==>
                    Scan(fm, j', id, q) == Scan(fm, j, id, q) && (j'.damaged || line.write == Lost))
  {
    FoldAppend(fm, q.environment, id, j.records, line.event);
  }

  lemma OpenFollowed(fm: Formats, s: Machine, c: Call, m: Move)
    requires LogInv(fm, s) && CanMove(c, m) && m.Open? && m.id !in s.drawn
    ensures var j := Logged(s.journal, Wrote(fm, c, m));
            Followed(fm, j, m.id, m.request) && InStep(fm, j, After(fm, c, m))
  {
    FreshIdUnseen(fm, s, m.request.environment, m.id);
    LoggedScan(fm, s.journal, Line(RequestedEvent(m.id, m.request), m.write), m.id, m.request);
  }

  lemma QuietFollowed(fm: Formats, j: Journal, d: map<string, Request>, a: seq<Attempt>, c: Call, m: Move)
    requires CallOk(fm, j, d, a, c) && Followed(fm, j, c.id, c.request) && InStep(fm, j, c)
    requires CanMove(c, m) && !m.Open? && !m.Note? && !m.Begin? && !m.Confirm? && !m.Sight? && !m.Complete?
    ensures var j' := Logged(j, Wrote(fm, c, m));
            Followed(fm, j', c.id, c.request) && InStep(fm, j', After(fm, c, m))
  {
  }

  lemma NoteFollowed(fm: Formats, j: Journal, d: map<string, Request>, a: seq<Attempt>, c: Call, m: Move)
    requires CallOk(fm, j, d, a, c) && Followed(fm, j, c.id, c.request) && InStep(fm, j, c)
    requires CanMove(c, m) && m.Note?
    ensures var j' := Logged(j, Wrote(fm, c, m));
            Followed(fm, j', c.id, c.request) && InStep(fm, j', After(fm, c, m))
  {
    if Recoverable(fm, c.id, c.request) {
      LoggedScan(fm, j, Wrote(fm, c, m).value, c.id, c.request);
    }
  }

  lemma CompleteFollowed(fm: Formats, j: Journal, d: map<string, Request>, a: seq<Attempt>, c: Call, m: Move)
    requires CallOk(fm, j, d, a, c) && Followed(fm, j, c.id, c.request) && InStep(fm, j, c)
    requires CanMove(c, m) && m.Complete?
    ensures var j' := Logged(j, Wrote(fm, c, m));
            Followed(fm, j', c.id, c.request) && InStep(fm, j', After(fm, c, m))
  {
    if Recoverable(fm, c.id, c.request) {
      LoggedScan(fm, j, Wrote(fm, c, m).value, c.id, c.request);
    }
  }

  lemma BeginFollowed(fm: Formats, j: Journal, d: map<string, Request>, a: seq<Attempt>, c: Call, m: Move)
    requires CallOk(fm, j, d, a, c) && Followed(fm, j, c.id, c.request) && InStep(fm, j, c)
    requires CanMove(c, m) && m.Begin?
    ensures var j' := Logged(j, Wrote(fm, c, m));
            Followed(fm, j', c.id, c.request) && InStep(fm, j', After(fm, c, m))
  {
    if Wrote(fm, c, m).Some? && Recoverable(fm, c.id, c.request) {
      var e := StartedEvent(c, m.owner);
      LoggedScan(fm, j, Line(e, m.write), c.id, c.request);
      assert e.attributes - {RepositoryOwner} == c.request.attributes;
    }
  }

  lemma ConfirmFollowed(fm: Formats, j: Journal, d: map<string, Request>, a: seq<Attempt>, c: Call, m: Move)
    requires CallOk(fm, j, d, a, c) && Followed(fm, j, c.id, c.request) && InStep(fm, j, c)
    requires CanMove(c, m) && m.Confirm?
    ensures var j' := Logged(j, Wrote(fm, c, m));
            Followed(fm, j', c.id, c.request) && InStep(fm, j', After(fm, c, m))
  {
    if Recoverable(fm, c.id, c.request) {
      LoggedScan(fm, j, Wrote(fm, c, m).value, c.id, c.request);
    }
  }

  /** The record a call writes about its own request is accepted and moves the scan along with it. */
  lemma OwnRecordFollowed(fm: Formats, j: Journal, d: map<string, Request>, a: seq<Attempt>, c: Call, m: Move)
    requires CallOk(fm, j, d, a, c) && Followed(fm, j, c.id, c.request) && InStep(fm, j, c)
    requires CanMove(c, m) && !m.Open? && !m.Sight?
    ensures var j' := Logged(j, Wrote(fm, c, m));
            Followed(fm, j', c.id, c.request) && InStep(fm, j', After(fm, c, m))
  {
    if m.Note? {
      NoteFollowed(fm, j, d, a, c, m);
    } else if m.Complete? {
      CompleteFollowed(fm, j, d, a, c, m);
    } else if m.Begin? {
      BeginFollowed(fm, j, d, a, c, m);
    } else if m.Confirm? {
      ConfirmFollowed(fm, j, d, a, c, m);
    } else {
      QuietFollowed(fm, j, d, a, c, m);
    }
  }

  lemma ObservedIsValid(fm: Formats, id: string, q: Request, started: AuditEvent, e: AuditEvent)
    requires Recoverable(fm, id, q) && started.requestId == id
    requires started.capability == Git && started.action == Push && started.environment == q.environment
    requires started.resource == q.resource
    requires started.attributes - {RepositoryOwner} == q.attributes
    requires exists oid, observer :: e == ObservedEvent(started, oid, observer)
    ensures ValidPushAudit(fm, e)
  {
    forall key: Key | key != RepositoryOwner && key != ObservedOid && key != ObservationRequestId
      ensures Attr(e.attributes, key) == Attr(q.attributes, key)
    {
      assert key in q.attributes <==> key in started.attributes;
    }
  }

  /** An observation of the remote leaves every by-ID scan where it was. */
  lemma SightChangesNoScan(fm: Formats, s: Machine, c: Call, m: Move, id: string)
    requires LogInv(fm, s) && CallOk(fm, s.journal, s.drawn, s.attempts, c) && CanMove(c, m) && m.Sight?
    requires id in s.drawn && id != "" && Recoverable(fm, id, s.drawn[id]) && Followed(fm, s.journal, id, s.drawn[id])
    ensures Scan(fm, Logged(s.journal, Wrote(fm, c, m)), id, s.drawn[id]) == Scan(fm, s.journal, id, s.drawn[id])
  {
    var q := s.drawn[id];
    var e := ObservedEvent(c.target.value, m.oid, c.id);
    assert RecordOk(s.drawn, s.attempts, c.target.value);
    if e.requestId == id {
      FoldAppend(fm, q.environment, id, s.journal.records, e);
      ObservedIsValid(fm, id, q, c.target.value, e);
    } else {
      FoldElsewhere(fm, q.environment, id, s.journal, Wrote(fm, c, m));
    }
  }

  lemma ActKeepsFollowed(fm: Formats, s: Machine, t: nat, m: Move, id: string)
    requires Moving(fm, s, t, m) && RecoveryInv(fm, s) && id in DrawnAfter(s, m)
    ensures Followed(fm, Logged(s.journal, Wrote(fm, s.calls[t], m)), id, DrawnAfter(s, m)[id])
  {
    var c := s.calls[t];
    assert CallOk(fm, s.journal, s.drawn, s.attempts, c);
    if m.Open? && id == m.id {
      OpenFollowed(fm, s, c, m);
    } else if m.Sight? {
      if Recoverable(fm, id, s.drawn[id]) {
        SightChangesNoScan(fm, s, c, m, id);
      }
    } else if id == c.id && !m.Open? {
      OwnRecordFollowed(fm, s.journal, s.drawn, s.attempts, c, m);
    } else {
      FoldElsewhere(fm, s.drawn[id].environment, id, s.journal, Wrote(fm, c, m));
    }
  }

  lemma MoverInStep(fm: Formats, s: Machine, t: nat, m: Move)
    requires Moving(fm, s, t, m) && RecoveryInv(fm, s)
    ensures InStep(fm, Logged(s.journal, Wrote(fm, s.calls[t], m)), After(fm, s.calls[t], m))
  {
    var c := s.calls[t];
    assert CallOk(fm, s.journal, s.drawn, s.attempts, c);
    if m.Open? {
      OpenFollowed(fm, s, c, m);
    } else if !m.Sight? && c.id != "" {
      OwnRecordFollowed(fm, s.journal, s.drawn, s.attempts, c, m);
    }
  }

  lemma InStepKept(fm: Formats, j: Journal, j': Journal, c: Call)
    requires InStep(fm, j, c) && Scan(fm, j', c.id, c.request) == Scan(fm, j, c.id, c.request)
    requires j.damaged ==> j'.damaged
    ensures InStep(fm, j', c)
  {
  }

  /** A call writes about its own request, or, when it reconciles, about the one it looked at. */
  lemma RecordOfOwn(fm: Formats, c: Call, m: Move)
    requires CanMove(c, m) && !m.Sight? && Wrote(fm, c, m).Some? && (Begun(c.phase) ==> c.receipt.requestId == c.id)
    ensures Wrote(fm, c, m).value.event.requestId == if m.Open? then m.id else c.id
  {
  }

  lemma OthersScanKept(fm: Formats, j: Journal, c: Call, m: Move, d: Call)
    requires CanMove(c, m) && !m.Sight? && d.id != c.id && (m.Open? ==> d.id != m.id) && d.id != ""
    requires Begun(c.phase) ==> c.receipt.requestId == c.id
    ensures Scan(fm, Logged(j, Wrote(fm, c, m)), d.id, d.request) == Scan(fm, j, d.id, d.request)
  {
    if Wrote(fm, c, m).Some? {
      RecordOfOwn(fm, c, m);
    }
    FoldElsewhere(fm, d.request.environment, d.id, j, Wrote(fm, c, m));
  }

  lemma OtherInStep(fm: Formats, s: Machine, t: nat, m: Move, u: nat)
    requires Moving(fm, s, t, m) && RecoveryInv(fm, s) && u in s.calls && u != t
    ensures InStep(fm, Logged(s.journal, Wrote(fm, s.calls[t], m)), s.calls[u])
  {
    var c, d, j := s.calls[t], s.calls[u], Logged(s.journal, Wrote(fm, s.calls[t], m));
    assert CallOk(fm, s.journal, s.drawn, s.attempts, c) && CallOk(fm, s.journal, s.drawn, s.attempts, d);
    if d.id != "" && Recoverable(fm, d.id, d.request) {
      assert Scan(fm, j, d.id, d.request) == Scan(fm, s.journal, d.id, d.request) by {
        if m.Sight? {
          SightChangesNoScan(fm, s, c, m, d.id);
        } else {
          OthersScanKept(fm, s.journal, c, m, d);
        }
      }
      InStepKept(fm, s.journal, j, d);
    }
  }

  lemma ActKeepsInStep(fm: Formats, s: Machine, t: nat, m: Move, u: nat)
    requires Moving(fm, s, t, m) && RecoveryInv(fm, s) && u in s.calls
    ensures InStep(fm, Logged(s.journal, Wrote(fm, s.calls[t], m)), s.calls[t := After(fm, s.calls[t], m)][u])
  {
    if u == t {
      MoverInStep(fm, s, t, m);
    } else {
      OtherInStep(fm, s, t, m, u);
    }
  }

  lemma ActKeepsRecovery(fm: Formats, s: Machine, t: nat, m: Move)
    requires Moving(fm, s, t, m) && RecoveryInv(fm, s)
    ensures RecoveryInv(fm, Acted(fm, s, t, m))
  {
    var s' := Acted(fm, s, t, m);
    forall id | id in s'.drawn ensures id != "" && Followed(fm, s'.journal, id, s'.drawn[id]) {
      ActKeepsFollowed(fm, s, t, m, id);
    }
    forall u | u in s'.calls ensures InStep(fm, s'.journal, s'.calls[u]) {
      ActKeepsInStep(fm, s, t, m, u);
    }
  }

  lemma ForeignKeepsRecovery(fm: Formats, s: Machine, e: AuditEvent, w: Write)
    requires RecoveryInv(fm, s) && e.capability != Git
    ensures RecoveryInv(fm, s.(journal := Append(s.journal, e, w)))
  {
    var line := Some(Line(e, w));
    forall id | id in s.drawn ensures Followed(fm, Logged(s.journal, line), id, s.drawn[id]) {
      FoldElsewhere(fm, s.drawn[id].environment, id, s.journal, line);
    }
    forall u | u in s.calls ensures InStep(fm, Logged(s.journal, line), s.calls[u]) {
      FoldElsewhere(fm, s.calls[u].request.environment, s.calls[u].id, s.journal, line);
    }
  }

  lemma StepKeepsRecovery(fm: Formats, s: Machine, step: Step)
    requires MapsInv(s) && LogInv(fm, s) && RecoveryInv(fm, s) && Enabled(fm, s, step)
    ensures RecoveryInv(fm, Next(fm, s, step))
  {
    match step {
      case Act(t, m) => ActKeepsRecovery(fm, s, t, m);
      case Foreign(e, w) => ForeignKeepsRecovery(fm, s, e, w);
      case _ =>
    }
  }

  lemma {:induction false} EveryRunIsRecoverable(fm: Formats, steps: seq<Step>, s: Machine)
    requires Reaches(fm, steps, s)
    ensures RecoveryInv(fm, s)
  {
    if steps == [] {
    } else {
      var n := |steps| - 1;
      var r :| Reaches(fm, steps[..n], r) && Enabled(fm, r, steps[n]) && s == Next(fm, r, steps[n]);
      EveryRunIsRecoverable(fm, steps[..n], r);
      EveryRunIsSafe(fm, steps[..n], r);
      StepKeepsRecovery(fm, r, steps[n]);
    }
  }

  /**
   The by-ID status of a well-formed push request fails only on a damaged log; a record the
   scan would refuse is never written.
   */
  lemma StatusCanAlwaysBeRead(fm: Formats, steps: seq<Step>, s: Machine, id: string, active: set<string>)
    requires Reaches(fm, steps, s)
    requires id in s.drawn && Recoverable(fm, id, s.drawn[id]) && |id| <= 256
    ensures StatusOf(fm, s.journal, s.drawn[id].environment, id, active).Ok? <==> !s.journal.damaged
  {
    EveryRunIsRecoverable(fm, steps, s);
    assert Followed(fm, s.journal, id, s.drawn[id]);
  }
}

/** What every run of the push protocol keeps, for every interleaving, failed write and lost process. */
module PushSafety {
  import opened Wrappers
  import opened PushStatus
  import opened Broker
  import opened PushProtocol

  // ---------------------------------------------------------------------
  // Prepared operations

  ghost predicate Owned(calls: map<nat, Call>, op: string) {
    exists t :: t in calls && calls[t].context == Some(op)
  }

  /** Whatever the broker's maps mention belongs to a call that is still running. */
  ghost predicate AllOwned(m: Maps, calls: map<nat, Call>) {
    forall op :: op in m.operations || op in m.pending || op in m.active ==> Owned(calls, op)
  }

  ghost predicate DistinctContexts(calls: map<nat, Call>) {
    forall t, u :: t in calls && u in calls && t != u && calls[t].context.Some? ==> calls[t].context != calls[u].context
  }

  ghost predicate ContextsPrepared(prepared: map<string, Request>, calls: map<nat, Call>) {
    forall t :: t in calls && calls[t].context.Some? ==> calls[t].context.value in prepared
  }

  /** A request `perform` built for operation `op`. */
  predicate FromBroker(q: Request, op: string) {
    q.capability == Git && RepositoryOwner !in q.attributes && Attr(q.attributes, OperationId) == op
  }

  ghost predicate OperationsPrepared(m: Maps, prepared: map<string, Request>) {
    && (forall op :: op in m.operations ==> op in prepared && m.operations[op] == prepared[op])
    && (forall op :: op in prepared ==> FromBroker(prepared[op], op))
  }

  ghost predicate MapsInv(s: Machine) {
    && Coherent(s.maps)
    && AllOwned(s.maps, s.calls)
    && DistinctContexts(s.calls)
    && ContextsPrepared(s.prepared, s.calls)
    && OperationsPrepared(s.maps, s.prepared)
  }

  ghost predicate SameContexts(a: map<nat, Call>, b: map<nat, Call>) {
    a.Keys == b.Keys && forall t :: t in a ==> a[t].context == b[t].context
  }

  lemma OwnersKept(a: map<nat, Call>, b: map<nat, Call>, op: string)
    requires forall t :: t in a ==> t in b && b[t].context == a[t].context
    requires Owned(a, op)
    ensures Owned(b, op)
  {
    var t :| t in a && a[t].context == Some(op);
    assert t in b && b[t].context == Some(op);
  }

  lemma ContextsKept(m: Maps, m': Maps, prepared: map<string, Request>, a: map<nat, Call>, b: map<nat, Call>)
    requires AllOwned(m, a) && DistinctContexts(a) && ContextsPrepared(prepared, a)
    requires SameContexts(a, b)
    requires m'.operations.Keys <= m.operations.Keys && m'.active <= m.active
    requires forall op :: op in m'.pending ==> op in m.pending || Owned(a, op)
    ensures AllOwned(m', b) && DistinctContexts(b) && ContextsPrepared(prepared, b)
  {
    forall op | op in m'.operations || op in m'.pending || op in m'.active
      ensures Owned(b, op)
    {
      OwnersKept(a, b, op);
    }
  }

  lemma CallAdded(m: Maps, prepared: map<string, Request>, calls: map<nat, Call>, t: nat, c: Call)
    requires AllOwned(m, calls) && DistinctContexts(calls) && ContextsPrepared(prepared, calls)
    requires t !in calls && (c.context.Some? ==> c.context.value !in prepared)
    ensures AllOwned(m, calls[t := c]) && DistinctContexts(calls[t := c])
  {
    forall op | op in m.operations || op in m.pending || op in m.active
      ensures Owned(calls[t := c], op)
    {
      OwnersKept(calls, calls[t := c], op);
    }
  }

  lemma OperationPrepared(m: Maps, prepared: map<string, Request>, calls: map<nat, Call>, op: string, q: Request)
    requires AllOwned(m, calls) && Owned(calls, op)
    requires OperationsPrepared(m, prepared)
    requires FromBroker(q, op)
    ensures AllOwned(Prepared(m, op, q), calls)
    ensures OperationsPrepared(Prepared(m, op, q), prepared[op := q])
  {
  }

  lemma PrepareKeepsMaps(m: Maps, prepared: map<string, Request>, calls: map<nat, Call>, t: nat, c: Call,
          op: string, q: Request)
    requires Coherent(m) && AllOwned(m, calls) && DistinctContexts(calls) && ContextsPrepared(prepared, calls)
    requires OperationsPrepared(m, prepared)
    requires t !in calls && op !in prepared && c.context == Some(op)
    requires FromBroker(q, op)
    ensures Coherent(Prepared(m, op, q)) && AllOwned(Prepared(m, op, q), calls[t := c])
    ensures DistinctContexts(calls[t := c]) && ContextsPrepared(prepared[op := q], calls[t := c])
    ensures OperationsPrepared(Prepared(m, op, q), prepared[op := q])
  {
    CallAdded(m, prepared, calls, t, c);
    assert calls[t := c][t].context == Some(op);
    OperationPrepared(m, prepared, calls[t := c], op, q);
  }

  lemma DecideKeepsMaps(m: Maps, prepared: map<string, Request>, calls: map<nat, Call>, op: string, d: Decision)
    requires Coherent(m) && AllOwned(m, calls) && OperationsPrepared(m, prepared) && op in m.pending
    ensures var m' := Decided(m, op, d); Coherent(m') && AllOwned(m', calls) && OperationsPrepared(m', prepared)
  {
    DecidedCoherent(m, op, d);
  }

  lemma ReturnKeepsMaps(m: Maps, prepared: map<string, Request>, calls: map<nat, Call>, t: nat)
    requires Coherent(m) && AllOwned(m, calls) && DistinctContexts(calls) && t in calls
    requires ContextsPrepared(prepared, calls) && OperationsPrepared(m, prepared)
    ensures var m' := if calls[t].context.None? then m else Returned(m, calls[t].context.value);
            Coherent(m') && AllOwned(m', calls - {t}) && OperationsPrepared(m', prepared)
    ensures DistinctContexts(calls - {t}) && ContextsPrepared(prepared, calls - {t})
  {
    var m' := if calls[t].context.None? then m else Returned(m, calls[t].context.value);
    forall op | op in m'.operations || op in m'.pending || op in m'.active
      ensures Owned(calls - {t}, op)
    {
      assert Owned(calls, op);
      var u :| u in calls && calls[u].context == Some(op);
      assert u in calls - {t};
    }
  }

  lemma AskKeepsMaps(m: Maps, prepared: map<string, Request>, calls: map<nat, Call>, calls': map<nat, Call>,
          t: nat, scope: Option<Request>)
    requires Coherent(m) && AllOwned(m, calls) && DistinctContexts(calls) && ContextsPrepared(prepared, calls)
    requires SameContexts(calls, calls') && t in calls && calls[t].context.Some?
    ensures var m' := Prompted(m, calls[t].context.value, scope);
            Coherent(m') && AllOwned(m', calls') && DistinctContexts(calls') && ContextsPrepared(prepared, calls')
  {
    PromptedCoherent(m, calls[t].context.value, scope);
    assert Owned(calls, calls[t].context.value);
    ContextsKept(m, Prompted(m, calls[t].context.value, scope), prepared, calls, calls');
  }

  lemma MoveKeepsMaps(s: Machine, t: nat, m: Move, calls': map<nat, Call>)
    requires MapsInv(s) && t in s.calls && CanMove(s.calls[t], m) && Fits(s, s.calls[t], m)
    requires SameContexts(s.calls, calls')
    ensures var m' := MapsAfter(s, s.calls[t], m);
            && Coherent(m') && AllOwned(m', calls') && DistinctContexts(calls')
            && ContextsPrepared(s.prepared, calls') && OperationsPrepared(m', s.prepared)
  {
    if m.Ask? {
      AskKeepsMaps(s.maps, s.prepared, s.calls, calls', t, m.scope);
    } else {
      if m.Hear? {
        HeardCoherent(s.maps, s.calls[t].phase.channel);
      }
      ContextsKept(s.maps, MapsAfter(s, s.calls[t], m), s.prepared, s.calls, calls');
    }
  }

  lemma ActKeepsMaps(fm: Formats, s: Machine, t: nat, m: Move)
    requires MapsInv(s) && t in s.calls && CanMove(s.calls[t], m) && Fits(s, s.calls[t], m)
    ensures MapsInv(Acted(fm, s, t, m))
  {
    MoveKeepsMaps(s, t, m, s.calls[t := After(fm, s.calls[t], m)]);
  }

  lemma EntryKeepsMaps(fm: Formats, s: Machine, step: Step)
    requires MapsInv(s) && Enabled(fm, s, step) && (step.Prepare? || step.Submit?)
    ensures MapsInv(Next(fm, s, step))
  {
    if step.Prepare? {
      PrepareKeepsMaps(s.maps, s.prepared, s.calls, step.call, Next(fm, s, step).calls[step.call], step.op,
          RequestOf(step.proposal, step.op, step.instance));
    } else {
      CallAdded(s.maps, s.prepared, s.calls, step.call, Next(fm, s, step).calls[step.call]);
    }
  }

  lemma LeaveKeepsMaps(fm: Formats, s: Machine, step: Step)
    requires MapsInv(s) && Enabled(fm, s, step) && (step.Decide? || step.Return?)
    ensures MapsInv(Next(fm, s, step))
  {
    if step.Decide? {
      DecideKeepsMaps(s.maps, s.prepared, s.calls, step.op, step.decision);
    } else {
      ReturnKeepsMaps(s.maps, s.prepared, s.calls, step.call);
    }
  }

  lemma StepKeepsMaps(fm: Formats, s: Machine, step: Step)
    requires MapsInv(s) && Enabled(fm, s, step)
    ensures MapsInv(Next(fm, s, step))
  {
    match step {
      case Prepare(t, op, p, instance, reconcile) =>
        EntryKeepsMaps(fm, s, step);
      case Submit(t, q) =>
        EntryKeepsMaps(fm, s, step);
      case Act(t, m) =>
        ActKeepsMaps(fm, s, t, m);
      case Decide(op, d) =>
        LeaveKeepsMaps(fm, s, step);
      case Return(t) =>
        LeaveKeepsMaps(fm, s, step);
      case Crash =>
      case Foreign(e, w) =>
    }
  }

  /** Executions so far: each of an operation this broker prepared, in its own context, once. */
  ghost predicate ExecutedInv(s: Machine) {
    ExecutedOk(s.executed, s.prepared, s.maps.operations)
  }

  predicate ExecutedOk(executed: seq<Execution>, prepared: map<string, Request>, operations: map<string, Request>) {
    && (forall k :: 0 <= k < |executed| ==>
          var x := executed[k];
          && x.op in prepared && x.request == prepared[x.op] && x.context == Some(x.op)
          && x.op !in operations)
    && (forall j, k :: 0 <= j < k < |executed| ==> executed[j].op != executed[k].op)
  }

  /** An execution claims its operation; every other step leaves the executed ones claimed. */
  lemma ExecutedKept(s: Machine, s': Machine)
    requires ExecutedInv(s) && s'.executed == s.executed
    requires forall op :: op in s.prepared ==> op in s'.prepared && s'.prepared[op] == s.prepared[op]
    requires forall op :: op in s'.maps.operations && op in s.prepared ==> op in s.maps.operations
    ensures ExecutedInv(s')
  {
  }

  lemma ExecutionAdds(executed: seq<Execution>, prepared: map<string, Request>, operations: map<string, Request>,
          x: Execution)
    requires ExecutedOk(executed, prepared, operations) && x.op in operations
    requires x.op in prepared && x.request == prepared[x.op] && x.context == Some(x.op)
    ensures ExecutedOk(executed + [x], prepared, operations - {x.op})
  {
  }

  lemma ExecuteKeepsExecuted(fm: Formats, s: Machine, t: nat, m: Move)
    requires MapsInv(s) && ExecutedInv(s) && t in s.calls && CanMove(s.calls[t], m) && Fits(s, s.calls[t], m)
    requires m.Execute? && m.admitted
    ensures ExecutedInv(Acted(fm, s, t, m))
  {
    var c := s.calls[t];
    var x := Execution(Attr(c.request.attributes, OperationId), c.request, c.context);
    ExecutionAdds(s.executed, s.prepared, s.maps.operations, x);
  }

  lemma StepKeepsExecuted(fm: Formats, s: Machine, step: Step)
    requires MapsInv(s) && ExecutedInv(s) && Enabled(fm, s, step)
    ensures ExecutedInv(Next(fm, s, step))
  {
    if step.Act? && step.move.Execute? && step.move.admitted {
      ExecuteKeepsExecuted(fm, s, step.call, step.move);
    } else {
      ExecutedKept(s, Next(fm, s, step));
    }
  }

  // ---------------------------------------------------------------------
  // Records and attempts

  predicate PushRecord(e: AuditEvent) {
    e.capability == Git && e.action == Push
  }

  /** Every push record carries the identity of the request drawn under its ID. */
  predicate Belongs(drawn: map<string, Request>, e: AuditEvent) {
    && e.requestId in drawn
    && var q := drawn[e.requestId];
    && e.capability == q.capability && e.action == q.action
    && e.environment == q.environment && e.resource == q.resource && e.instance == q.instance
  }

  /** An attempt for this request that came back with the exact receipt. */
  ghost predicate Receipted(attempts: seq<Attempt>, id: string, attributes: Attributes) {
    exists k :: 0 <= k < |attempts| && attempts[k].id == id && attempts[k].request.attributes == attributes
                && attempts[k].reply.Some? && Exact(attempts[k].request, attempts[k].reply.value)
  }

  /** A record that reached the file, whether or not a damaged line before it keeps it from being read. */
  predicate Durable(j: Journal, e: AuditEvent) {
    e in j.records || e in j.hidden
  }

  ghost predicate StartedFor(j: Journal, id: string, q: Request) {
    exists e :: Durable(j, e) && PushRecord(e) && e.kind == Started && e.requestId == id
      && e.attributes - {RepositoryOwner} == q.attributes
  }

  ghost predicate RecordOk(drawn: map<string, Request>, attempts: seq<Attempt>, e: AuditEvent) {
    PushRecord(e) ==>
      && Belongs(drawn, e)
      && (e.kind == Started ==> e.attributes - {RepositoryOwner} == drawn[e.requestId].attributes)
      && (e.kind == Confirmed ==> Receipted(attempts, e.requestId, e.attributes - {RepositoryOwner}))
  }

  ghost predicate AttemptsOk(journal: Journal, drawn: map<string, Request>, attempts: seq<Attempt>) {
    && (forall k :: 0 <= k < |attempts| ==>
          var a := attempts[k];
          && a.id in drawn && drawn[a.id] == a.request
          && StartedFor(journal, a.id, a.request))
    && (forall j, k :: 0 <= j < k < |attempts| ==> attempts[j].id != attempts[k].id)
  }

  predicate Underway(phase: Phase) {
    phase.Admitted? || phase.Dispatched? || phase.Sent? || phase.Confirming?
  }

  predicate Begun(phase: Phase) {
    phase.Dispatched? || phase.Sent? || phase.Confirming?
  }

  predicate NotYetSent(phase: Phase) {
    phase.Asked? || phase.Waiting? || phase.Denied? || phase.Admitted? || phase.Dispatched?
  }

  /** The receipt in hand is the record that was written ahead of the push. */
  ghost predicate ReceiptOk(fm: Formats, journal: Journal, c: Call) {
    && c.receipt == Event(Started, c.id, c.request, c.receipt.attributes, None)
    && c.receipt.attributes - {RepositoryOwner} == c.request.attributes
    && Beginnable(fm, c.receipt)
    && Durable(journal, c.receipt) && (!journal.damaged ==> c.receipt in journal.records)
  }

  ghost predicate CallOk(fm: Formats, journal: Journal, drawn: map<string, Request>, attempts: seq<Attempt>, c: Call) {
    && (c.target.Some? ==>
          c.target.value in journal.records && PushRecord(c.target.value) && c.target.value.kind == Started)
    && (c.id != "" ==> c.id in drawn && drawn[c.id] == c.request)
    && (c.phase != Entered && c.phase != Finished ==> c.id != "")
    && (Underway(c.phase) ==> c.request.capability == Git && RepositoryOwner !in c.request.attributes)
    && (Begun(c.phase) ==> c.request.action == Push && ReceiptOk(fm, journal, c))
    && (NotYetSent(c.phase) ==> forall k :: 0 <= k < |attempts| ==> attempts[k].id != c.id)
    && (c.phase.Sent? ==> c.phase.attempt < |attempts| && attempts[c.phase.attempt] == Attempt(c.id, c.request, None))
    && (c.phase.Confirming? ==> Receipted(attempts, c.id, c.request.attributes))
  }

  ghost predicate DistinctIds(calls: map<nat, Call>) {
    forall t, u :: t in calls && u in calls && t != u && calls[t].id != "" ==> calls[t].id != calls[u].id
  }

  ghost predicate LogInv(fm: Formats, s: Machine) {
    && (forall e :: e in s.journal.records ==> RecordOk(s.drawn, s.attempts, e))
    && AttemptsOk(s.journal, s.drawn, s.attempts)
    && (forall t :: t in s.calls ==> CallOk(fm, s.journal, s.drawn, s.attempts, s.calls[t]))
    && DistinctIds(s.calls)
    && (!s.journal.damaged ==> s.journal.hidden == [])
  }

  // How the history may change without touching what is already recorded.

  predicate JournalGrows(j: Journal, j': Journal) {
    && j.records <= j'.records && j.hidden <= j'.hidden && (j.damaged ==> j'.damaged)
  }

  predicate DrawnGrows(d: map<string, Request>, d': map<string, Request>) {
    forall id :: id in d ==> id in d' && d'[id] == d[id]
  }

  /** Only request `id` may gain an attempt, or a reply to one that has none. */
  predicate AttemptsGrow(a: seq<Attempt>, a': seq<Attempt>, id: string) {
    && |a| <= |a'|
    && (forall k :: 0 <= k < |a| ==> a'[k].id == a[k].id && a'[k].request == a[k].request)
    && (forall k :: 0 <= k < |a| ==> a[k].id != id || a[k].reply.Some? ==> a'[k] == a[k])
    && (forall k :: |a| <= k < |a'| ==> a'[k].id == id)
  }

  lemma ReceiptedKept(a: seq<Attempt>, a': seq<Attempt>, id: string, other: string, attributes: Attributes)
    requires AttemptsGrow(a, a', id) && Receipted(a, other, attributes)
    ensures Receipted(a', other, attributes)
  {
    var k :| 0 <= k < |a| && a[k].id == other && a[k].request.attributes == attributes
             && a[k].reply.Some? && Exact(a[k].request, a[k].reply.value);
    assert a'[k] == a[k];
  }

  lemma OtherCallKept(fm: Formats, j: Journal, d: map<string, Request>, a: seq<Attempt>,
                      j': Journal, d': map<string, Request>, a': seq<Attempt>, id: string, c: Call)
    requires CallOk(fm, j, d, a, c)
    requires JournalGrows(j, j') && DrawnGrows(d, d') && AttemptsGrow(a, a', id)
    requires c.id != "" ==> c.id != id
    ensures CallOk(fm, j', d', a', c)
  {
    if c.phase.Confirming? {
      ReceiptedKept(a, a', id, c.id, c.request.attributes);
    }
  }

  lemma RecordKept(d: map<string, Request>, a: seq<Attempt>, d': map<string, Request>, a': seq<Attempt>,
          id: string, e: AuditEvent)
    requires RecordOk(d, a, e) && DrawnGrows(d, d') && AttemptsGrow(a, a', id)
    ensures RecordOk(d', a', e)
  {
    if PushRecord(e) && e.kind == Confirmed {
      ReceiptedKept(a, a', id, e.requestId, e.attributes - {RepositoryOwner});
    }
  }

  // One move of one call.

  function Mover(c: Call, m: Move): string {
    if m.Open? then m.id else c.id
  }

  function DrawnAfter(s: Machine, m: Move): map<string, Request> {
    if m.Open? then s.drawn[m.id := m.request] else s.drawn
  }

  ghost predicate Moving(fm: Formats, s: Machine, t: nat, m: Move) {
    MapsInv(s) && LogInv(fm, s) && t in s.calls && CanMove(s.calls[t], m) && Fits(s, s.calls[t], m)
  }

  lemma LoggedGrows(j: Journal, line: Option<Line>)
    ensures JournalGrows(j, Logged(j, line))
  {
  }

  lemma AttemptsAfterGrow(fm: Formats, s: Machine, c: Call, m: Move)
    requires CallOk(fm, s.journal, s.drawn, s.attempts, c) && CanMove(c, m) && Fits(s, c, m)
    ensures AttemptsGrow(s.attempts, AttemptsAfter(s, c, m), Mover(c, m))
  {
  }

  lemma MoveGrows(fm: Formats, s: Machine, t: nat, m: Move)
    requires Moving(fm, s, t, m)
    ensures var c := s.calls[t];
            && JournalGrows(s.journal, Logged(s.journal, Wrote(fm, c, m)))
            && DrawnGrows(s.drawn, DrawnAfter(s, m))
            && AttemptsGrow(s.attempts, AttemptsAfter(s, c, m), Mover(c, m))
  {
    assert CallOk(fm, s.journal, s.drawn, s.attempts, s.calls[t]);
    LoggedGrows(s.journal, Wrote(fm, s.calls[t], m));
    AttemptsAfterGrow(fm, s, s.calls[t], m);
  }

  lemma OpenedCallOk(fm: Formats, s: Machine, t: nat, m: Move)
    requires Moving(fm, s, t, m) && m.Open?
    ensures CallOk(fm, Logged(s.journal, Wrote(fm, s.calls[t], m)), DrawnAfter(s, m), s.attempts,
              After(fm, s.calls[t], m))
  {
    assert CallOk(fm, s.journal, s.drawn, s.attempts, s.calls[t]);
    forall k | 0 <= k < |s.attempts| ensures s.attempts[k].id != m.id {
      assert s.attempts[k].id in s.drawn;
    }
  }

  /** A push gets under way only from a request the broker built, and only behind its started record. */
  lemma BegunCallOk(fm: Formats, j: Journal, d: map<string, Request>, a: seq<Attempt>, c: Call, m: Move)
    requires CallOk(fm, j, d, a, c) && CanMove(c, m) && m.Begin?
    ensures CallOk(fm, Logged(j, Wrote(fm, c, m)), d, a, After(fm, c, m))
  {
    var e := StartedEvent(c, m.owner);
    assert e.attributes - {RepositoryOwner} == c.request.attributes;
  }

  lemma AnsweredCallOk(fm: Formats, s: Machine, c: Call, m: Move)
    requires CallOk(fm, s.journal, s.drawn, s.attempts, c) && CanMove(c, m) && Fits(s, c, m)
    requires m.Answer? || m.Transmit?
    ensures CallOk(fm, s.journal, s.drawn, AttemptsAfter(s, c, m), After(fm, c, m))
  {
    var a' := AttemptsAfter(s, c, m);
    if m.Answer? {
      assert a'[c.phase.attempt] == Attempt(c.id, c.request, Some(m.reply));
    }
  }

  lemma QuietCallOk(fm: Formats, j: Journal, d: map<string, Request>, a: seq<Attempt>, c: Call, m: Move)
    requires CallOk(fm, j, d, a, c) && CanMove(c, m)
    requires !m.Open? && !m.Begin? && !m.Answer? && !m.Transmit?
    requires m.Execute? && m.admitted ==> c.request.capability == Git && RepositoryOwner !in c.request.attributes
    ensures CallOk(fm, Logged(j, Wrote(fm, c, m)), d, a, After(fm, c, m))
  {
  }

  lemma MovedCallOk(fm: Formats, s: Machine, t: nat, m: Move)
    requires Moving(fm, s, t, m)
    ensures var c := s.calls[t];
            CallOk(fm, Logged(s.journal, Wrote(fm, c, m)), DrawnAfter(s, m), AttemptsAfter(s, c, m), After(fm, c, m))
  {
    var c := s.calls[t];
    assert CallOk(fm, s.journal, s.drawn, s.attempts, c);
    if m.Open? {
      OpenedCallOk(fm, s, t, m);
    } else if m.Begin? {
      BegunCallOk(fm, s.journal, s.drawn, s.attempts, c, m);
    } else if m.Answer? || m.Transmit? {
      AnsweredCallOk(fm, s, c, m);
    } else {
      assert m.Execute? && m.admitted ==> FromBroker(c.request, Attr(c.request.attributes, OperationId));
      QuietCallOk(fm, s.journal, s.drawn, s.attempts, c, m);
    }
  }

  lemma WrittenRecordOk(fm: Formats, s: Machine, t: nat, m: Move)
    requires Moving(fm, s, t, m)
    requires Wrote(fm, s.calls[t], m).Some?
    ensures RecordOk(DrawnAfter(s, m), AttemptsAfter(s, s.calls[t], m), Wrote(fm, s.calls[t], m).value.event)
  {
    var c := s.calls[t];
    assert CallOk(fm, s.journal, s.drawn, s.attempts, c);
    if m.Sight? {
      assert RecordOk(s.drawn, s.attempts, c.target.value);
    } else if m.Begin? {
      assert StartedEvent(c, m.owner).attributes - {RepositoryOwner} == c.request.attributes;
    }
  }

  lemma MoveKeepsRecords(fm: Formats, s: Machine, t: nat, m: Move, e: AuditEvent)
    requires Moving(fm, s, t, m)
    requires e in Logged(s.journal, Wrote(fm, s.calls[t], m)).records
    ensures RecordOk(DrawnAfter(s, m), AttemptsAfter(s, s.calls[t], m), e)
  {
    if e in s.journal.records {
      MoveGrows(fm, s, t, m);
      RecordKept(s.drawn, s.attempts, DrawnAfter(s, m), AttemptsAfter(s, s.calls[t], m), Mover(s.calls[t], m), e);
    } else {
      WrittenRecordOk(fm, s, t, m);
    }
  }

  lemma StartedKept(j: Journal, j': Journal, id: string, q: Request)
    requires JournalGrows(j, j') && StartedFor(j, id, q)
    ensures StartedFor(j', id, q)
  {
    var e :| Durable(j, e) && PushRecord(e) && e.kind == Started && e.requestId == id
      && e.attributes - {RepositoryOwner} == q.attributes;
    assert Durable(j', e);
  }

  lemma MoveKeepsAttempts(fm: Formats, s: Machine, t: nat, m: Move)
    requires Moving(fm, s, t, m)
    ensures AttemptsOk(Logged(s.journal, Wrote(fm, s.calls[t], m)), DrawnAfter(s, m), AttemptsAfter(s, s.calls[t], m))
  {
    var c := s.calls[t];
    var j', a' := Logged(s.journal, Wrote(fm, c, m)), AttemptsAfter(s, c, m);
    MoveGrows(fm, s, t, m);
    assert CallOk(fm, s.journal, s.drawn, s.attempts, c);
    forall k | 0 <= k < |a'|
      ensures a'[k].id in DrawnAfter(s, m) && DrawnAfter(s, m)[a'[k].id] == a'[k].request
      ensures StartedFor(j', a'[k].id, a'[k].request)
    {
      if k < |s.attempts| {
        StartedKept(s.journal, j', s.attempts[k].id, s.attempts[k].request);
      } else {
        assert Durable(j', c.receipt);
      }
    }
  }

  lemma MoveKeepsCalls(fm: Formats, s: Machine, t: nat, m: Move, u: nat)
    requires Moving(fm, s, t, m) && u in s.calls
    ensures var s' := Acted(fm, s, t, m);
            CallOk(fm, s'.journal, s'.drawn, s'.attempts, s'.calls[u])
  {
    if u == t {
      MovedCallOk(fm, s, t, m);
    } else {
      var c, d := s.calls[t], s.calls[u];
      MoveGrows(fm, s, t, m);
      assert CallOk(fm, s.journal, s.drawn, s.attempts, d);
      OtherCallKept(fm, s.journal, s.drawn, s.attempts,
                    Logged(s.journal, Wrote(fm, c, m)), DrawnAfter(s, m), AttemptsAfter(s, c, m), Mover(c, m), d);
    }
  }

  lemma MoveKeepsIds(fm: Formats, s: Machine, t: nat, m: Move)
    requires Moving(fm, s, t, m)
    ensures DistinctIds(s.calls[t := After(fm, s.calls[t], m)])
  {
    if m.Open? {
      forall u | u in s.calls && s.calls[u].id != ""
        ensures s.calls[u].id != m.id
      {
        assert CallOk(fm, s.journal, s.drawn, s.attempts, s.calls[u]);
      }
    }
  }

  lemma ActKeepsLog(fm: Formats, s: Machine, t: nat, m: Move)
    requires Moving(fm, s, t, m)
    ensures LogInv(fm, Acted(fm, s, t, m))
  {
    var s' := Acted(fm, s, t, m);
    forall e | e in s'.journal.records ensures RecordOk(s'.drawn, s'.attempts, e) {
      MoveKeepsRecords(fm, s, t, m, e);
    }
    MoveKeepsAttempts(fm, s, t, m);
    forall u | u in s'.calls ensures CallOk(fm, s'.journal, s'.drawn, s'.attempts, s'.calls[u]) {
      MoveKeepsCalls(fm, s, t, m, u);
    }
    MoveKeepsIds(fm, s, t, m);
  }

  // ---------------------------------------------------------------------
  // Every run

  lemma PrepareKeepsLog(fm: Formats, s: Machine, step: Step)
    requires LogInv(fm, s) && Enabled(fm, s, step) && step.Prepare?
    ensures LogInv(fm, Next(fm, s, step))
  {
    var calls := Next(fm, s, step).calls;
    forall u | u in calls ensures CallOk(fm, s.journal, s.drawn, s.attempts, calls[u]) {
      if u != step.call {
        assert calls[u] == s.calls[u];
      } else if step.reconcile.Some? {
        StatusIsRecorded(fm, step.proposal.environment, step.reconcile.value, s.journal.records);
      }
    }
  }

  lemma ForeignKeepsLog(fm: Formats, s: Machine, step: Step)
    requires LogInv(fm, s) && Enabled(fm, s, step) && step.Foreign?
    ensures LogInv(fm, Next(fm, s, step))
  {
    var j' := Append(s.journal, step.event, step.write);
    forall t | t in s.calls ensures CallOk(fm, j', s.drawn, s.attempts, s.calls[t]) {
      assert CallOk(fm, s.journal, s.drawn, s.attempts, s.calls[t]);
    }
    forall k | 0 <= k < |s.attempts| ensures StartedFor(j', s.attempts[k].id, s.attempts[k].request) {
      StartedKept(s.journal, j', s.attempts[k].id, s.attempts[k].request);
    }
  }

  lemma StepKeepsLog(fm: Formats, s: Machine, step: Step)
    requires MapsInv(s) && LogInv(fm, s) && Enabled(fm, s, step)
    ensures LogInv(fm, Next(fm, s, step))
  {
    match step {
      case Prepare(t, op, p, instance, reconcile) => PrepareKeepsLog(fm, s, step);
      case Act(t, m) => ActKeepsLog(fm, s, t, m);
      case Foreign(e, w) => ForeignKeepsLog(fm, s, step);
      case _ =>
    }
  }

  lemma {:induction false} EveryRunIsSafe(fm: Formats, steps: seq<Step>, s: Machine)
    requires Reaches(fm, steps, s)
    ensures MapsInv(s) && ExecutedInv(s) && LogInv(fm, s)
  {
    if steps == [] {
    } else {
      var n := |steps| - 1;
      var r :| Reaches(fm, steps[..n], r) && Enabled(fm, r, steps[n]) && s == Next(fm, r, steps[n]);
      EveryRunIsSafe(fm, steps[..n], r);
      StepKeepsMaps(fm, r, steps[n]);
      StepKeepsExecuted(fm, r, steps[n]);
      StepKeepsLog(fm, r, steps[n]);
    }
  }

  /**
   No external push runs ahead of its durable started record, and none runs twice for one
   request.  Only a damaged log keeps that record from being read, and it answers no status query.
   */
  lemma {:induction false} PushesAreWrittenAhead(fm: Formats, steps: seq<Step>, s: Machine)
    requires Reaches(fm, steps, s)
    ensures forall k :: 0 <= k < |s.attempts| ==> StartedFor(s.journal, s.attempts[k].id, s.attempts[k].request)
    ensures !s.journal.damaged ==> s.journal.hidden == []
    ensures forall j, k :: 0 <= j < k < |s.attempts| ==> s.attempts[j].id != s.attempts[k].id
    ensures s.journal.damaged ==>
              forall environment, id, active :: StatusOf(fm, s.journal, environment, id, active).Err?
  {
    EveryRunIsSafe(fm, steps, s);
  }

  /**
   A status of confirmed, by ID or latest, means an attempt of that very request came back with
   exactly the ref and commit the status names; observations of the remote never produce it.
   */
  lemma ConfirmedMeansReceipt(fm: Formats, steps: seq<Step>, s: Machine, environment: string, id: string,
          active: set<string>)
    requires Reaches(fm, steps, s)
    requires StatusOf(fm, s.journal, environment, id, active).Ok?
    requires StatusOf(fm, s.journal, environment, id, active).value.status.state == ConfirmedState
    ensures var status := StatusOf(fm, s.journal, environment, id, active).value.status;
            exists k :: && 0 <= k < |s.attempts| && s.attempts[k].id == status.requestId
                        && s.attempts[k].reply == Some(Replied(status.ref, status.newOid, ""))
  {
    EveryRunIsSafe(fm, steps, s);
    StatusIsRecorded(fm, environment, id, s.journal.records);
    var status := Fold(fm, environment, id, s.journal.records).value.status;
    var e :| e in s.journal.records && ConfirmedBy(status, environment, e);
    ConfirmedHasReceipt(s, status, environment, e);
  }

  lemma ConfirmedHasReceipt(s: Machine, status: Status, environment: string, e: AuditEvent)
    requires RecordOk(s.drawn, s.attempts, e) && ConfirmedBy(status, environment, e)
    ensures exists k :: && 0 <= k < |s.attempts| && s.attempts[k].id == status.requestId
                        && s.attempts[k].reply == Some(Replied(status.ref, status.newOid, ""))
  {
    var bare := e.attributes - {RepositoryOwner};
    var k :| 0 <= k < |s.attempts| && s.attempts[k].id == e.requestId && s.attempts[k].request.attributes == bare
             && s.attempts[k].reply.Some? && Exact(s.attempts[k].request, s.attempts[k].reply.value);
    assert Attr(bare, TargetRef) == status.ref && Attr(bare, NewOid) == status.newOid;
  }

  /** A prepared operation executes at most once, for the request it was prepared with, in its own context. */
  lemma OperationsExecuteOnce(fm: Formats, steps: seq<Step>, s: Machine)
    requires Reaches(fm, steps, s)
    ensures forall k :: 0 <= k < |s.executed| ==>
              && s.executed[k].op in s.prepared
              && s.executed[k].request == s.prepared[s.executed[k].op]
              && s.executed[k].context == Some(s.executed[k].op)
    ensures forall j, k :: 0 <= j < k < |s.executed| ==> s.executed[j].op != s.executed[k].op
  {
    EveryRunIsSafe(fm, steps, s);
  }

  /** A decision finds its channel empty, so the send made under the broker's mutex never blocks. */
  lemma DecisionsNeverBlock(fm: Formats, steps: seq<Step>, s: Machine, op: string, decision: Decision)
    requires Reaches(fm, steps, s) && op in s.maps.pending
    ensures Enabled(fm, s, Decide(op, decision))
    ensures s.maps.channels[s.maps.pending[op].channel].buffer == []
    ensures forall k :: 0 <= k < |s.maps.channels| ==> s.maps.channels[k].sends <= CAPACITY
    ensures op !in Next(fm, s, Decide(op, decision)).maps.pending
  {
    EveryRunIsSafe(fm, steps, s);
  }

  /** `perform` returns: its call was the operation's only owner. */
  lemma ReturnDisowns(fm: Formats, steps: seq<Step>, s: Machine, t: nat)
    requires Reaches(fm, steps, s) && Enabled(fm, s, Return(t)) && s.calls[t].context.Some?
    ensures s.calls[t].context.value in s.prepared
    ensures !Owned(Next(fm, s, Return(t)).calls, s.calls[t].context.value)
  {
    EveryRunIsSafe(fm, steps, s);
    assert ContextsPrepared(s.prepared, s.calls) && DistinctContexts(s.calls);
  }

  /** When `perform` has returned, its operation is in none of the three maps, and no later step brings it back. */
  lemma ReturnLeavesNothing(fm: Formats, steps: seq<Step>, s: Machine, op: string)
    requires Reaches(fm, steps, s)
    requires op in s.prepared && !Owned(s.calls, op)
    ensures op !in s.maps.operations && op !in s.maps.pending && op !in s.maps.active
    ensures forall step :: Enabled(fm, s, step) ==> !Owned(Next(fm, s, step).calls, op)
  {
    EveryRunIsSafe(fm, steps, s);
    forall step | Enabled(fm, s, step)
      ensures !Owned(Next(fm, s, step).calls, op)
    {
      NotOwnedAgain(fm, s, step, op);
    }
  }

  lemma NotOwnedAgain(fm: Formats, s: Machine, step: Step, op: string)
    requires Enabled(fm, s, step) && op in s.prepared && !Owned(s.calls, op)
    ensures !Owned(Next(fm, s, step).calls, op)
  {
    var s' := Next(fm, s, step);
    forall t | t in s'.calls ensures s'.calls[t].context != Some(op) {
      assert t in s.calls ==> s.calls[t].context != Some(op);
    }
  }
}

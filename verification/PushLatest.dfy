/**
 The latest-request status in every run: exactly when it can be read, and that it agrees with the
 by-ID status of the request it names.
 */
module PushLatest {
  import opened Wrappers
  import opened PushStatus
  import opened Broker
  import opened PushProtocol
  import opened PushSafety
  import opened PushRecovery

  // ---------------------------------------------------------------------
  // What the latest-request scan needs of a log

  /** The last push request opened in this environment. */
  function LastOpening(environment: string, events: seq<AuditEvent>): Option<AuditEvent> {
    if events == [] then None
    else
      var e := events[|events| - 1];
      if Relevant(environment, "", e) && e.kind == Requested then Some(e)
      else LastOpening(environment, events[..|events| - 1])
  }

  /** The last opening is of this record's request, and carries a repository owner of its own. */
  predicate Conflicts(last: Option<AuditEvent>, e: AuditEvent) {
    last.Some? && last.value.requestId == e.requestId && RepositoryOwner in last.value.attributes
  }

  /**
   Every push request recorded in the environment is well formed, and nothing more is recorded of one
   that carries a repository owner while it is the latest.
   */
  predicate Clean(fm: Formats, environment: string, events: seq<AuditEvent>) {
    if events == [] then true
    else
      var n := |events| - 1;
      && Clean(fm, environment, events[..n])
      && (Relevant(environment, "", events[n]) ==>
            if events[n].kind == Requested then ValidPushAudit(fm, events[n])
            else !Conflicts(LastOpening(environment, events[..n]), events[n]))
  }

  lemma {:induction false} LatestFollowsLastOpening(fm: Formats, environment: string, events: seq<AuditEvent>)
    requires Fold(fm, environment, "", events).Ok?
    ensures var h, last := Fold(fm, environment, "", events).value, LastOpening(environment, events);
            && (h.status.found <==> last.Some?)
            && (last.Some? ==> h.requested == last.value && h.status.requestId == last.value.requestId)
  {
    if events == [] {
    } else {
      LatestFollowsLastOpening(fm, environment, events[..|events| - 1]);
    }
  }

  /** A record whose request was not opened before, or one the by-ID scan of the latest request accepts. */
  ghost predicate Expected(fm: Formats, environment: string, events: seq<AuditEvent>, e: AuditEvent) {
    if e.kind == Requested then e.requestId != "" ==> Openings(environment, e.requestId, events) == 0
    else
      && Openings(environment, e.requestId, events) <= 1 && e.requestId != ""
      && (Clean(fm, environment, events) ==> ValidPushAudit(fm, e))
      && var last := LastOpening(environment, events);
      && (Conflicts(last, e) ==> e.kind != Observed)
      && (Clean(fm, environment, events) && last.Some? && last.value.requestId == e.requestId && !Conflicts(last, e) ==>
            Fold(fm, environment, e.requestId, events + [e]).Ok?)
  }

  /** The latest-request scan accepts an expected record exactly when it keeps the log clean. */
  lemma LatestExtends(fm: Formats, environment: string, events: seq<AuditEvent>, e: AuditEvent)
    requires Fold(fm, environment, "", events).Ok? <==> Clean(fm, environment, events)
    requires Relevant(environment, "", e) ==> Expected(fm, environment, events, e)
    ensures Fold(fm, environment, "", events + [e]).Ok? <==> Clean(fm, environment, events + [e])
  {
    assert (events + [e])[..|events|] == events;
    FoldAppend(fm, environment, "", events, e);
    if Relevant(environment, "", e) && Clean(fm, environment, events) {
      LatestFollowsLastOpening(fm, environment, events);
      var h := Fold(fm, environment, "", events).value;
      if e.requestId != "" {
        LatestTracksById(fm, environment, e.requestId, events);
      }
      if e.kind != Requested && h.status.found && h.status.requestId == e.requestId {
        FoldAppend(fm, environment, e.requestId, events, e);
      }
    }
  }

  // ---------------------------------------------------------------------
  // What every run's log is like

  /** Requested records are what was drawn under their IDs, and started ones are well formed. */
  predicate KnownRecord(fm: Formats, drawn: map<string, Request>, e: AuditEvent) {
    PushRecord(e) ==>
      && (e.kind == Requested ==> e.requestId in drawn && e == RequestedEvent(e.requestId, drawn[e.requestId]))
      && (e.kind == Started ==> ValidPushAudit(fm, e))
  }

  /** A call past its opening has its request in an undamaged log. */
  predicate OpenedInLog(j: Journal, c: Call) {
    c.phase != Entered && c.phase != Finished && !j.damaged ==> RequestedEvent(c.id, c.request) in j.records
  }

  ghost predicate OnceOpened(events: seq<AuditEvent>) {
    forall environment, id :: id != "" ==> Openings(environment, id, events) <= 1
  }

  ghost predicate LatestInv(fm: Formats, s: Machine) {
    && (forall e :: e in s.journal.records ==> KnownRecord(fm, s.drawn, e))
    && (forall t :: t in s.calls ==> OpenedInLog(s.journal, s.calls[t]))
    && OnceOpened(s.journal.records)
    && (forall environment :: Fold(fm, environment, "", s.journal.records).Ok? <==>
            Clean(fm, environment, s.journal.records))
  }

  lemma OpeningsAppend(environment: string, id: string, events: seq<AuditEvent>, e: AuditEvent)
    ensures Openings(environment, id, events + [e]) ==
            Openings(environment, id, events) + if Relevant(environment, id, e) && e.kind == Requested then 1 else 0
  {
    assert (events + [e])[..|events|] == events;
  }

  lemma {:induction false} Unopened(environment: string, id: string, events: seq<AuditEvent>)
    requires forall e :: e in events ==> !Relevant(environment, id, e)
    ensures Openings(environment, id, events) == 0
  {
    if events == [] {
    } else {
      assert events[|events| - 1] in events;
      Unopened(environment, id, events[..|events| - 1]);
    }
  }

  lemma FreshUnopened(fm: Formats, s: Machine, environment: string, id: string)
    requires LogInv(fm, s) && id !in s.drawn && id != ""
    ensures Openings(environment, id, s.journal.records) == 0
  {
    forall e | e in s.journal.records
      ensures !Relevant(environment, id, e)
    {
      assert RecordOk(s.drawn, s.attempts, e);
    }
    Unopened(environment, id, s.journal.records);
  }

  /** A record appended to the readable log keeps openings apart unless it opens a request again. */
  predicate Opens(e: AuditEvent) {
    PushRecord(e) && e.kind == Requested && e.requestId != ""
  }

  lemma AppendKeepsOnce(events: seq<AuditEvent>, e: AuditEvent)
    requires OnceOpened(events)
    requires Opens(e) ==> forall environment :: Openings(environment, e.requestId, events) == 0
    ensures OnceOpened(events + [e])
  {
    forall environment, id | id != ""
      ensures Openings(environment, id, events + [e]) <= 1
    {
      OpeningsAppend(environment, id, events, e);
    }
  }

  /** The records a move writes: its opening, or a later record of its own request or of the one it looked at. */
  lemma WrittenRecordIs(fm: Formats, s: Machine, t: nat, m: Move)
    requires Moving(fm, s, t, m) && Wrote(fm, s.calls[t], m).Some?
    ensures var c, e := s.calls[t], Wrote(fm, s.calls[t], m).value.event;
            && (m.Open? <==> e.kind == Requested)
            && (m.Open? ==> e == RequestedEvent(m.id, m.request))
            && (m.Note? || m.Complete? ==>
                    e.requestId == c.id && (ValidPushAudit(fm, e) <==>
                        ValidPushAudit(fm, RequestedEvent(c.id, c.request))))
            && (m.Begin? || m.Confirm? ==> ValidPushAudit(fm, e))
            && (e.kind == Started ==> m.Begin?) && (e.kind == Observed <==> m.Sight?)
  {
    assert CallOk(fm, s.journal, s.drawn, s.attempts, s.calls[t]);
  }

  lemma ActKeepsKnown(fm: Formats, s: Machine, t: nat, m: Move, e: AuditEvent)
    requires Moving(fm, s, t, m) && LatestInv(fm, s) && e in Logged(s.journal, Wrote(fm, s.calls[t], m)).records
    ensures KnownRecord(fm, DrawnAfter(s, m), e)
  {
    if e in s.journal.records {
      assert RecordOk(s.drawn, s.attempts, e) && KnownRecord(fm, s.drawn, e);
    } else {
      WrittenRecordIs(fm, s, t, m);
    }
  }

  lemma OpenedStays(j: Journal, j': Journal, c: Call, c': Call)
    requires OpenedInLog(j, c) && JournalGrows(j, j') && c'.id == c.id && c'.request == c.request
    requires c'.phase != Entered && c'.phase != Finished ==> c.phase != Entered && c.phase != Finished
    ensures OpenedInLog(j', c')
  {
  }

  lemma ActKeepsOpened(fm: Formats, s: Machine, t: nat, m: Move, u: nat)
    requires Moving(fm, s, t, m) && LatestInv(fm, s) && u in s.calls
    ensures OpenedInLog(Logged(s.journal, Wrote(fm, s.calls[t], m)), s.calls[t := After(fm, s.calls[t], m)][u])
  {
    LoggedGrows(s.journal, Wrote(fm, s.calls[t], m));
    assert OpenedInLog(s.journal, s.calls[u]);
    if u != t || !m.Open? {
      OpenedStays(s.journal, Logged(s.journal, Wrote(fm, s.calls[t], m)), s.calls[u],
          s.calls[t := After(fm, s.calls[t], m)][u]);
    }
  }

  lemma LoggedKeepsOnce(j: Journal, line: Option<Line>)
    requires OnceOpened(j.records)
    requires line.Some? && Opens(line.value.event) ==>
               forall environment :: Openings(environment, line.value.event.requestId, j.records) == 0
    ensures OnceOpened(Logged(j, line).records)
  {
    if line.Some? {
      AppendKeepsOnce(j.records, line.value.event);
    }
  }

  lemma FreshEverywhere(fm: Formats, s: Machine, id: string)
    requires LogInv(fm, s) && id !in s.drawn && id != ""
    ensures forall environment :: Openings(environment, id, s.journal.records) == 0
  {
    forall environment
      ensures Openings(environment, id, s.journal.records) == 0
    {
      FreshUnopened(fm, s, environment, id);
    }
  }

  lemma ActKeepsOnce(fm: Formats, s: Machine, t: nat, m: Move)
    requires Moving(fm, s, t, m) && LatestInv(fm, s)
    ensures OnceOpened(Logged(s.journal, Wrote(fm, s.calls[t], m)).records)
  {
    var line := Wrote(fm, s.calls[t], m);
    if line.Some? {
      WrittenRecordIs(fm, s, t, m);
      if m.Open? {
        FreshEverywhere(fm, s, m.id);
      }
    }
    LoggedKeepsOnce(s.journal, line);
  }

  lemma {:induction false} CleanIsValid(fm: Formats, environment: string, events: seq<AuditEvent>, e: AuditEvent)
    requires Clean(fm, environment, events) && e in events && Relevant(environment, "", e) && e.kind == Requested
    ensures ValidPushAudit(fm, e)
  {
    var n := |events| - 1;
    if events[n] == e {
    } else {
      CleanIsValid(fm, environment, events[..n], e);
    }
  }

  lemma ObservedStaysValid(fm: Formats, started: AuditEvent, oid: string, observer: string)
    requires ValidPushAudit(fm, started)
    ensures ValidPushAudit(fm, ObservedEvent(started, oid, observer))
  {
  }

  /** While the log is clean, whatever a move writes of an opened request is well formed. */
  lemma WrittenIsValid(fm: Formats, s: Machine, t: nat, m: Move, environment: string)
    requires Moving(fm, s, t, m) && LatestInv(fm, s) && Wrote(fm, s.calls[t], m).Some? && !m.Open? && !s.journal.damaged
    requires Relevant(environment, "", Wrote(fm, s.calls[t], m).value.event)
    requires Clean(fm, environment, s.journal.records)
    ensures ValidPushAudit(fm, Wrote(fm, s.calls[t], m).value.event)
  {
    var c := s.calls[t];
    assert CallOk(fm, s.journal, s.drawn, s.attempts, c) && OpenedInLog(s.journal, c);
    WrittenRecordIs(fm, s, t, m);
    if m.Note? || m.Complete? {
      CleanIsValid(fm, environment, s.journal.records, RequestedEvent(c.id, c.request));
    } else if m.Sight? {
      assert KnownRecord(fm, s.drawn, c.target.value);
      ObservedStaysValid(fm, c.target.value, m.oid, c.id);
    }
  }

  lemma {:induction false} LastOpeningIsRecorded(environment: string, events: seq<AuditEvent>)
    requires LastOpening(environment, events).Some?
    ensures var e := LastOpening(environment, events).value;
            e in events && Relevant(environment, "", e) && e.kind == Requested
  {
    if events == [] {
    } else if LastOpening(environment, events[..|events| - 1]).Some? {
      LastOpeningIsRecorded(environment, events[..|events| - 1]);
    }
  }

  /** The latest request, if it is clean and without an owner of its own, is one the by-ID scan recovers. */
  lemma LatestIsRecoverable(fm: Formats, s: Machine, environment: string)
    requires LatestInv(fm, s) && Clean(fm, environment, s.journal.records)
    requires LastOpening(environment, s.journal.records).Some?
    requires RepositoryOwner !in LastOpening(environment, s.journal.records).value.attributes
    ensures var id := LastOpening(environment, s.journal.records).value.requestId;
            id in s.drawn && Recoverable(fm, id, s.drawn[id]) && s.drawn[id].environment == environment
  {
    LastOpeningIsRecorded(environment, s.journal.records);
    var e := LastOpening(environment, s.journal.records).value;
    CleanIsValid(fm, environment, s.journal.records, e);
    assert KnownRecord(fm, s.drawn, e);
  }

  /** A request with an owner of its own is never started, so it is never observed. */
  lemma OwnersAreNotObserved(fm: Formats, s: Machine, t: nat, m: Move, environment: string)
    requires Moving(fm, s, t, m) && LatestInv(fm, s) && m.Sight?
    ensures !Conflicts(LastOpening(environment, s.journal.records), Wrote(fm, s.calls[t], m).value.event)
  {
    var c, last := s.calls[t], LastOpening(environment, s.journal.records);
    assert CallOk(fm, s.journal, s.drawn, s.attempts, c);
    if last.Some? && last.value.requestId == c.target.value.requestId {
      LastOpeningIsRecorded(environment, s.journal.records);
      assert KnownRecord(fm, s.drawn, last.value) && RecordOk(s.drawn, s.attempts, c.target.value);
      assert RepositoryOwner !in c.target.value.attributes - {RepositoryOwner};
    }
  }

  /** What a move records of the latest request, the by-ID scan of that request accepts. */
  lemma FollowedIsReadable(fm: Formats, j: Journal, line: Line, id: string, q: Request)
    requires Followed(fm, Logged(j, Some(line)), id, q) && Recoverable(fm, id, q) && Readable(j, line.write)
    ensures Fold(fm, q.environment, id, j.records + [line.event]).Ok?
  {
  }

  lemma ByIdAccepts(fm: Formats, s: Machine, t: nat, m: Move, environment: string)
    requires Moving(fm, s, t, m) && RecoveryInv(fm, s) && LatestInv(fm, s) && !m.Open? && Wrote(fm, s.calls[t], m).Some?
    requires Readable(s.journal, Wrote(fm, s.calls[t], m).value.write) && Clean(fm, environment, s.journal.records)
    requires var e, last := Wrote(fm, s.calls[t], m).value.event, LastOpening(environment, s.journal.records);
             last.Some? && last.value.requestId == e.requestId && !Conflicts(last, e)
    ensures var e := Wrote(fm, s.calls[t], m).value.event;
            Fold(fm, environment, e.requestId, s.journal.records + [e]).Ok?
  {
    var line := Wrote(fm, s.calls[t], m).value;
    LatestIsRecoverable(fm, s, environment);
    ActKeepsFollowed(fm, s, t, m, line.event.requestId);
    FollowedIsReadable(fm, s.journal, line, line.event.requestId, s.drawn[line.event.requestId]);
  }

  lemma LaterIsExpected(fm: Formats, s: Machine, t: nat, m: Move, environment: string)
    requires Moving(fm, s, t, m) && RecoveryInv(fm, s) && LatestInv(fm, s) && !m.Open? && Wrote(fm, s.calls[t], m).Some?
    requires Readable(s.journal, Wrote(fm, s.calls[t], m).value.write)
    requires Relevant(environment, "", Wrote(fm, s.calls[t], m).value.event)
    ensures Expected(fm, environment, s.journal.records, Wrote(fm, s.calls[t], m).value.event)
  {
    var e, last := Wrote(fm, s.calls[t], m).value.event, LastOpening(environment, s.journal.records);
    WrittenRecordIs(fm, s, t, m);
    assert e.requestId in s.drawn && e.requestId != "" by {
      WrittenRecordOk(fm, s, t, m);
    }
    assert Conflicts(last, e) ==> e.kind != Observed by {
      if m.Sight? {
        OwnersAreNotObserved(fm, s, t, m, environment);
      }
    }
    if Clean(fm, environment, s.journal.records) {
      WrittenIsValid(fm, s, t, m, environment);
      if last.Some? && last.value.requestId == e.requestId && !Conflicts(last, e) {
        ByIdAccepts(fm, s, t, m, environment);
      }
    }
  }

  lemma WrittenIsExpected(fm: Formats, s: Machine, t: nat, m: Move, environment: string)
    requires Moving(fm, s, t, m) && RecoveryInv(fm, s) && LatestInv(fm, s) && Wrote(fm, s.calls[t], m).Some?
    requires Readable(s.journal, Wrote(fm, s.calls[t], m).value.write)
    requires Relevant(environment, "", Wrote(fm, s.calls[t], m).value.event)
    ensures Expected(fm, environment, s.journal.records, Wrote(fm, s.calls[t], m).value.event)
  {
    if m.Open? {
      FreshUnopened(fm, s, environment, m.id);
    } else {
      LaterIsExpected(fm, s, t, m, environment);
    }
  }

  lemma LoggedKeepsLatest(fm: Formats, j: Journal, line: Option<Line>, environment: string)
    requires Fold(fm, environment, "", j.records).Ok? <==> Clean(fm, environment, j.records)
    requires line.Some? && Readable(j, line.value.write) && Relevant(environment, "", line.value.event) ==>
               Expected(fm, environment, j.records, line.value.event)
    ensures var events := Logged(j, line).records;
            Fold(fm, environment, "", events).Ok? <==> Clean(fm, environment, events)
  {
    if line.Some? && Readable(j, line.value.write) {
      LatestExtends(fm, environment, j.records, line.value.event);
    }
  }

  lemma ActKeepsLatest(fm: Formats, s: Machine, t: nat, m: Move, environment: string)
    requires Moving(fm, s, t, m) && RecoveryInv(fm, s) && LatestInv(fm, s)
    ensures var events := Logged(s.journal, Wrote(fm, s.calls[t], m)).records;
            Fold(fm, environment, "", events).Ok? <==> Clean(fm, environment, events)
  {
    var line := Wrote(fm, s.calls[t], m);
    if line.Some? && Readable(s.journal, line.value.write) && Relevant(environment, "", line.value.event) {
      WrittenIsExpected(fm, s, t, m, environment);
    }
    LoggedKeepsLatest(fm, s.journal, line, environment);
  }

  lemma ActKeepsLatestInv(fm: Formats, s: Machine, t: nat, m: Move)
    requires Moving(fm, s, t, m) && RecoveryInv(fm, s) && LatestInv(fm, s)
    ensures LatestInv(fm, Acted(fm, s, t, m))
  {
    var s' := Acted(fm, s, t, m);
    forall e | e in s'.journal.records
      ensures KnownRecord(fm, s'.drawn, e)
    {
      ActKeepsKnown(fm, s, t, m, e);
    }
    forall u | u in s'.calls
      ensures OpenedInLog(s'.journal, s'.calls[u])
    {
      ActKeepsOpened(fm, s, t, m, u);
    }
    ActKeepsOnce(fm, s, t, m);
    forall environment
      ensures Fold(fm, environment, "", s'.journal.records).Ok? <==> Clean(fm, environment, s'.journal.records)
    {
      ActKeepsLatest(fm, s, t, m, environment);
    }
  }

  lemma ForeignKeepsLatestInv(fm: Formats, s: Machine, e: AuditEvent, w: Write)
    requires LatestInv(fm, s) && e.capability != Git
    ensures LatestInv(fm, s.(journal := Append(s.journal, e, w)))
  {
    if Readable(s.journal, w) {
      AppendKeepsOnce(s.journal.records, e);
      forall environment
        ensures Fold(fm, environment, "", s.journal.records + [e]).Ok? <==>
                  Clean(fm, environment, s.journal.records + [e])
      {
        LatestExtends(fm, environment, s.journal.records, e);
      }
    }
    forall t | t in s.calls
      ensures OpenedInLog(Append(s.journal, e, w), s.calls[t])
    {
      assert OpenedInLog(s.journal, s.calls[t]);
    }
  }

  lemma StepKeepsLatest(fm: Formats, s: Machine, step: Step)
    requires MapsInv(s) && LogInv(fm, s) && RecoveryInv(fm, s) && LatestInv(fm, s) && Enabled(fm, s, step)
    ensures LatestInv(fm, Next(fm, s, step))
  {
    match step {
      case Act(t, m) => ActKeepsLatestInv(fm, s, t, m);
      case Foreign(e, w) => ForeignKeepsLatestInv(fm, s, e, w);
      case _ =>
    }
  }

  lemma {:induction false} EveryRunKeepsLatest(fm: Formats, steps: seq<Step>, s: Machine)
    requires Reaches(fm, steps, s)
    ensures LatestInv(fm, s)
  {
    if steps == [] {
    } else {
      var n := |steps| - 1;
      var r :| Reaches(fm, steps[..n], r) && Enabled(fm, r, steps[n]) && s == Next(fm, r, steps[n]);
      EveryRunKeepsLatest(fm, steps[..n], r);
      EveryRunIsSafe(fm, steps[..n], r);
      EveryRunIsRecoverable(fm, steps[..n], r);
      StepKeepsLatest(fm, r, steps[n]);
    }
  }

  // ---------------------------------------------------------------------
  // The latest status

  /** In every run the latest status of an environment can be read exactly when the log is undamaged and clean there. */
  lemma LatestIsReadableIff(fm: Formats, steps: seq<Step>, s: Machine, environment: string, active: set<string>)
    requires Reaches(fm, steps, s) && fm.id(environment)
    ensures StatusOf(fm, s.journal, environment, "", active).Ok? <==>
              !s.journal.damaged && Clean(fm, environment, s.journal.records)
  {
    EveryRunKeepsLatest(fm, steps, s);
  }

  lemma {:induction false} RecoverableIsClean(fm: Formats, environment: string, events: seq<AuditEvent>)
    requires forall e :: e in events && Relevant(environment, "", e) && e.kind == Requested ==>
               ValidPushAudit(fm, e) && RepositoryOwner !in e.attributes
    ensures Clean(fm, environment, events)
  {
    if events == [] {
    } else {
      var n := |events| - 1;
      RecoverableIsClean(fm, environment, events[..n]);
      if LastOpening(environment, events[..n]).Some? {
        LastOpeningIsRecorded(environment, events[..n]);
      }
      assert events[n] in events;
    }
  }

  /**
   When every push request recorded in the environment is recoverable, only damage keeps the latest
   status from being read.
   */
  lemma WellFormedRequestsKeepItReadable(fm: Formats, steps: seq<Step>, s: Machine, environment: string,
          active: set<string>)
    requires Reaches(fm, steps, s) && fm.id(environment)
    requires forall e :: e in s.journal.records && Relevant(environment, "", e) && e.kind == Requested ==>
               e.requestId in s.drawn && Recoverable(fm, e.requestId, s.drawn[e.requestId])
    ensures StatusOf(fm, s.journal, environment, "", active).Ok? <==> !s.journal.damaged
  {
    EveryRunKeepsLatest(fm, steps, s);
    forall e | e in s.journal.records && Relevant(environment, "", e) && e.kind == Requested
      ensures ValidPushAudit(fm, e) && RepositoryOwner !in e.attributes
    {
      assert KnownRecord(fm, s.drawn, e);
    }
    RecoverableIsClean(fm, environment, s.journal.records);
  }

  /**
   A run can record a push request that is not well formed, and it makes the latest status of its
   environment unreadable at once and for good, whatever was recorded before and is recorded later.
   */
  lemma MalformedRequestBlocks(fm: Formats, id: string, q: Request, before: seq<AuditEvent>, later: seq<AuditEvent>,
          active: set<string>)
    requires id != "" && q.capability == Git && q.action == Push && !ValidPushAudit(fm, RequestedEvent(id, q))
    ensures exists s ::
              && Reaches(fm, [Submit(0, q), Act(0, Open(id, q, Written))], s)
              && s.journal.records == [RequestedEvent(id, q)]
    ensures var events := before + [RequestedEvent(id, q)] + later;
            StatusOf(fm, Journal(events, false, []), q.environment, "", active).Err?
  {
    var e, open := RequestedEvent(id, q), Open(id, q, Written);
    var steps := [Submit(0, q), Act(0, open)];
    var s1 := Next(fm, INITIAL, Submit(0, q));
    assert steps[..1][..0] == [] && steps[..1][0] == Submit(0, q);
    assert Reaches(fm, [], INITIAL) && Reaches(fm, steps[..1], s1);
    assert Enabled(fm, s1, steps[1]);
    var s2 := Next(fm, s1, steps[1]);
    assert Reaches(fm, steps, s2) && s2.journal.records == [e];
    var events := before + [e] + later;
    assert events[..|before| + 1] == before + [e];
    FoldAppend(fm, q.environment, "", before, e);
    FoldStopsAtFirstError(fm, q.environment, "", events, |before| + 1);
  }

  // ---------------------------------------------------------------------
  // Agreement with the by-ID status

  /** In every run the latest status that is found, under an ID the query takes, is the by-ID status of that request. */
  lemma LatestAgreesInEveryRun(fm: Formats, steps: seq<Step>, s: Machine, environment: string, active: set<string>)
    requires Reaches(fm, steps, s)
    requires StatusOf(fm, s.journal, environment, "", active).Ok?
    requires StatusOf(fm, s.journal, environment, "", active).value.status.found
    requires |StatusOf(fm, s.journal, environment, "", active).value.status.requestId| <= 256
    ensures var latest := StatusOf(fm, s.journal, environment, "", active);
            StatusOf(fm, s.journal, environment, latest.value.status.requestId, active) == latest
  {
    EveryRunKeepsLatest(fm, steps, s);
    var h := Fold(fm, environment, "", s.journal.records).value;
    LatestNamesARequest(fm, environment, s.journal.records);
    LatestTracksById(fm, environment, h.status.requestId, s.journal.records);
  }

  lemma OpeningExtends(fm: Formats, environment: string, id: string, events: seq<AuditEvent>, e: AuditEvent)
    requires ValidPushAudit(fm, e) && e.kind == Requested && Relevant(environment, id, e)
    requires Fold(fm, environment, id, events).Ok?
    ensures var s := Fold(fm, environment, id, events).value.status;
            Fold(fm, environment, id, events + [e]) ==
            if s.found && s.requestId == e.requestId then Err(RecoveryRequired) else Ok(Opened(environment, e))
  {
    FoldAppend(fm, environment, id, events, e);
  }

  lemma OtherExtends(fm: Formats, environment: string, id: string, events: seq<AuditEvent>, e: AuditEvent)
    requires !Relevant(environment, id, e)
    ensures Fold(fm, environment, id, events + [e]) == Fold(fm, environment, id, events)
  {
    FoldAppend(fm, environment, id, events, e);
  }

  lemma ReopenedLatest(fm: Formats, environment: string, a: AuditEvent, b: AuditEvent)
    requires ValidPushAudit(fm, a) && ValidPushAudit(fm, b) && a.requestId != b.requestId
    requires a.kind == Requested && b.kind == Requested && a.environment == b.environment == environment
    ensures Fold(fm, environment, "", [] + [a] + [b] + [a]) == Ok(Opened(environment, a))
  {
    OpeningExtends(fm, environment, "", [], a);
    OpeningExtends(fm, environment, "", [] + [a], b);
    OpeningExtends(fm, environment, "", [] + [a] + [b], a);
  }

  lemma ReopenedById(fm: Formats, environment: string, a: AuditEvent, b: AuditEvent)
    requires ValidPushAudit(fm, a) && a.requestId != b.requestId && a.kind == Requested && a.environment == environment
    ensures Fold(fm, environment, a.requestId, [] + [a] + [b] + [a]).Err?
  {
    OpeningExtends(fm, environment, a.requestId, [], a);
    OtherExtends(fm, environment, a.requestId, [] + [a], b);
    OpeningExtends(fm, environment, a.requestId, [] + [a] + [b], a);
  }

  const ANY := Formats((s: string) => true, (s: string) => true, (s: string) => true, (s: string) => true,
      (s: string) => true)

  function Opening(id: string): AuditEvent {
    AuditEvent(Requested, id, Git, Push, "", "", "", map[NewOid := "1"], None)
  }

  /**
   A log that opens one request, another, and the first again, which no run writes: its latest status is
   found and the by-ID status of the same request fails.
   */
  lemma ReopenedRequestDisagrees(active: set<string>)
    ensures var j := Journal([Opening("a"), Opening("b"), Opening("a")], false, []);
            && StatusOf(ANY, j, "", "", active).Ok? && StatusOf(ANY, j, "", "", active).value.status.requestId == "a"
            && StatusOf(ANY, j, "", "a", active).Err?
  {
    var a, b := Opening("a"), Opening("b");
    ReopenedLatest(ANY, "", a, b);
    ReopenedById(ANY, "", a, b);
    assert [] + [a] + [b] + [a] == [a, b, a];
  }
}

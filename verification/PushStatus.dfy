/**
 Reconstruction of a push's status from the capability audit log
 (internal/git/push_recovery.go).  The log interleaves the records of every
 request; `Fold` is the callback of `pushStatus` run over it, and `Query` is
 the method that runs it.
 */
module PushStatus {
  import opened Wrappers

  const ZERO_OID := "0000000000000000000000000000000000000000"

  /** The capability name "git.repository", or another provider's. */
  datatype Capability = Git | OtherCapability(name: string)

  datatype Action = Push | Fetch | OtherAction(name: string)

  /**
   The record types the scan tells apart: "requested", "git-push-started",
   "git-push-confirmed", "git-push-observed", "completed", and every other type.
   */
  datatype Kind = Requested | Started | Confirmed | Observed | Completed | OtherKind(name: string)

  /** The attribute names the scan reads or the broker writes; `Extra` is any other name. */
  datatype Key =
    | Repository | Remote | TargetRef | OldOid | NewOid | OperationId | UpdateKind
    | RepositoryOwner | ObservedOid | ObservationRequestId | Extra(name: string)

  type Attributes = map<Key, string>

  /** The format checks owned by the Git adapter; every result holds for any choice of them. */
  datatype Formats = Formats(
    id: string -> bool,
    oid: string -> bool,
    headRef: string -> bool,
    remote: string -> bool,
    instance: string -> bool)

  datatype AuditEvent = AuditEvent(
    kind: Kind,
    requestId: string,
    capability: Capability,
    action: Action,
    resource: string,
    environment: string,
    instance: string,
    attributes: Attributes,
    success: Option<bool>)

  /** A Go map lookup: an absent key reads as the empty string. */
  function Attr(attributes: Attributes, key: Key): string {
    if key in attributes then attributes[key] else ""
  }

  predicate ValidPushAudit(fm: Formats, e: AuditEvent) {
    var a := e.attributes;
    && e.requestId != ""
    && e.capability == Git && e.action == Push
    && fm.id(e.environment) && fm.id(Attr(a, Repository)) && fm.id(Attr(a, OperationId))
    && fm.remote(e.resource) && Attr(a, Remote) == e.resource
    && fm.headRef(Attr(a, TargetRef))
    && fm.oid(Attr(a, OldOid)) && fm.oid(Attr(a, NewOid)) && Attr(a, NewOid) != ZERO_OID
  }

  datatype State = UnconfirmedState | ConfirmedState

  datatype Status = Status(
    found: bool,
    requestId: string,
    environment: string,
    repository: string,
    ref: string,
    oldOid: string,
    newOid: string,
    state: State,
    dispatched: bool,
    completed: Option<bool>)

  datatype Error = RecoveryRequired | InvalidArgument | Corrupt

  const NO_EVENT := AuditEvent(OtherKind(""), "", OtherCapability(""), OtherAction(""), "", "", "", map[], None)
  const NO_STATUS := Status(false, "", "", "", "", "", "", UnconfirmedState, false, None)

  /** What the scan carries from record to record. */
  datatype History = History(status: Status, requested: AuditEvent, started: AuditEvent)

  const NO_HISTORY := History(NO_STATUS, NO_EVENT, NO_EVENT)

  predicate Relevant(environment: string, id: string, e: AuditEvent) {
    e.capability == Git && e.action == Push && e.environment == environment && (id != "" ==> e.requestId == id)
  }

  function Opened(environment: string, e: AuditEvent): History {
    var a := e.attributes;
    History(
      Status(true, e.requestId, environment, Attr(a, Repository), Attr(a, TargetRef),
             Attr(a, OldOid), Attr(a, NewOid), UnconfirmedState, false, None),
      e, NO_EVENT)
  }

  /** One relevant, well-formed record that belongs to the request being followed. */
  function Follow(fm: Formats, h: History, e: AuditEvent): Result<History, Error> {
    var s := h.status;
    if e.instance != h.requested.instance || e.resource != h.requested.resource then
      Err(RecoveryRequired)
    else if e.kind != Observed && e.attributes - {RepositoryOwner} != h.requested.attributes then
      Err(RecoveryRequired)
    else if e.kind == Started then
      if s.dispatched || s.completed.Some? || !fm.id(Attr(e.attributes, RepositoryOwner))
        || !fm.instance(e.instance) then
        Err(RecoveryRequired)
      else
        Ok(History(s.(dispatched := true), h.requested, e))
    else if e.kind == Confirmed then
      if !s.dispatched || s.state == ConfirmedState || s.completed.Some? || e.attributes != h.started.attributes then
        Err(RecoveryRequired)
      else
        Ok(h.(status := s.(state := ConfirmedState)))
    else if e.kind == Completed then
      if s.completed.Some? || e.success.None? then
        Err(RecoveryRequired)
      else
        Ok(h.(status := s.(completed := e.success)))
    else
      Ok(h)
  }

  /** The callback `pushStatus` hands to the audit stream; an empty `id` asks for the latest request. */
  function Observe(fm: Formats, environment: string, id: string, h: History, e: AuditEvent): Result<History, Error> {
    if !Relevant(environment, id, e) then Ok(h)
    else if !ValidPushAudit(fm, e) then Err(RecoveryRequired)
    else if e.kind == Requested then
      if h.status.found && e.requestId == h.status.requestId then Err(RecoveryRequired)
      else Ok(Opened(environment, e))
    else if !h.status.found || e.requestId != h.status.requestId then Ok(h)
    else Follow(fm, h, e)
  }

  /** The stream calls back only while no earlier record was refused. */
  function Extend(fm: Formats, environment: string, id: string, r: Result<History, Error>,
          e: AuditEvent): Result<History, Error> {
    if r.Err? then r else Observe(fm, environment, id, r.value, e)
  }

  function Fold(fm: Formats, environment: string, id: string, events: seq<AuditEvent>): Result<History, Error> {
    if events == [] then Ok(NO_HISTORY)
    else
      var n := |events| - 1;
      Extend(fm, environment, id, Fold(fm, environment, id, events[..n]), events[n])
  }

  /** The audit file: its readable records, whether a damaged line follows them, and the records after that line. */
  datatype Journal = Journal(records: seq<AuditEvent>, damaged: bool, hidden: seq<AuditEvent>)

  datatype Answer = Answer(status: Status, active: bool, started: AuditEvent)

  function Answered(h: History, active: set<string>): Answer {
    Answer(h.status, h.status.found && Attr(h.requested.attributes, OperationId) in active, h.started)
  }

  function StatusOf(fm: Formats, journal: Journal, environment: string, id: string,
          active: set<string>): Result<Answer, Error> {
    if !fm.id(environment) || |id| > 256 then Err(InvalidArgument)
    else
      match Fold(fm, environment, id, journal.records)
      case Err(e) => Err(e)
      case Ok(h) => if journal.damaged then Err(Corrupt) else Ok(Answered(h, active))
  }

  /** `pushStatus`: the loop over the audit stream, stopped by the first refused record. */
  method Query(fm: Formats, journal: Journal, environment: string, id: string, active: set<string>)
    returns (r: Result<Answer, Error>)
    ensures r == StatusOf(fm, journal, environment, id, active)
  {
    if !fm.id(environment) || |id| > 256 {
      return Err(InvalidArgument);
    }
    var events := journal.records;
    var h := NO_HISTORY;
    var i := 0;
    while i < |events|
      invariant 0 <= i <= |events|
      invariant Fold(fm, environment, id, events[..i]) == Ok(h)
    {
      assert events[..i + 1][..i] == events[..i];
      var next := Observe(fm, environment, id, h, events[i]);
      if next.Err? {
        FoldStopsAtFirstError(fm, environment, id, events, i + 1);
        return Err(next.error);
      }
      h := next.value;
      i := i + 1;
    }
    assert events[..i] == events;
    if journal.damaged {
      return Err(Corrupt);
    }
    r := Ok(Answered(h, active));
  }

  lemma {:induction false} FoldStopsAtFirstError(fm: Formats, environment: string, id: string,
          events: seq<AuditEvent>, n: nat)
    requires n <= |events|
    requires Fold(fm, environment, id, events[..n]).Err?
    ensures Fold(fm, environment, id, events) == Fold(fm, environment, id, events[..n])
  {
    if n == |events| {
      assert events[..n] == events;
    } else {
      var m := |events| - 1;
      assert events[..m][..n] == events[..n];
      FoldStopsAtFirstError(fm, environment, id, events[..m], n);
    }
  }

  lemma FoldAppend(fm: Formats, environment: string, id: string, events: seq<AuditEvent>, e: AuditEvent)
    ensures Fold(fm, environment, id, events + [e]) == Extend(fm, environment, id, Fold(fm, environment, id, events), e)
  {
    assert (events + [e])[..|events|] == events;
  }

  // ---------------------------------------------------------------------
  // One request's status does not see the others.

  /** The records carrying request `id`. */
  function Only(id: string, events: seq<AuditEvent>): (r: seq<AuditEvent>)
    ensures forall e :: e in r ==> e in events && e.requestId == id
  {
    if events == [] then []
    else
      var n := |events| - 1;
      Only(id, events[..n]) + (if events[n].requestId == id then [events[n]] else [])
  }

  lemma {:induction false} FoldSeesOnlyItsRequest(fm: Formats, environment: string, id: string, events: seq<AuditEvent>)
    requires id != ""
    ensures Fold(fm, environment, id, events) == Fold(fm, environment, id, Only(id, events))
  {
    if events == [] {
    } else {
      var n := |events| - 1;
      FoldSeesOnlyItsRequest(fm, environment, id, events[..n]);
      if events[n].requestId == id {
        FoldAppend(fm, environment, id, Only(id, events[..n]), events[n]);
      } else {
        assert Only(id, events) == Only(id, events[..n]);
      }
    }
  }

  /** Adding, removing or reordering other requests' records never changes a by-ID status. */
  lemma OtherRequestsAreInvisible(fm: Formats, environment: string, id: string, a: seq<AuditEvent>,
          b: seq<AuditEvent>, active: set<string>)
    requires id != ""
    requires Only(id, a) == Only(id, b)
    ensures StatusOf(fm, Journal(a, false, []), environment, id, active) ==
            StatusOf(fm, Journal(b, false, []), environment, id, active)
  {
    FoldSeesOnlyItsRequest(fm, environment, id, a);
    FoldSeesOnlyItsRequest(fm, environment, id, b);
  }

  // ---------------------------------------------------------------------
  // The latest-request status and the by-ID status of that request.

  /** How many times request `id` was opened in this environment. */
  function Openings(environment: string, id: string, events: seq<AuditEvent>): nat {
    if events == [] then 0
    else
      var n := |events| - 1;
      Openings(environment, id, events[..n])
      + (if Relevant(environment, id, events[n]) && events[n].kind == Requested then 1 else 0)
  }

  /** A by-ID scan that succeeds saw its request opened at most once. */
  lemma {:induction false} ByIdOpenings(fm: Formats, environment: string, id: string, events: seq<AuditEvent>)
    requires id != ""
    requires Fold(fm, environment, id, events).Ok?
    ensures var h := Fold(fm, environment, id, events).value;
            && Openings(environment, id, events) <= 1
            && (h.status.found <==> Openings(environment, id, events) == 1)
            && (h.status.found ==> h.status.requestId == id)
            && (!h.status.found ==> h == NO_HISTORY)
  {
    if events == [] {
    } else {
      ByIdOpenings(fm, environment, id, events[..|events| - 1]);
    }
  }

  lemma {:induction false} LatestTracksById(fm: Formats, environment: string, id: string, events: seq<AuditEvent>)
    requires id != ""
    requires Fold(fm, environment, "", events).Ok?
    ensures Openings(environment, id, events) == 0 ==> Fold(fm, environment, id, events) == Ok(NO_HISTORY)
    ensures var latest := Fold(fm, environment, "", events).value;
            latest.status.found && latest.status.requestId == id ==>
              && Openings(environment, id, events) >= 1
              && (Openings(environment, id, events) == 1 ==> Fold(fm, environment, id, events) == Ok(latest))
  {
    if events == [] {
    } else {
      LatestTracksById(fm, environment, id, events[..|events| - 1]);
    }
  }

  /**
   Whenever the latest-request status succeeds, the by-ID status of the request it
   names succeeds exactly when that ID was opened once, and then they are the same.
   */
  lemma LatestAgreesWithById(fm: Formats, events: seq<AuditEvent>, environment: string, active: set<string>)
    requires StatusOf(fm, Journal(events, false, []), environment, "", active).Ok?
    requires StatusOf(fm, Journal(events, false, []), environment, "", active).value.status.found
    ensures var latest := StatusOf(fm, Journal(events, false, []), environment, "", active);
            var id := latest.value.status.requestId;
            var byId := StatusOf(fm, Journal(events, false, []), environment, id, active);
            && id != ""
            && (byId.Ok? <==> Openings(environment, id, events) == 1 && |id| <= 256)
            && (byId.Ok? ==> byId == latest)
  {
    var h := Fold(fm, environment, "", events).value;
    LatestNamesARequest(fm, environment, events);
    LatestTracksById(fm, environment, h.status.requestId, events);
    if Fold(fm, environment, h.status.requestId, events).Ok? {
      ByIdOpenings(fm, environment, h.status.requestId, events);
    }
  }

  lemma {:induction false} LatestNamesARequest(fm: Formats, environment: string, events: seq<AuditEvent>)
    requires Fold(fm, environment, "", events).Ok?
    ensures var s := Fold(fm, environment, "", events).value.status; s.found ==> s.requestId != ""
  {
    if events == [] {
    } else {
      LatestNamesARequest(fm, environment, events[..|events| - 1]);
    }
  }

  // ---------------------------------------------------------------------
  // What a reported status says about the records behind it.

  /** A confirmation record of this request, naming the ref and commit the status names. */
  ghost predicate ConfirmedBy(s: Status, environment: string, e: AuditEvent) {
    && e.capability == Git && e.action == Push && e.environment == environment
    && e.kind == Confirmed && e.requestId == s.requestId
    && Attr(e.attributes, TargetRef) == s.ref && Attr(e.attributes, NewOid) == s.newOid
  }

  /** What a history says it found and dispatched is what the records say. */
  predicate Recorded(environment: string, id: string, h: History, events: seq<AuditEvent>) {
    var s := h.status;
    && (s.found ==> && s.requestId == h.requested.requestId
                    && s.ref == Attr(h.requested.attributes, TargetRef)
                    && s.newOid == Attr(h.requested.attributes, NewOid))
    && (s.dispatched ==> && s.found && h.started in events && Relevant(environment, id, h.started)
                         && h.started.kind == Started && h.started.requestId == s.requestId)
  }

  lemma DispatchStep(fm: Formats, environment: string, id: string, h: History, before: seq<AuditEvent>,
          events: seq<AuditEvent>, e: AuditEvent)
    requires Recorded(environment, id, h, before) && Observe(fm, environment, id, h, e).Ok?
    requires e in events && forall x :: x in before ==> x in events
    ensures Recorded(environment, id, Observe(fm, environment, id, h, e).value, events)
  {
  }

  lemma {:induction false} DispatchIsRecorded(fm: Formats, environment: string, id: string, events: seq<AuditEvent>)
    requires Fold(fm, environment, id, events).Ok?
    ensures Recorded(environment, id, Fold(fm, environment, id, events).value, events)
  {
    if events == [] {
    } else {
      var n := |events| - 1;
      DispatchIsRecorded(fm, environment, id, events[..n]);
      DispatchStep(fm, environment, id, Fold(fm, environment, id, events[..n]).value, events[..n], events, events[n]);
    }
  }

  /** A status that has become confirmed was confirmed by the record just read, or stays as it was. */
  lemma ConfirmationStep(fm: Formats, environment: string, id: string, h: History, e: AuditEvent)
    requires Observe(fm, environment, id, h, e).Ok?
    requires h.status.found ==> && h.status.requestId == h.requested.requestId
                                && h.status.ref == Attr(h.requested.attributes, TargetRef)
                                && h.status.newOid == Attr(h.requested.attributes, NewOid)
    requires h.status.state == ConfirmedState ==> h.status.found
    ensures var s, s' := h.status, Observe(fm, environment, id, h, e).value.status;
            s'.state == ConfirmedState ==>
              && s'.found
              && (ConfirmedBy(s', environment, e)
                  || (s.state == ConfirmedState && s'.requestId == s.requestId && s'.ref == s.ref
                        && s'.newOid == s.newOid))
  {
    assert Attr(e.attributes - {RepositoryOwner}, TargetRef) == Attr(e.attributes, TargetRef);
    assert Attr(e.attributes - {RepositoryOwner}, NewOid) == Attr(e.attributes, NewOid);
  }

  lemma {:induction false} ConfirmationIsRecorded(fm: Formats, environment: string, id: string, events: seq<AuditEvent>)
    requires Fold(fm, environment, id, events).Ok?
    ensures var s := Fold(fm, environment, id, events).value.status;
            s.state == ConfirmedState ==> s.found && exists e :: e in events && ConfirmedBy(s, environment, e)
  {
    if events == [] {
    } else {
      var n := |events| - 1;
      ConfirmationIsRecorded(fm, environment, id, events[..n]);
      DispatchIsRecorded(fm, environment, id, events[..n]);
      var h, h' := Fold(fm, environment, id, events[..n]).value, Fold(fm, environment, id, events).value;
      ConfirmationStep(fm, environment, id, h, events[n]);
      if h'.status.state == ConfirmedState && !ConfirmedBy(h'.status, environment, events[n]) {
        var x :| x in events[..n] && ConfirmedBy(h.status, environment, x);
        assert x in events && ConfirmedBy(h'.status, environment, x);
      }
    }
  }

  /** Nothing in a status is invented: dispatch and confirmation each rest on a record of the same request. */
  lemma StatusIsRecorded(fm: Formats, environment: string, id: string, events: seq<AuditEvent>)
    requires Fold(fm, environment, id, events).Ok?
    ensures var h := Fold(fm, environment, id, events).value;
            && Recorded(environment, id, h, events)
            && (h.status.state == ConfirmedState ==>
                    h.status.found && exists e :: e in events && ConfirmedBy(h.status, environment, e))
  {
    DispatchIsRecorded(fm, environment, id, events);
    ConfirmationIsRecorded(fm, environment, id, events);
  }
}

/**
 The creation receipt protocol (internal/env/creation_receipt.go): a provider that stages a
 creation hands over the native reference once, before anyone sees the environment.
 */
module Receipt {
  import opened Bytes
  import opened Router
  import opened Wrappers

  datatype Runtime = Runtime(ref: seq<byte>, address: string)

  datatype Failure = Incompatible | Refused(code: int) | FromProvider(code: int) | RecoveryRequired(stale: bool)

  /** A native reference that may be qualified: not blank, and not already a route. */
  predicate Qualifiable(v: Runtime) {
    TrimSpace(v.ref) != [] && !(PREFIX <= v.ref)
  }

  function Qualification(id: seq<byte>, v: Runtime): Runtime {
    v.(ref := EncodeRouteRef(id, v.ref))
  }

  /** There was one receipt, and `record` took it. */
  predicate Recorded(id: seq<byte>, record: Runtime -> Option<int>, calls: seq<Runtime>) {
    |calls| == 1 && Qualifiable(calls[0]) && record(Qualification(id, calls[0])).None?
  }

  /** What a provider does: it calls the receipt with these values, whatever it is told, then returns. */
  datatype Behaviour = Behaviour(calls: seq<Runtime>, outcome: Result<Runtime, int>)

  /** The captured variables of one creation, and every value the caller's `record` was run on. */
  class Creation {
    const id: seq<byte>
    const record: Runtime -> Option<int>
    var called: bool
    var owned: Runtime
    var receiptErr: Option<Failure>
    var recorded: seq<Runtime>

    constructor (id: seq<byte>, record: Runtime -> Option<int>)
      ensures this.id == id && this.record == record
      ensures !called && receiptErr.None? && recorded == []
    {
      this.id, this.record := id, record;
      called, receiptErr, recorded := false, None, [];
      owned := Runtime([], "");
    }

    /** The state after the calls made so far, in closed form. */
    ghost predicate After(calls: seq<Runtime>)
      reads this
    {
      && called == (calls != [])
      && (calls == [] ==> receiptErr.None? && recorded == [])
      && (calls != [] ==> recorded == if Qualifiable(calls[0]) then [Qualification(id, calls[0])] else [])
      && (calls != [] && Qualifiable(calls[0]) ==> owned == Qualification(id, calls[0]))
      && (receiptErr.None? <==> calls == [] || Recorded(id, record, calls))
    }

    method Qualify(v: Runtime) returns (r: Result<Runtime, Failure>)
      ensures r == if Qualifiable(v) then Ok(Qualification(id, v)) else Err(Incompatible)
    {
      if TrimSpace(v.ref) == [] || PREFIX <= v.ref {
        return Err(Incompatible);
      }
      r := Ok(v.(ref := EncodeRouteRef(id, v.ref)));
    }

    /** The receipt callback; `calls` are the ones before this. */
    method Receive(native: Runtime, ghost calls: seq<Runtime>) returns (err: Option<Failure>)
      requires After(calls)
      modifies this
      ensures After(calls + [native])
      ensures err == receiptErr
    {
      if called {
        receiptErr := Some(Incompatible);
        return receiptErr;
      }
      called := true;
      var qualified := Qualify(native);
      if qualified.Err? {
        receiptErr := Some(qualified.error);
      } else {
        owned := qualified.value;
        recorded := recorded + [owned];
        var refused := record(owned);
        receiptErr := if refused.Some? then Some(Refused(refused.value)) else None;
      }
      err := receiptErr;
    }
  }

  /** The one behaviour that creates: a single receipt, recorded, for the environment that is returned. */
  predicate Creates(id: seq<byte>, record: Runtime -> Option<int>, b: Behaviour) {
    Recorded(id, record, b.calls) && b.outcome.Ok? && b.outcome.value.ref == b.calls[0].ref
  }

  /**
   `routeCreationReceipt` against any provider behaviour: `record` runs at most once, on the first
   receipt, and the creation succeeds exactly when that run succeeded, no other receipt was sent,
   and the provider returned the same native reference.
   */
  method RouteCreationReceipt(id: seq<byte>, record: Runtime -> Option<int>,
          b: Behaviour) returns (r: Result<Runtime, Failure>, recorded: seq<Runtime>)
    ensures recorded == if b.calls != [] && Qualifiable(b.calls[0]) then [Qualification(id, b.calls[0])] else []
    ensures r.Ok? <==> Creates(id, record, b)
    ensures r.Ok? ==> r.value == Qualification(id, b.outcome.value) && recorded[0].ref == r.value.ref
    ensures r.Err? ==> r.error == if b.outcome.Err? then FromProvider(b.outcome.error)
                                  else RecoveryRequired(Recorded(id, record, b.calls))
  {
    var creation := new Creation(id, record);
    for i := 0 to |b.calls|
      invariant creation.After(b.calls[..i]) && creation.id == id && creation.record == record
    {
      var _ := creation.Receive(b.calls[i], b.calls[..i]);
      assert b.calls[..i] + [b.calls[i]] == b.calls[..i + 1];
    }
    assert b.calls[..|b.calls|] == b.calls;
    recorded := creation.recorded;
    if b.outcome.Err? {
      return Err(FromProvider(b.outcome.error)), recorded;
    }
    if !creation.called || creation.receiptErr.Some? {
      return Err(RecoveryRequired(false)), recorded;
    }
    var routed := creation.Qualify(b.outcome.value);
    EncodeRouteInjective(id, b.outcome.value.ref, b.calls[0].ref);
    if routed.Err? || routed.value.ref != creation.owned.ref {
      return Err(RecoveryRequired(true)), recorded;
    }
    r := Ok(routed.value);
  }
}

/**
 Owned client streams (internal/client/stream_ownership.go, stream.go, service.go): tracking, closing
 and revocation.
 */
module Streams {
  import opened Wrappers

  datatype Binding = Binding(environment: string, instance: string, grant: string)

  type Registry = map<Binding, set<nat>>

  // ---------------------------------------------------------------------
  // Under the registry's mutex

  function At(r: Registry, b: Binding): set<nat> {
    if b in r then r[b] else {}
  }

  function Tracked(r: Registry, b: Binding, c: nat): Registry {
    r[b := At(r, b) + {c}]
  }

  function Forgotten(r: Registry, b: Binding, c: nat): Registry {
    if At(r, b) - {c} == {} then r - {b} else r[b := At(r, b) - {c}]
  }

  /** The service's registry, and the connections that are open; a stream is known by its number. */
  class Service {
    var streams: Registry
    var open: set<nat>

    /** No binding is kept without a stream. */
    predicate Valid()
      reads this
    {
      forall b :: b in streams ==> streams[b] != {}
    }

    constructor ()
      ensures Valid() && streams == map[] && open == {}
    {
      streams, open := map[], {};
    }

    method TrackStream(b: Binding, c: nat)
      requires Valid()
      modifies this
      ensures Valid() && streams == Tracked(old(streams), b, c) && open == old(open) + {c}
    {
      if b !in streams {
        streams := streams[b := {}];
      }
      streams := streams[b := streams[b] + {c}];
      open := open + {c};
    }

    /** The part of `Close` under the mutex. */
    method Forget(b: Binding, c: nat)
      requires Valid()
      modifies this`streams
      ensures Valid() && streams == Forgotten(old(streams), b, c)
    {
      if b in streams {
        streams := streams[b := streams[b] - {c}];
      }
      if b !in streams || streams[b] == {} {
        streams := streams - {b};
      }
    }

    /**
     `closeStreams`, left alone: exactly the binding's streams are closed and forgotten, and no binding
     is kept empty.
     */
    method CloseStreams(b: Binding)
      requires Valid()
      modifies this
      ensures Valid() && streams == old(streams) - {b} && open == old(open) - At(old(streams), b)
    {
      var connections := At(streams, b);
      var closed: set<nat> := {};
      while closed != connections
        invariant Valid() && closed <= connections == At(old(streams), b) && open == old(open) - closed
        invariant streams == Without(old(streams), b, closed)
        decreases |connections - closed|
      {
        var c :| c in connections - closed;
        open := open - {c};
        ForgetOne(old(streams), b, closed, c);
        Forget(b, c);
        closed := closed + {c};
      }
      WithoutAll(old(streams), b);
    }
  }

  /** The registry once these streams of a binding are forgotten. */
  function Without(r: Registry, b: Binding, closed: set<nat>): Registry {
    if closed == {} then r
    else if At(r, b) - closed == {} then r - {b}
    else r[b := At(r, b) - closed]
  }

  lemma ForgetOne(r: Registry, b: Binding, closed: set<nat>, c: nat)
    requires closed <= At(r, b) && c in At(r, b) - closed
    ensures Forgotten(Without(r, b, closed), b, c) == Without(r, b, closed + {c})
  {
    assert At(r, b) - closed != {};
    assert At(Without(r, b, closed), b) == At(r, b) - closed;
    assert At(r, b) - (closed + {c}) == At(r, b) - closed - {c};
  }

  lemma WithoutAll(r: Registry, b: Binding)
    requires b in r ==> r[b] != {}
    ensures Without(r, b, At(r, b)) == r - {b}
  {
    assert b !in r ==> r - {b} == r;
  }

  // ---------------------------------------------------------------------
  // Interleavings

  /** A stream's connection is open; or closed, with its once-only close still running; or closed and forgotten. */
  datatype Phase = Open | Closing | Gone

  /**
   What holds an environment's lifecycle lock: a dial whose grant was checked, or a revocation, with the
   streams it collected.
   */
  datatype Op = Dialing(b: Binding) | Revoking(b: Binding, todo: Option<set<nat>>)

  datatype State = State(streams: Registry, phase: map<nat, Phase>, binding: map<nat, Binding>, granted: set<Binding>,
          ops: map<string, Op>)

  const INITIAL := State(map[], map[], map[], {}, map[])

  datatype Step =
    | Grant(b: Binding)
    | StartDial(b: Binding)
    | Track(env: string, c: nat)
    | FailDial(env: string)
    | StartRevoke(b: Binding)
    | Collect(env: string)
    | FinishRevoke(env: string, revoked: bool)
    | CloseConn(c: nat, revoker: Option<string>)
    | Forget(c: nat)

  predicate Free(s: State, env: string) {
    env !in s.ops
  }

  predicate DialAt(s: State, env: string) {
    env in s.ops && s.ops[env].Dialing?
  }

  predicate RevokeAt(s: State, env: string) {
    env in s.ops && s.ops[env].Revoking?
  }

  /** The revocation of `env` has collected stream `c`. */
  predicate Collected(s: State, env: string, c: nat) {
    RevokeAt(s, env) && s.ops[env].todo.Some? && c in s.ops[env].todo.value
  }

  predicate Enabled(s: State, step: Step) {
    match step
    case Grant(b) => Free(s, b.environment)
    case StartDial(b) => Free(s, b.environment) && b in s.granted
    case Track(env, c) => DialAt(s, env) && c !in s.phase
    case FailDial(env) => DialAt(s, env)
    case StartRevoke(b) => Free(s, b.environment)
    case Collect(env) => RevokeAt(s, env) && s.ops[env].todo.None?
    case FinishRevoke(env, _) =>
      && RevokeAt(s, env) && s.ops[env].todo.Some?
      && forall c :: c in s.ops[env].todo.value ==> c in s.phase && s.phase[c] == Gone
    case CloseConn(c, revoker) => c in s.phase && s.phase[c] == Open
        && (revoker.Some? ==> Collected(s, revoker.value, c))
    case Forget(c) => c in s.phase && c in s.binding && s.phase[c] == Closing
  }

  function Next(s: State, step: Step): State
    requires Enabled(s, step)
  {
    match step
    case Grant(b) => s.(granted := s.granted + {b})
    case StartDial(b) => s.(ops := s.ops[b.environment := Dialing(b)])
    case Track(env, c) =>
      var b := s.ops[env].b;
      s.(streams := Tracked(s.streams, b, c), phase := s.phase[c := Open], binding := s.binding[c := b],
         ops := s.ops - {env})
    case FailDial(env) => s.(ops := s.ops - {env})
    case StartRevoke(b) => s.(ops := s.ops[b.environment := Revoking(b, None)])
    case Collect(env) => s.(ops := s.ops[env := Revoking(s.ops[env].b, Some(At(s.streams, s.ops[env].b)))])
    case FinishRevoke(env, revoked) =>
      s.(granted := if revoked then s.granted - {s.ops[env].b} else s.granted, ops := s.ops - {env})
    case CloseConn(c, _) => s.(phase := s.phase[c := Closing])
    case Forget(c) => s.(phase := s.phase[c := Gone], streams := Forgotten(s.streams, s.binding[c], c))
  }

  /** The state after these steps, each of which must have been possible. */
  function Run(steps: seq<Step>): Option<State>
    decreases |steps|
  {
    if steps == [] then Some(INITIAL)
    else
      var before, step := Run(steps[..|steps| - 1]), steps[|steps| - 1];
      if before.Some? && Enabled(before.value, step) then Some(Next(before.value, step)) else None
  }

  predicate Reaches(steps: seq<Step>, s: State) {
    Run(steps) == Some(s)
  }

  /** The registry holds the streams that are not gone, under their bindings, and no empty set. */
  ghost predicate RegistryInv(streams: Registry, phase: map<nat, Phase>, binding: map<nat, Binding>) {
    && phase.Keys == binding.Keys
    && (forall b :: b in streams ==> streams[b] != {})
    && (forall b, c :: c in At(streams, b) <==> c in phase && phase[c] != Gone && binding[c] == b)
  }

  /** An open stream has its grant. */
  predicate GrantInv(phase: map<nat, Phase>, binding: map<nat, Binding>, granted: set<Binding>) {
    forall c :: c in phase && c in binding && phase[c] == Open ==> binding[c] in granted
  }

  predicate OpInv(phase: map<nat, Phase>, binding: map<nat, Binding>, granted: set<Binding>, env: string, op: Op) {
    op.b.environment == env &&
    match op
    case Dialing(b) => b in granted
    case Revoking(b, None) => true
    case Revoking(b, Some(todo)) =>
      && (forall c :: c in todo ==> c in phase && c in binding && binding[c] == b)
      && (forall c :: c in phase && c in binding && phase[c] == Open && binding[c] == b ==> c in todo)
  }

  predicate OpsInv(phase: map<nat, Phase>, binding: map<nat, Binding>, granted: set<Binding>, ops: map<string, Op>) {
    forall env :: env in ops ==> OpInv(phase, binding, granted, env, ops[env])
  }

  ghost predicate Inv(s: State) {
    && RegistryInv(s.streams, s.phase, s.binding) && GrantInv(s.phase, s.binding, s.granted)
    && OpsInv(s.phase, s.binding, s.granted, s.ops)
  }

  lemma TrackKeeps(s: State, env: string, c: nat)
    requires Inv(s) && Enabled(s, Track(env, c))
    ensures Inv(Next(s, Track(env, c)))
  {
    var s', b := Next(s, Track(env, c)), s.ops[env].b;
    assert forall b' :: At(s'.streams, b') == if b' == b then At(s.streams, b) + {c} else At(s.streams, b');
    forall e | e in s'.ops
      ensures OpInv(s'.phase, s'.binding, s'.granted, e, s'.ops[e])
    {
      assert OpInv(s.phase, s.binding, s.granted, e, s.ops[e]) && OpInv(s.phase, s.binding, s.granted, env, s.ops[env]);
    }
  }

  lemma ForgetKeeps(s: State, c: nat)
    requires Inv(s) && Enabled(s, Forget(c))
    ensures Inv(Next(s, Forget(c)))
  {
    var s', b := Next(s, Forget(c)), s.binding[c];
    assert forall b' :: At(s'.streams, b') == if b' == b then At(s.streams, b) - {c} else At(s.streams, b');
    forall e | e in s'.ops
      ensures OpInv(s'.phase, s'.binding, s'.granted, e, s'.ops[e])
    {
      assert OpInv(s.phase, s.binding, s.granted, e, s.ops[e]);
    }
  }

  lemma CloseKeeps(s: State, c: nat, revoker: Option<string>)
    requires Inv(s) && Enabled(s, CloseConn(c, revoker))
    ensures Inv(Next(s, CloseConn(c, revoker)))
  {
    var s' := Next(s, CloseConn(c, revoker));
    forall e | e in s'.ops
      ensures OpInv(s'.phase, s'.binding, s'.granted, e, s'.ops[e])
    {
      assert OpInv(s.phase, s.binding, s.granted, e, s.ops[e]);
    }
  }

  lemma GrantKeeps(s: State, b: Binding)
    requires Inv(s) && Enabled(s, Grant(b))
    ensures Inv(Next(s, Grant(b)))
  {
    var s' := Next(s, Grant(b));
    forall e | e in s'.ops
      ensures OpInv(s'.phase, s'.binding, s'.granted, e, s'.ops[e])
    {
      assert OpInv(s.phase, s.binding, s.granted, e, s.ops[e]);
    }
  }

  lemma CollectKeeps(s: State, env: string)
    requires Inv(s) && Enabled(s, Collect(env))
    ensures Inv(Next(s, Collect(env)))
  {
    var s' := Next(s, Collect(env));
    assert OpInv(s.phase, s.binding, s.granted, env, s.ops[env]);
    assert OpInv(s'.phase, s'.binding, s'.granted, env, s'.ops[env]);
  }

  lemma FinishKeeps(s: State, env: string, revoked: bool)
    requires Inv(s) && Enabled(s, FinishRevoke(env, revoked))
    ensures Inv(Next(s, FinishRevoke(env, revoked)))
  {
    var s' := Next(s, FinishRevoke(env, revoked));
    assert OpInv(s.phase, s.binding, s.granted, env, s.ops[env]);
    forall e | e in s'.ops
      ensures OpInv(s'.phase, s'.binding, s'.granted, e, s'.ops[e])
    {
      assert OpInv(s.phase, s.binding, s.granted, e, s.ops[e]);
    }
  }

  lemma StepKeeps(s: State, step: Step)
    requires Inv(s) && Enabled(s, step)
    ensures Inv(Next(s, step))
  {
    match step
    case Grant(b) => GrantKeeps(s, b);
    case StartDial(b) =>
    case Track(env, c) => TrackKeeps(s, env, c);
    case FailDial(env) =>
    case StartRevoke(b) =>
    case Collect(env) => CollectKeeps(s, env);
    case FinishRevoke(env, revoked) => FinishKeeps(s, env, revoked);
    case CloseConn(c, revoker) => CloseKeeps(s, c, revoker);
    case Forget(c) => ForgetKeeps(s, c);
  }

  lemma {:induction false} RunsKeep(steps: seq<Step>, s: State)
    requires Reaches(steps, s)
    ensures Inv(s)
    decreases |steps|
  {
    if steps == [] {
    } else {
      var before := Run(steps[..|steps| - 1]).value;
      RunsKeep(steps[..|steps| - 1], before);
      StepKeeps(before, steps[|steps| - 1]);
    }
  }

  /** In every run, once a grant is revoked, and until it is granted again, no stream of its binding is open. */
  lemma RevokedGrantsHaveNoOpenStream(steps: seq<Step>, s: State, c: nat)
    requires Reaches(steps, s) && c in s.phase
    ensures c in s.binding && (s.binding[c] !in s.granted ==> s.phase[c] != Open)
  {
    RunsKeep(steps, s);
  }

  /** The steps a revocation of `env` takes: it collects, closes and forgets what it collected, and finishes. */
  predicate ByRevocation(s: State, env: string, step: Step) {
    || step == Collect(env)
    || (step.FinishRevoke? && step.env == env)
    || (step.CloseConn? && step.revoker == Some(env))
    || (step.Forget? && Collected(s, env, step.c))
  }

  /** A revocation touches no stream, no registered set and no grant of another binding. */
  lemma OtherBindingsAreUntouched(steps: seq<Step>, s: State, step: Step, env: string)
    requires Reaches(steps, s) && Enabled(s, step) && RevokeAt(s, env) && ByRevocation(s, env, step)
    ensures var s', b := Next(s, step), s.ops[env].b;
            && (forall c :: c in s.phase ==>
                    c in s.binding && c in s'.phase && (s.binding[c] != b ==> s'.phase[c] == s.phase[c]))
            && (forall g :: g != b ==> At(s'.streams, g) == At(s.streams, g))
            && (forall g :: g != b ==> (g in s'.granted <==> g in s.granted))
  {
    RunsKeep(steps, s);
    assert OpInv(s.phase, s.binding, s.granted, env, s.ops[env]);
  }

  /** When every close has finished, the registry is exactly the open streams, and has no empty set. */
  lemma RegistryIsTheOpenStreams(steps: seq<Step>, s: State)
    requires Reaches(steps, s)
    ensures forall b :: b in s.streams ==> s.streams[b] != {}
    ensures (forall c :: c in s.phase ==> s.phase[c] != Closing) ==>
              forall b, c :: c in At(s.streams, b) <==>
                c in s.phase && c in s.binding && s.phase[c] == Open && s.binding[c] == b
  {
    RunsKeep(steps, s);
  }

  /** A revocation can always get on: it has something to close or forget, or it can finish. */
  lemma RevocationNeverSticks(steps: seq<Step>, s: State, env: string)
    requires Reaches(steps, s) && RevokeAt(s, env) && s.ops[env].todo.Some?
    ensures Enabled(s, FinishRevoke(env, true))
            || exists c :: Enabled(s, CloseConn(c, Some(env))) || Enabled(s, Forget(c))
  {
    RunsKeep(steps, s);
    assert OpInv(s.phase, s.binding, s.granted, env, s.ops[env]);
    if !Enabled(s, FinishRevoke(env, true)) {
      var c :| c in s.ops[env].todo.value && !(c in s.phase && s.phase[c] == Gone);
      assert Enabled(s, CloseConn(c, Some(env))) || Enabled(s, Forget(c));
    }
  }
}

/** Exclusion of Host setup (internal/composition/host_setup.go): one holder, and waiters on the channel it closes. */
module HostSetup {
  import opened Wrappers

  /** A caller of `acquireHostSetup`: about to lock, waiting on a channel, holding the setup, or returned. */
  datatype Caller = Trying(wait: bool) | Waiting(channel: nat) | Holding(channel: nat) | Returned(acquired: bool)

  /** The stored channel, how often each channel made so far was closed, and the callers. */
  datatype State = State(done: Option<nat>, closes: seq<nat>, callers: map<nat, Caller>)

  const INITIAL := State(None, [], map[])

  // ---------------------------------------------------------------------
  // What happens under the lock

  datatype Exclusion = Exclusion(done: Option<nat>, closes: seq<nat>)

  /** The critical section of one try. */
  function Entered(x: Exclusion, cancelled: bool, wait: bool): (Exclusion, Caller) {
    if cancelled then (x, Returned(false))
    else if x.done.None? then (Exclusion(Some(|x.closes|), x.closes + [0]), Holding(|x.closes|))
    else (x, if wait then Waiting(x.done.value) else Returned(false))
  }

  /** The release closure for a channel. */
  function Released(x: Exclusion, channel: nat): Exclusion
    requires channel < |x.closes|
  {
    Exclusion(None, x.closes[channel := x.closes[channel] + 1])
  }

  /** The fields of the application that the exclusion uses. */
  class App {
    var hostSetupDone: Option<nat>
    var closes: seq<nat>

    ghost function View(): Exclusion
      reads this
    {
      Exclusion(hostSetupDone, closes)
    }

    constructor ()
      ensures View() == Exclusion(None, [])
    {
      hostSetupDone, closes := None, [];
    }

    method Try(cancelled: bool, wait: bool) returns (caller: Caller)
      modifies this
      ensures (View(), caller) == Entered(old(View()), cancelled, wait)
    {
      if cancelled {
        return Returned(false);
      }
      var done := hostSetupDone;
      if done.None? {
        var made := |closes|;
        closes := closes + [0];
        hostSetupDone := Some(made);
        return Holding(made);
      }
      if !wait {
        return Returned(false);
      }
      caller := Waiting(done.value);
    }

    method Release(channel: nat)
      requires channel < |closes|
      modifies this
      ensures View() == Released(old(View()), channel)
    {
      hostSetupDone := None;
      closes := closes[channel := closes[channel] + 1];
    }
  }

  // ---------------------------------------------------------------------
  // Interleavings

  /**
   A caller arrives; tries, with its context cancelled or not; is woken by a closed channel, or
   cancelled, while it waits; releases.
   */
  datatype Step = Arrive(c: nat, wait: bool) | Try(c: nat, cancelled: bool) | Wake(c: nat) | Cancel(c: nat)
          | Release(c: nat)

  predicate Enabled(s: State, step: Step) {
    match step
    case Arrive(c, _) => c !in s.callers
    case Try(c, _) => c in s.callers && s.callers[c].Trying?
    case Wake(c) => c in s.callers && s.callers[c].Waiting? && s.callers[c].channel < |s.closes|
        && s.closes[s.callers[c].channel] > 0
    case Cancel(c) => c in s.callers && s.callers[c].Waiting?
    case Release(c) => c in s.callers && s.callers[c].Holding? && s.callers[c].channel < |s.closes|
  }

  function With(s: State, x: Exclusion, c: nat, caller: Caller): State {
    State(x.done, x.closes, s.callers[c := caller])
  }

  function Next(s: State, step: Step): State
    requires Enabled(s, step)
  {
    var x := Exclusion(s.done, s.closes);
    match step
    case Arrive(c, wait) => With(s, x, c, Trying(wait))
    case Try(c, cancelled) =>
      var (x', caller) := Entered(x, cancelled, s.callers[c].wait);
      With(s, x', c, caller)
    case Wake(c) => With(s, x, c, Trying(true))
    case Cancel(c) => With(s, x, c, Returned(false))
    case Release(c) => With(s, Released(x, s.callers[c].channel), c, Returned(true))
  }

  /** The state after these steps, each of which must have been possible. */
  function Run(steps: seq<Step>): Option<State>
    decreases |steps|
  {
    if steps == [] then Some(INITIAL)
    else
      var before, step := Run(steps[..|steps| - 1]), steps[|steps| - 1];
      if before.Some? && Enabled(before.value, step) then Some(Next(before.value, step)) else None
  }

  predicate Reaches(steps: seq<Step>, s: State) {
    Run(steps) == Some(s)
  }

  /** The stored channel is the last one made and open, and every other channel was closed exactly once. */
  predicate ChannelsInv(done: Option<nat>, closes: seq<nat>) {
    && (done.Some? ==> done.value < |closes|)
    && forall k :: 0 <= k < |closes| ==> closes[k] == if done == Some(k) then 0 else 1
  }

  /** A holder holds the stored channel and a waiter waits on one that was made. */
  predicate CallersInv(done: Option<nat>, closes: seq<nat>, callers: map<nat, Caller>) {
    && (forall c :: c in callers && callers[c].Holding? ==> done == Some(callers[c].channel))
    && (forall c :: c in callers && callers[c].Waiting? ==> callers[c].channel < |closes|)
    && (forall c, d :: c in callers && d in callers && callers[c].Holding? && callers[d].Holding? ==> c == d)
    && (done.Some? ==> exists c :: c in callers && callers[c] == Holding(done.value))
  }

  predicate Inv(s: State) {
    ChannelsInv(s.done, s.closes) && CallersInv(s.done, s.closes, s.callers)
  }

  lemma StillHeld(done: Option<nat>, callers: map<nat, Caller>, c: nat, caller: Caller)
    requires done.Some? ==> exists h :: h in callers && callers[h] == Holding(done.value)
    requires c in callers ==> !callers[c].Holding?
    ensures var callers' := callers[c := caller];
            done.Some? ==> exists h :: h in callers' && callers'[h] == Holding(done.value)
  {
    if done.Some? {
      var h :| h in callers && callers[h] == Holding(done.value);
      assert callers[c := caller][h] == Holding(done.value);
    }
  }

  lemma EnterKeeps(s: State, c: nat, cancelled: bool)
    requires Inv(s) && Enabled(s, Try(c, cancelled))
    ensures Inv(Next(s, Try(c, cancelled)))
  {
    var s' := Next(s, Try(c, cancelled));
    if s'.done == s.done {
      StillHeld(s.done, s.callers, c, s'.callers[c]);
    } else {
      assert s'.callers[c] == Holding(s'.done.value);
    }
  }

  lemma StepKeeps(s: State, step: Step)
    requires Inv(s) && Enabled(s, step)
    ensures Inv(Next(s, step))
  {
    match step
    case Arrive(c, wait) => StillHeld(s.done, s.callers, c, Trying(wait));
    case Try(c, cancelled) => EnterKeeps(s, c, cancelled);
    case Wake(c) => StillHeld(s.done, s.callers, c, Trying(true));
    case Cancel(c) => StillHeld(s.done, s.callers, c, Returned(false));
    case Release(c) =>
  }

  lemma {:induction false} RunsKeep(steps: seq<Step>, s: State)
    requires Reaches(steps, s)
    ensures Inv(s)
    decreases |steps|
  {
    if steps == [] {
    } else {
      var before := Run(steps[..|steps| - 1]).value;
      RunsKeep(steps[..|steps| - 1], before);
      StepKeeps(before, steps[|steps| - 1]);
    }
  }

  /**
   Under every interleaving there is at most one holder, the stored channel is set exactly while there
   is one, and every channel made is closed exactly once, or is the holder's and open.
   */
  lemma OneHolder(steps: seq<Step>, s: State)
    requires Reaches(steps, s)
    ensures forall c, d :: c in s.callers && d in s.callers && s.callers[c].Holding? && s.callers[d].Holding? ==> c == d
    ensures s.done.Some? <==> exists c :: c in s.callers && s.callers[c].Holding?
    ensures forall k :: 0 <= k < |s.closes| ==> s.closes[k] == if s.done == Some(k) then 0 else 1
  {
    RunsKeep(steps, s);
  }

  /** No waiter is left behind: it can go on at once, or after the holder releases, whom nothing stops from doing so. */
  lemma NoWaiterIsStranded(steps: seq<Step>, s: State, c: nat)
    requires Reaches(steps, s) && c in s.callers && s.callers[c].Waiting?
    ensures Enabled(s, Wake(c)) || exists h :: Enabled(s, Release(h)) && Enabled(Next(s, Release(h)), Wake(c))
  {
    RunsKeep(steps, s);
    if !Enabled(s, Wake(c)) {
      var h :| h in s.callers && s.callers[h] == Holding(s.done.value);
      assert Enabled(s, Release(h)) && Enabled(Next(s, Release(h)), Wake(c));
    }
  }

  /** Releasing frees the setup for the next try, and cancelling a waiter never does. */
  lemma OnlyReleaseFrees(s: State, step: Step)
    requires Inv(s) && Enabled(s, step) && s.done.Some?
    ensures Next(s, step).done.None? <==> step.Release?
  {
  }
}

/**
 Restored workspaces (internal/git/restore.go): several native volumes are
 created under one durable record and one reservation of the saved source, and
 any failure is rolled back or left for an explicit, retryable cleanup.

 Every foreign call may succeed, fail, or fail after taking effect.  `World`
 remembers the durable state after each call, so a process lost at any point
 leaves one of the remembered states behind.
 */
module Restore {
  import opened Wrappers

  // ---------------------------------------------------------------------
  // Durable state

  datatype State = Creating | Created | Ready

  datatype Copy = Copy(ref: string, owner: string, state: State)

  /** A restored workspace: one volume of its own, or two or more members. */
  datatype Object = Object(id: string, owner: string, savedFrom: string, state: State, ref: string, members: seq<Copy>)

  function Copies(o: Object): (r: seq<Copy>)
    ensures r != []
  {
    if o.members != [] then o.members else [Copy(o.ref, o.owner, o.state)]
  }

  datatype Name = Name(ref: string, owner: string)

  /** The volumes an object names; its progress does not enter into it. */
  function Names(o: Object): (r: seq<Name>)
    ensures |r| == |Copies(o)|
  {
    seq(|Copies(o)|, i requires 0 <= i < |Copies(o)| => Name(Copies(o)[i].ref, Copies(o)[i].owner))
  }

  predicate Same(a: Object, b: Object) {
    a.id == b.id && a.owner == b.owner && a.savedFrom == b.savedFrom && Names(a) == Names(b)
  }

  /** `validObject`'s rule that an aggregate is ready only when all its members are. */
  predicate Readable(o: Object) {
    o.state == Ready ==> forall i :: 0 <= i < |o.members| ==> o.members[i].state == Ready
  }

  /** A record file; `Torn` is one whose first write was cut short. */
  datatype Record = Torn | Saved(work: Object)

  datatype Reservation = Reservation(savedFrom: string, owner: string)

  /** `inspected` and `published` are history kept for stating properties. */
  datatype Durable = Durable(
    records: map<string, Record>,
    volumes: map<string, string>,
    reservations: map<string, Reservation>,
    inspected: set<string>,
    published: set<string>)

  // ---------------------------------------------------------------------
  // Foreign calls

  /** `Unsure` reports an error although the call took effect; `Partial` also tears a first write. */
  datatype Outcome = Done | Refused | Unsure | Partial

  /** How the n-th call ends: one schedule for the native backend and catalog, one for record saves. */
  datatype Faults = Faults(calls: nat -> Outcome, saves: nat -> Outcome)

  datatype World = World(d: Durable, clock: nat, trace: seq<Durable>)

  function Start(d: Durable): World {
    World(d, 0, [d])
  }

  function Tick(w: World, d: Durable): World {
    World(d, w.clock + 1, w.trace + [d])
  }

  /** A call whose effect is `after`: whether it happened, and whether it is reported as success. */
  function Call(outcome: Outcome, w: World, after: Durable): (World, bool) {
    (Tick(w, if outcome == Refused then w.d else after), outcome == Done)
  }

  /** A call with no durable effect of its own. */
  function Check(f: Faults, w: World): (World, bool) {
    (Tick(w, w.d), f.calls(w.clock) == Done)
  }

  function Reserve(f: Faults, w: World, o: Object): (World, bool) {
    if o.id in w.d.records then (Tick(w, w.d), false)
    else
      var outcome := f.calls(w.clock);
      Call(outcome, w, w.d.(records := w.d.records[o.id := if outcome == Partial then Torn else Saved(o)]))
  }

  function WithRecord(d: Durable, o: Object): Durable {
    var published := if o.state == Ready then d.published + {o.owner} else d.published;
    d.(records := d.records[o.id := Saved(o)], published := published)
  }

  /** `save`: replace the record by rename; an error may come after the rename. */
  function Save(f: Faults, w: World, o: Object): (World, bool) {
    Call(f.saves(w.clock), w, WithRecord(w.d, o))
  }

  function BeginCopy(f: Faults, w: World, o: Object): (World, bool) {
    if o.id in w.d.reservations then (Tick(w, w.d), false)
    else Call(f.calls(w.clock), w, w.d.(reservations := w.d.reservations[o.id := Reservation(o.savedFrom, o.owner)]))
  }

  function Create(f: Faults, w: World, c: Copy): (World, bool) {
    if c.ref in w.d.volumes then (Tick(w, w.d), false)
    else Call(f.calls(w.clock), w, w.d.(volumes := w.d.volumes[c.ref := c.owner]))
  }

  function Inspect(f: Faults, w: World, c: Copy): (World, bool) {
    if c.ref in w.d.volumes && w.d.volumes[c.ref] == c.owner && f.calls(w.clock) == Done
    then (Tick(w, w.d.(inspected := w.d.inspected + {c.owner})), true)
    else (Tick(w, w.d), false)
  }

  /** `DeleteWorkspaceVolume` succeeds only on proven absence and never touches another owner's volume. */
  function Delete(f: Faults, w: World, c: Copy): (World, bool) {
    if c.ref !in w.d.volumes then Check(f, w)
    else if w.d.volumes[c.ref] != c.owner then (Tick(w, w.d), false)
    else Call(f.calls(w.clock), w, w.d.(volumes := w.d.volumes - {c.ref}, inspected := w.d.inspected - {c.owner}))
  }

  datatype Release = Released | Missing | Failed

  function FinishCopy(f: Faults, w: World, o: Object): (World, Release) {
    if o.id !in w.d.reservations then (Tick(w, w.d), if f.calls(w.clock) == Done then Missing else Failed)
    else if w.d.reservations[o.id] != Reservation(o.savedFrom, o.owner) then (Tick(w, w.d), Failed)
    else
      var (w', ok) := Call(f.calls(w.clock), w, w.d.(reservations := w.d.reservations - {o.id}));
      (w', if ok then Released else Failed)
  }

  function Remove(f: Faults, w: World, id: string): (World, bool) {
    if id !in w.d.records then (Tick(w, w.d), false)
    else Call(f.calls(w.clock), w, w.d.(records := w.d.records - {id}))
  }

  // ---------------------------------------------------------------------
  // Cleanup

  /** Delete every copy from the i-th on, carrying on past failures. */
  function DeleteFrom(f: Faults, w: World, copies: seq<Copy>, i: nat): (World, bool)
    requires i <= |copies|
    decreases |copies| - i
  {
    if i == |copies| then (w, true)
    else
      var (w1, ok) := Delete(f, w, copies[i]);
      var (w2, rest) := DeleteFrom(f, w1, copies, i + 1);
      (w2, ok && rest)
  }

  function Cleanup(f: Faults, w: World, o: Object): (World, bool) {
    var (w1, gone) := DeleteFrom(f, w, Copies(o), 0);
    if !gone then (w1, false)
    else
      var (w2, released) := FinishCopy(f, w1, o);
      if released == Failed then (w2, false) else Remove(f, w2, o.id)
  }

  // ---------------------------------------------------------------------
  // Restore

  datatype Result =
    | NotReserved            // nothing was created
    | RolledBack             // failed; the new copies are gone
    | Incomplete(work: Object)
    | ReleasePending(work: Object)
    | Published(work: Object)

  /** The closure `fail`: mark the record as creating, then clean up whatever that returned. */
  function Rollback(f: Faults, w: World, o: Object): (World, Result) {
    var creating := o.(state := Creating);
    var (w1, marked) := Save(f, w, creating);
    var (w2, clean) := Cleanup(f, w1, creating);
    (w2, if clean then RolledBack else Incomplete(creating))
  }

  function SetState(o: Object, i: nat, state: State): (r: Object)
    requires i < |Copies(o)|
    ensures Same(r, o) && |Copies(r)| == |Copies(o)|
  {
    if o.members != [] then
      var r := o.(members := o.members[i := o.members[i].(state := state)]);
      assert Names(r) == Names(o);
      r
    else
      var r := o.(state := state);
      assert Names(r) == Names(o);
      r
  }

  datatype Progress = Progress(world: World, work: Object, ok: bool)

  /** The volume exists: record that, look at it, fill it if its source is a registered Host repository. */
  function Settle(f: Faults, w: World, o: Object, i: nat, registered: bool): (p: Progress)
    requires i < |Copies(o)|
    ensures |Copies(p.work)| == |Copies(o)|
  {
    var created := SetState(o, i, Created);
    var (w1, saved) := Save(f, w, created);
    if !saved then Progress(w1, created, false)
    else
      var (w2, seen) := Inspect(f, w1, Copies(created)[i]);
      if !seen then Progress(w2, created, false)
      else
        var (w3, filled) := if registered then Check(f, w2) else (w2, true);
        if !filled then Progress(w3, created, false)
        else Progress(w3, SetState(created, i, Ready), true)
  }

  /** One turn of the member loop. */
  function Member(f: Faults, w: World, o: Object, i: nat, registered: bool): (p: Progress)
    requires i < |Copies(o)|
    ensures |Copies(p.work)| == |Copies(o)|
  {
    var (w1, live) := Check(f, w);
    if !live then Progress(w1, o, false)
    else
      var (w2, made) := Create(f, w1, Copies(o)[i]);
      if !made then Progress(w2, o, false) else Settle(f, w2, o, i, registered)
  }

  function MembersFrom(f: Faults, w: World, o: Object, registered: seq<bool>, i: nat): (p: Progress)
    requires i <= |Copies(o)| == |registered|
    ensures |Copies(p.work)| == |Copies(o)|
    decreases |Copies(o)| - i
  {
    if i == |Copies(o)| then Progress(w, o, true)
    else
      var p := Member(f, w, o, i, registered[i]);
      if !p.ok then p else MembersFrom(f, p.world, p.work, registered, i + 1)
  }

  /** From all members made to a published copy; `prepare` says whether the caller has data to add first. */
  function Publish(f: Faults, w: World, o: Object, prepare: bool): (World, Result) {
    var creating := o.(state := Creating);
    var (w1, kept) := if prepare then Save(f, w, creating) else (w, true);
    var (w2, prepared) := if prepare && kept then Check(f, w1) else (w1, kept);
    if !prepared then (w2, Incomplete(creating))
    else
      var ready := o.(state := Ready);
      var (w3, saved) := Save(f, w2, ready);
      if !saved then
        if prepare then (w3, Incomplete(creating)) else Rollback(f, w3, ready)
      else
        var (w4, released) := FinishCopy(f, w3, ready);
        (w4, if released == Released then Published(ready) else ReleasePending(ready))
  }

  function RestoreCopy(f: Faults, w: World, o: Object, registered: seq<bool>, prepare: bool): (World, Result)
    requires |Copies(o)| == |registered|
  {
    var (w1, reserved) := Reserve(f, w, o);
    if !reserved then (w1, NotReserved)
    else
      var (w2, begun) := BeginCopy(f, w1, o);
      if !begun then Rollback(f, w2, o)
      else
        var p := MembersFrom(f, w2, o, registered, 0);
        if !p.ok then Rollback(f, p.world, p.work) else Publish(f, p.world, p.work, prepare)
  }

  // ---------------------------------------------------------------------
  // Explicit cleanup and deletion

  datatype Reply = Finished | NotFound | Incompatible | Stale | RecoveryRequired | InvalidArgument | Unfinished

  /** `Get`: a record that is not ready is returned together with a recovery error. */
  function Get(d: Durable, id: string): (Reply, Option<Object>) {
    if id !in d.records then (NotFound, None)
    else
      match d.records[id]
      case Torn => (Incompatible, None)
      case Saved(o) =>
        if o.id != id || !Readable(o) then (Incompatible, None)
        else if o.state != Ready then (RecoveryRequired, Some(o))
        else (Finished, Some(o))
  }

  function CleanupRestored(f: Faults, w: World, id: string): (World, Reply) {
    var (reply, found) := Get(w.d, id);
    if reply == Finished then
      var (w', released) := FinishCopy(f, w, found.value);
      (w', match released case Released => Finished case Missing => Incompatible case Failed => Unfinished)
    else if reply != RecoveryRequired then (w, reply)
    else
      var (w', ok) := Cleanup(f, w, found.value);
      (w', if ok then Finished else Unfinished)
  }

  function DeleteRestored(f: Faults, w: World, expected: Object): (World, Reply) {
    if expected.state != Ready || !Readable(expected) then (w, InvalidArgument)
    else
      var (reply, found) := Get(w.d, expected.id);
      if reply != Finished then (w, reply)
      else if found.value != expected then (w, Stale)
      else
        var current := expected.(state := Creating);
        var (w1, saved) := Save(f, w, current);
        if !saved then (w1, Unfinished)
        else
          var (w2, ok) := Cleanup(f, w1, current);
          (w2, if ok then Finished else Unfinished)
  }

  // ---------------------------------------------------------------------
  // The service

  /** The three operations as the source runs them, with the world they act on. */
  class RepositoryService {
    const faults: Faults
    var w: World

    constructor (faults: Faults, d: Durable)
      ensures this.faults == faults && w == Start(d)
    {
      this.faults, w := faults, Start(d);
    }

    method CleanupCopies(o: Object) returns (ok: bool)
      modifies this
      ensures (w, ok) == Cleanup(faults, old(w), o)
    {
      var copies := Copies(o);
      var gone := true;
      var i := 0;
      while i < |copies|
        invariant 0 <= i <= |copies|
        invariant var (w', rest) := DeleteFrom(faults, w, copies, i);
                  DeleteFrom(faults, old(w), copies, 0) == (w', gone && rest)
      {
        var (w1, deleted) := Delete(faults, w, copies[i]);
        w := w1;
        gone := gone && deleted;
        i := i + 1;
      }
      if !gone {
        return false;
      }
      var (w2, released) := FinishCopy(faults, w, o);
      w := w2;
      if released == Failed {
        return false;
      }
      var (w3, removed) := Remove(faults, w, o.id);
      w := w3;
      ok := removed;
    }

    method Fail(o: Object) returns (r: Result)
      modifies this
      ensures (w, r) == Rollback(faults, old(w), o)
    {
      var creating := o.(state := Creating);
      var (w1, marked) := Save(faults, w, creating);
      w := w1;
      var clean := CleanupCopies(creating);
      r := if clean then RolledBack else Incomplete(creating);
    }

    method RestoreWorkspace(planned: Object, registered: seq<bool>, prepare: bool) returns (r: Result)
      requires |Copies(planned)| == |registered|
      modifies this
      ensures (w, r) == RestoreCopy(faults, old(w), planned, registered, prepare)
    {
      var (w1, reserved) := Reserve(faults, w, planned);
      w := w1;
      if !reserved {
        return NotReserved;
      }
      var (w2, begun) := BeginCopy(faults, w, planned);
      w := w2;
      if !begun {
        r := Fail(planned);
        return;
      }
      var work := planned;
      var i := 0;
      ghost var all := MembersFrom(faults, w, planned, registered, 0);
      while i < |registered|
        invariant 0 <= i <= |registered| == |Copies(work)|
        invariant MembersFrom(faults, w, work, registered, i) == all
      {
        var p := Member(faults, w, work, i, registered[i]);
        w, work := p.world, p.work;
        if !p.ok {
          r := Fail(work);
          return;
        }
        i := i + 1;
      }
      r := PublishObject(work, prepare);
    }

    method PublishObject(o: Object, prepare: bool) returns (r: Result)
      modifies this
      ensures (w, r) == Publish(faults, old(w), o, prepare)
    {
      var work := o;
      if prepare {
        work := work.(state := Creating);
        var (w1, kept) := Save(faults, w, work);
        w := w1;
        if !kept {
          return Incomplete(work);
        }
        var (w2, prepared) := Check(faults, w);
        w := w2;
        if !prepared {
          return Incomplete(work);
        }
      }
      work := work.(state := Ready);
      var (w3, saved) := Save(faults, w, work);
      w := w3;
      if !saved {
        if prepare {
          return Incomplete(work.(state := Creating));
        }
        r := Fail(work);
        return;
      }
      var (w4, released) := FinishCopy(faults, w, work);
      w := w4;
      r := if released == Released then Published(work) else ReleasePending(work);
    }

    method CleanupRestoredWorkspace(id: string) returns (r: Reply)
      modifies this
      ensures (w, r) == CleanupRestored(faults, old(w), id)
    {
      var (reply, found) := Get(w.d, id);
      if reply == Finished {
        var (w1, released) := FinishCopy(faults, w, found.value);
        w := w1;
        return match released case Released => Finished case Missing => Incompatible case Failed => Unfinished;
      }
      if reply != RecoveryRequired {
        return reply;
      }
      var ok := CleanupCopies(found.value);
      r := if ok then Finished else Unfinished;
    }

    method DeleteRestoredCopy(expected: Object) returns (r: Reply)
      modifies this
      ensures (w, r) == DeleteRestored(faults, old(w), expected)
    {
      if expected.state != Ready || !Readable(expected) {
        return InvalidArgument;
      }
      var (reply, found) := Get(w.d, expected.id);
      if reply != Finished {
        return reply;
      }
      if found.value != expected {
        return Stale;
      }
      var current := expected.(state := Creating);
      var (w1, saved) := Save(faults, w, current);
      w := w1;
      if !saved {
        return Unfinished;
      }
      var ok := CleanupCopies(current);
      r := if ok then Finished else Unfinished;
    }
  }
}

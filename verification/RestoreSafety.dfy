/** What every restore, cleanup and deletion keeps, after each of its calls and wherever it is cut short. */
module RestoreSafety {
  import opened Wrappers
  import opened Restore

  // ---------------------------------------------------------------------
  // Invariants of the durable state

  predicate Present(d: Durable, n: Name) {
    n.ref in d.volumes && d.volumes[n.ref] == n.owner
  }

  ghost predicate HasVolume(d: Durable, o: Object) {
    exists n :: n in Names(o) && Present(d, n)
  }

  predicate Holds(d: Durable, id: string) {
    id in d.records && d.records[id].Saved?
  }

  ghost predicate Named(d: Durable, n: Name) {
    exists id :: Holds(d, id) && n in Names(d.records[id].work)
  }

  /** Every volume that is not somebody else's is named by a durable record. */
  ghost predicate AllNamed(foreign: set<string>, d: Durable) {
    forall ref :: ref in d.volumes && d.volumes[ref] !in foreign ==> Named(d, Name(ref, d.volumes[ref]))
  }

  predicate OwnedBy(o: Object, owner: string) {
    exists i :: 0 <= i < |Names(o)| && Names(o)[i].owner == owner
  }

  ghost predicate OwnersDistinct(d: Durable) {
    forall a, b, owner :: Holds(d, a) && Holds(d, b) && a != b && OwnedBy(d.records[a].work, owner) ==>
      !OwnedBy(d.records[b].work, owner)
  }

  /** A reservation always belongs to the copy recorded under the same ID. */
  ghost predicate ReservationsOwned(d: Durable) {
    forall id :: id in d.reservations ==>
      Holds(d, id) && d.reservations[id] == Reservation(d.records[id].work.savedFrom, d.records[id].work.owner)
  }

  /** A ready record was published; one never published keeps its source reserved while it has a volume. */
  ghost predicate RecordsOk(d: Durable) {
    forall id :: Holds(d, id) ==>
      var o := d.records[id].work;
      && o.id == id && Readable(o)
      && (o.state == Ready ==> o.owner in d.published)
      && (o.owner !in d.published && HasVolume(d, o) ==> id in d.reservations)
  }

  ghost predicate Good(foreign: set<string>, d: Durable) {
    AllNamed(foreign, d) && OwnersDistinct(d) && ReservationsOwned(d) && RecordsOk(d)
  }

  ghost predicate Complete(d: Durable, o: Object) {
    forall i :: 0 <= i < |Names(o)| ==> Present(d, Names(o)[i]) && Names(o)[i].owner in d.inspected
  }

  /** Every ready record has all its volumes, each of them inspected. */
  ghost predicate Whole(d: Durable) {
    forall id :: Holds(d, id) && d.records[id].work.state == Ready ==> Complete(d, d.records[id].work)
  }

  /** The record on disk is about this object, whatever its progress says. */
  predicate Working(d: Durable, o: Object) {
    Holds(d, o.id) && Same(d.records[o.id].work, o)
  }

  predicate Unready(d: Durable, id: string) {
    Holds(d, id) && d.records[id].work.state != Ready
  }

  // ---------------------------------------------------------------------
  // One call at a time

  lemma SameHasVolume(d: Durable, a: Object, b: Object)
    requires Same(a, b)
    ensures HasVolume(d, a) <==> HasVolume(d, b)
    ensures forall owner :: OwnedBy(a, owner) <==> OwnedBy(b, owner)
    ensures Complete(d, a) <==> Complete(d, b)
  {
  }

  lemma SaveGood(foreign: set<string>, d: Durable, o: Object)
    requires Good(foreign, d) && Working(d, o) && Readable(o)
    ensures Good(foreign, WithRecord(d, o)) && Working(WithRecord(d, o), o)
  {
    var d' := WithRecord(d, o);
    var x := d.records[o.id].work;
    SameHasVolume(d, x, o);
    forall n | Named(d, n) ensures Named(d', n) {
      var id :| Holds(d, id) && n in Names(d.records[id].work);
      assert Holds(d', id) && n in Names(d'.records[id].work);
    }
    forall id | Holds(d', id)
      ensures var y := d'.records[id].work; HasVolume(d', y) <==> HasVolume(d, d.records[id].work)
    {
    }
    forall a, b, owner | Holds(d', a) && Holds(d', b) && a != b && OwnedBy(d'.records[a].work, owner)
      ensures !OwnedBy(d'.records[b].work, owner)
    {
      assert OwnedBy(d.records[a].work, owner);
    }
  }

  lemma SaveWhole(d: Durable, o: Object)
    requires Whole(d) && (o.state == Ready ==> Complete(d, o))
    ensures Whole(WithRecord(d, o))
  {
    var d' := WithRecord(d, o);
    forall id | Holds(d', id) && d'.records[id].work.state == Ready ensures Complete(d', d'.records[id].work) {
      assert id != o.id ==> Holds(d, id) && Complete(d, d.records[id].work);
    }
  }

  lemma CreateGood(foreign: set<string>, d: Durable, o: Object, n: Name)
    requires Good(foreign, d) && Working(d, o) && o.id in d.reservations && n in Names(o) && n.ref !in d.volumes
    ensures Good(foreign, d.(volumes := d.volumes[n.ref := n.owner]))
  {
    var d' := d.(volumes := d.volumes[n.ref := n.owner]);
    forall ref | ref in d'.volumes && d'.volumes[ref] !in foreign ensures Named(d', Name(ref, d'.volumes[ref])) {
      if ref == n.ref {
        assert Holds(d', o.id) && n in Names(d'.records[o.id].work);
      } else {
        var id :| Holds(d, id) && Name(ref, d.volumes[ref]) in Names(d.records[id].work);
        assert Holds(d', id);
      }
    }
    forall id | Holds(d', id) && d'.records[id].work.owner !in d'.published && HasVolume(d', d'.records[id].work)
      ensures id in d'.reservations
    {
      var y := d.records[id].work;
      var m :| m in Names(y) && Present(d', m);
      if m.ref != n.ref {
        assert Present(d, m) && HasVolume(d, y);
      } else if id != o.id {
        assert m == n;
        var i :| 0 <= i < |Names(o)| && Names(o)[i] == n;
        assert Names(d.records[o.id].work)[i].owner == n.owner;
        assert OwnedBy(d.records[o.id].work, n.owner);
      }
    }
  }

  lemma CreateWhole(d: Durable, n: Name)
    requires Whole(d) && n.ref !in d.volumes
    ensures Whole(d.(volumes := d.volumes[n.ref := n.owner]))
  {
    var d' := d.(volumes := d.volumes[n.ref := n.owner]);
    forall id | Holds(d', id) && d'.records[id].work.state == Ready ensures Complete(d', d'.records[id].work) {
      assert Complete(d, d.records[id].work);
    }
  }

  function Deleted(d: Durable, n: Name): Durable {
    d.(volumes := d.volumes - {n.ref}, inspected := d.inspected - {n.owner})
  }

  lemma DeleteGood(foreign: set<string>, d: Durable, n: Name)
    requires Good(foreign, d)
    ensures Good(foreign, Deleted(d, n))
  {
    var d' := Deleted(d, n);
    forall ref | ref in d'.volumes && d'.volumes[ref] !in foreign ensures Named(d', Name(ref, d'.volumes[ref])) {
      var id :| Holds(d, id) && Name(ref, d.volumes[ref]) in Names(d.records[id].work);
      assert Holds(d', id);
    }
    forall id | Holds(d', id) && HasVolume(d', d'.records[id].work) ensures HasVolume(d, d.records[id].work) {
      var m :| m in Names(d'.records[id].work) && Present(d', m);
      assert Present(d, m);
    }
  }

  /** Deleting a copy of an unready object leaves every ready one untouched: owners are never shared. */
  lemma DeleteWhole(foreign: set<string>, d: Durable, o: Object, n: Name)
    requires Good(foreign, d) && Whole(d) && Working(d, o) && Unready(d, o.id) && n in Names(o) && Present(d, n)
    ensures Whole(Deleted(d, n))
  {
    var d' := Deleted(d, n);
    var k :| 0 <= k < |Names(o)| && Names(o)[k] == n;
    assert Names(d.records[o.id].work)[k].owner == n.owner;
    assert OwnedBy(d.records[o.id].work, n.owner);
    forall id | Holds(d', id) && d'.records[id].work.state == Ready ensures Complete(d', d'.records[id].work) {
      var y := d.records[id].work;
      assert Complete(d, y) && id != o.id && !OwnedBy(y, n.owner);
      forall i | 0 <= i < |Names(y)| ensures Present(d', Names(y)[i]) && Names(y)[i].owner in d'.inspected {
        assert Names(y)[i].owner != n.owner;
      }
    }
  }

  lemma FinishGood(foreign: set<string>, d: Durable, o: Object)
    requires Good(foreign, d) && Working(d, o)
    requires o.owner in d.published || !HasVolume(d, o)
    ensures Good(foreign, d.(reservations := d.reservations - {o.id}))
  {
    var d' := d.(reservations := d.reservations - {o.id});
    SameHasVolume(d, d.records[o.id].work, o);
    forall n | Named(d, n) ensures Named(d', n) {
      var id :| Holds(d, id) && n in Names(d.records[id].work);
      assert Holds(d', id);
    }
    forall id | Holds(d', id) ensures HasVolume(d', d'.records[id].work) <==> HasVolume(d, d.records[id].work) {
    }
  }

  lemma RemoveGood(foreign: set<string>, d: Durable, o: Object)
    requires Good(foreign, d) && Working(d, o) && o.id !in d.reservations
    requires forall n :: n in Names(o) ==> n.ref !in d.volumes
    ensures Good(foreign, d.(records := d.records - {o.id}))
    ensures Whole(d) ==> Whole(d.(records := d.records - {o.id}))
  {
    var d' := d.(records := d.records - {o.id});
    forall ref | ref in d'.volumes && d'.volumes[ref] !in foreign ensures Named(d', Name(ref, d'.volumes[ref])) {
      var id :| Holds(d, id) && Name(ref, d.volumes[ref]) in Names(d.records[id].work);
      assert id != o.id;
      assert Holds(d', id);
    }
    forall id | Holds(d', id)
      ensures HasVolume(d', d'.records[id].work) <==> HasVolume(d, d.records[id].work)
      ensures Complete(d', d'.records[id].work) <==> Complete(d, d.records[id].work)
    {
    }
  }

  // ---------------------------------------------------------------------
  // Whole operations: every state they pass through

  ghost predicate Fine(foreign: set<string>, whole: bool, d: Durable) {
    Good(foreign, d) && (whole ==> Whole(d))
  }

  ghost predicate Sound(foreign: set<string>, whole: bool, w: World) {
    Fine(foreign, whole, w.d) && forall i :: 0 <= i < |w.trace| ==> Fine(foreign, whole, w.trace[i])
  }

  lemma TickSound(foreign: set<string>, whole: bool, w: World, d: Durable)
    requires Sound(foreign, whole, w) && Fine(foreign, whole, d)
    ensures Sound(foreign, whole, Tick(w, d))
  {
  }

  lemma SaveSound(foreign: set<string>, whole: bool, f: Faults, w: World, o: Object)
    requires Sound(foreign, whole, w) && Working(w.d, o) && Readable(o)
    requires whole && o.state == Ready ==> Complete(w.d, o)
    ensures var w' := Save(f, w, o).0; Sound(foreign, whole, w') && Working(w'.d, o)
  {
    SaveGood(foreign, w.d, o);
    if whole {
      SaveWhole(w.d, o);
    }
    TickSound(foreign, whole, w, Save(f, w, o).0.d);
  }

  lemma DeleteSound(foreign: set<string>, whole: bool, f: Faults, w: World, o: Object, c: Copy)
    requires Sound(foreign, whole, w) && Working(w.d, o) && Name(c.ref, c.owner) in Names(o)
    requires whole ==> Unready(w.d, o.id)
    ensures Sound(foreign, whole, Delete(f, w, c).0)
  {
    var n := Name(c.ref, c.owner);
    if Present(w.d, n) {
      DeleteGood(foreign, w.d, n);
      if whole {
        DeleteWhole(foreign, w.d, o, n);
      }
    }
    TickSound(foreign, whole, w, Delete(f, w, c).0.d);
  }

  /** The records and reservations are not the deletion's business, nor are volumes the object does not name. */
  predicate OnlyNamesGone(d: Durable, o: Object, d': Durable) {
    && d'.records == d.records && d'.reservations == d.reservations && d'.published == d.published
    && (forall ref :: ref in d'.volumes ==> ref in d.volumes && d'.volumes[ref] == d.volumes[ref])
    && (forall ref :: ref in d.volumes && Name(ref, d.volumes[ref]) !in Names(o) ==> ref in d'.volumes)
  }

  lemma {:induction false} DeleteFromSound(foreign: set<string>, whole: bool, f: Faults, w: World, o: Object, i: nat)
    requires i <= |Copies(o)|
    requires Sound(foreign, whole, w) && Working(w.d, o)
    requires whole ==> Unready(w.d, o.id)
    ensures Sound(foreign, whole, DeleteFrom(f, w, Copies(o), i).0)
    decreases |Copies(o)| - i
  {
    if i == |Copies(o)| {
    } else {
      var c := Copies(o)[i];
      assert Names(o)[i] == Name(c.ref, c.owner);
      DeleteSound(foreign, whole, f, w, o, c);
      DeleteFromSound(foreign, whole, f, Delete(f, w, c).0, o, i + 1);
    }
  }

  lemma {:induction false} DeleteFromDeletes(f: Faults, w: World, o: Object, i: nat)
    requires i <= |Copies(o)|
    ensures var (w', ok) := DeleteFrom(f, w, Copies(o), i);
            && OnlyNamesGone(w.d, o, w'.d)
            && (ok ==> forall j :: i <= j < |Copies(o)| ==> Copies(o)[j].ref !in w'.d.volumes)
    decreases |Copies(o)| - i
  {
    if i == |Copies(o)| {
    } else {
      var c := Copies(o)[i];
      assert Names(o)[i] == Name(c.ref, c.owner);
      DeleteFromDeletes(f, Delete(f, w, c).0, o, i + 1);
    }
  }

  lemma GoneNames(d: Durable, o: Object)
    requires forall j :: 0 <= j < |Copies(o)| ==> Copies(o)[j].ref !in d.volumes
    ensures !HasVolume(d, o) && forall n :: n in Names(o) ==> n.ref !in d.volumes
  {
    forall n | n in Names(o) ensures n.ref !in d.volumes {
      var j :| 0 <= j < |Names(o)| && Names(o)[j] == n;
      assert Copies(o)[j].ref == n.ref;
    }
  }

  lemma ReleaseSound(foreign: set<string>, whole: bool, f: Faults, w: World, o: Object)
    requires Sound(foreign, whole, w) && Working(w.d, o)
    requires o.owner in w.d.published || !HasVolume(w.d, o)
    ensures Sound(foreign, whole, FinishCopy(f, w, o).0)
  {
    FinishGood(foreign, w.d, o);
    TickSound(foreign, whole, w, FinishCopy(f, w, o).0.d);
  }

  /** Exactly the object's record, its reservation and the volumes it names are gone. */
  ghost predicate Cleared(d: Durable, o: Object, d': Durable) {
    && d'.records == d.records - {o.id} && d'.reservations == d.reservations - {o.id}
    && (forall ref :: ref in d'.volumes <==> ref in d.volumes && Name(ref, d.volumes[ref]) !in Names(o))
    && (forall ref :: ref in d'.volumes ==> d'.volumes[ref] == d.volumes[ref])
    && (forall i :: 0 <= i < |Copies(o)| ==> Copies(o)[i].ref !in d'.volumes)
  }

  /** The end of a cleanup, once every copy is gone: release the source, then remove the record. */
  function EndCleanup(f: Faults, w: World, o: Object): (World, bool) {
    var (w', released) := FinishCopy(f, w, o);
    if released == Failed then (w', false) else Remove(f, w', o.id)
  }

  lemma EndSound(foreign: set<string>, whole: bool, f: Faults, w: World, o: Object)
    requires Sound(foreign, whole, w) && Working(w.d, o)
    requires !HasVolume(w.d, o) && forall n :: n in Names(o) ==> n.ref !in w.d.volumes
    ensures Sound(foreign, whole, EndCleanup(f, w, o).0)
  {
    ReleaseSound(foreign, whole, f, w, o);
    var (w', released) := FinishCopy(f, w, o);
    if released != Failed {
      RemoveGood(foreign, w'.d, o);
      TickSound(foreign, whole, w', Remove(f, w', o.id).0.d);
    }
  }

  lemma EndClears(f: Faults, d: Durable, w: World, o: Object)
    requires OnlyNamesGone(d, o, w.d) && forall n :: n in Names(o) ==> n.ref !in w.d.volumes
    requires EndCleanup(f, w, o).1
    ensures Cleared(d, o, EndCleanup(f, w, o).0.d)
  {
    forall i | 0 <= i < |Copies(o)|
      ensures Copies(o)[i].ref !in w.d.volumes
    {
      assert Names(o)[i] in Names(o);
    }
  }

  lemma CleanupSound(foreign: set<string>, whole: bool, f: Faults, w: World, o: Object)
    requires Sound(foreign, whole, w) && Working(w.d, o)
    requires whole ==> Unready(w.d, o.id)
    ensures var (w', ok) := Cleanup(f, w, o);
            Sound(foreign, whole, w') && (ok ==> Cleared(w.d, o, w'.d))
  {
    DeleteFromSound(foreign, whole, f, w, o, 0);
    DeleteFromDeletes(f, w, o, 0);
    var (w1, gone) := DeleteFrom(f, w, Copies(o), 0);
    if gone {
      GoneNames(w1.d, o);
      EndSound(foreign, whole, f, w1, o);
      if EndCleanup(f, w1, o).1 {
        EndClears(f, w.d, w1, o);
      }
    }
  }

  // ---------------------------------------------------------------------
  // What a cleanup leaves alone, whatever happens to its calls

  /** Volumes the object does not name are where they were, and so is every other object's record and reservation. */
  predicate Spares(d: Durable, o: Object, d': Durable) {
    && (forall ref :: ref in d.volumes && Name(ref, d.volumes[ref]) !in Names(o) ==>
            ref in d'.volumes && d'.volumes[ref] == d.volumes[ref])
    && d'.records - {o.id} == d.records - {o.id} && d'.reservations - {o.id} == d.reservations - {o.id}
  }

  ghost predicate AllSpared(d: Durable, o: Object, w: World) {
    Spares(d, o, w.d) && forall i :: 0 <= i < |w.trace| ==> Spares(d, o, w.trace[i])
  }

  lemma TickSpares(d: Durable, o: Object, w: World, d': Durable)
    requires AllSpared(d, o, w) && Spares(d, o, d')
    ensures AllSpared(d, o, Tick(w, d'))
  {
  }

  lemma {:induction false} DeleteFromSpares(d: Durable, f: Faults, w: World, o: Object, i: nat)
    requires i <= |Copies(o)| && AllSpared(d, o, w)
    ensures AllSpared(d, o, DeleteFrom(f, w, Copies(o), i).0)
    decreases |Copies(o)| - i
  {
    if i == |Copies(o)| {
    } else {
      var c := Copies(o)[i];
      assert Names(o)[i] == Name(c.ref, c.owner);
      TickSpares(d, o, w, Delete(f, w, c).0.d);
      DeleteFromSpares(d, f, Delete(f, w, c).0, o, i + 1);
    }
  }

  /** Under every fault schedule a cleanup passes only through states that spare everything but its object. */
  lemma CleanupSpares(f: Faults, d: Durable, o: Object)
    ensures AllSpared(d, o, Cleanup(f, Start(d), o).0)
  {
    DeleteFromSpares(d, f, Start(d), o, 0);
    var (w1, gone) := DeleteFrom(f, Start(d), Copies(o), 0);
    if gone {
      var (w2, released) := FinishCopy(f, w1, o);
      TickSpares(d, o, w1, w2.d);
      if released != Failed {
        TickSpares(d, o, w2, Remove(f, w2, o.id).0.d);
      }
    }
  }

  // ---------------------------------------------------------------------
  // Rolling back

  lemma RollbackSound(foreign: set<string>, whole: bool, f: Faults, w: World, o: Object)
    requires Sound(foreign, whole, w) && Working(w.d, o)
    requires whole ==> Unready(w.d, o.id)
    ensures Sound(foreign, whole, Rollback(f, w, o).0)
  {
    var creating := o.(state := Creating);
    assert Names(creating) == Names(o);
    SaveSound(foreign, whole, f, w, creating);
    CleanupSound(foreign, whole, f, Save(f, w, creating).0, creating);
  }

  /** Where the member loop stands: the record is unready, the source reserved, the first copies made. */
  ghost predicate Underway(d: Durable, o: Object, done: nat) {
    && Working(d, o) && Unready(d, o.id) && o.id in d.reservations
    && done <= |Copies(o)|
    && (forall j :: 0 <= j < done ==>
            Copies(o)[j].state == Ready && Present(d, Names(o)[j]) && Names(o)[j].owner in d.inspected)
    && (o.members != [] ==> o.state != Ready)
  }

  lemma CreateSound(foreign: set<string>, whole: bool, f: Faults, w: World, o: Object, i: nat)
    requires i < |Copies(o)| && Sound(foreign, whole, w) && Underway(w.d, o, i)
    ensures var (w', made) := Create(f, w, Copies(o)[i]);
            && Sound(foreign, whole, w') && Underway(w'.d, o, i)
            && (made ==> Present(w'.d, Names(o)[i]))
  {
    var c := Copies(o)[i];
    assert Names(o)[i] == Name(c.ref, c.owner);
    if c.ref !in w.d.volumes {
      CreateGood(foreign, w.d, o, Names(o)[i]);
      if whole {
        CreateWhole(w.d, Names(o)[i]);
      }
    }
    TickSound(foreign, whole, w, Create(f, w, c).0.d);
  }

  lemma InspectSound(foreign: set<string>, whole: bool, f: Faults, w: World, o: Object, i: nat)
    requires i < |Copies(o)| && Sound(foreign, whole, w) && Underway(w.d, o, i)
    ensures var (w', seen) := Inspect(f, w, Copies(o)[i]);
            && Sound(foreign, whole, w') && Underway(w'.d, o, i)
            && (seen ==> Present(w'.d, Names(o)[i]) && Names(o)[i].owner in w'.d.inspected)
  {
    var c := Copies(o)[i];
    assert Names(o)[i] == Name(c.ref, c.owner);
    var d' := w.d.(inspected := w.d.inspected + {c.owner});
    forall n | Named(w.d, n) ensures Named(d', n) {
      var id :| Holds(w.d, id) && n in Names(w.d.records[id].work);
      assert Holds(d', id);
    }
    forall id | Holds(d', id)
      ensures HasVolume(d', d'.records[id].work) <==> HasVolume(w.d, w.d.records[id].work)
      ensures Complete(w.d, w.d.records[id].work) ==> Complete(d', d'.records[id].work)
    {
    }
    assert Good(foreign, d');
    TickSound(foreign, whole, w, Inspect(f, w, c).0.d);
  }

  lemma SetStateCopies(o: Object, i: nat, state: State)
    requires i < |Copies(o)|
    ensures forall j :: 0 <= j < |Copies(o)| && j != i ==> Copies(SetState(o, i, state))[j] == Copies(o)[j]
    ensures Copies(SetState(o, i, state))[i].state == state
  {
  }

  lemma CreatedUnderway(d: Durable, o: Object, i: nat)
    requires i < |Copies(o)| && Underway(d, o, i)
    ensures Underway(WithRecord(d, SetState(o, i, Created)), SetState(o, i, Created), i)
    ensures Working(d, SetState(o, i, Created)) && Readable(SetState(o, i, Created))
    ensures SetState(o, i, Created).state != Ready
  {
    SetStateCopies(o, i, Created);
  }

  lemma ReadyUnderway(d: Durable, o: Object, i: nat)
    requires i < |Copies(o)| && Underway(d, o, i) && Present(d, Names(o)[i]) && Names(o)[i].owner in d.inspected
    ensures Underway(d, SetState(o, i, Ready), i + 1)
  {
    SetStateCopies(o, i, Ready);
  }

  /** However a turn of the loop ends, its record is unready; if it goes on, `done` copies are made. */
  ghost predicate Advanced(foreign: set<string>, whole: bool, id: string, p: Progress, done: nat) {
    && Sound(foreign, whole, p.world) && p.work.id == id
    && Working(p.world.d, p.work) && Unready(p.world.d, id)
    && (p.ok ==> Underway(p.world.d, p.work, done))
  }

  lemma SettleSound(foreign: set<string>, whole: bool, f: Faults, w: World, o: Object, i: nat, registered: bool)
    requires i < |Copies(o)| && Sound(foreign, whole, w) && Underway(w.d, o, i)
    ensures Advanced(foreign, whole, o.id, Settle(f, w, o, i, registered), i + 1)
  {
    var created := SetState(o, i, Created);
    CreatedUnderway(w.d, o, i);
    SaveSound(foreign, whole, f, w, created);
    var (w1, saved) := Save(f, w, created);
    if saved {
      InspectSound(foreign, whole, f, w1, created, i);
      var (w2, seen) := Inspect(f, w1, Copies(created)[i]);
      TickSound(foreign, whole, w2, w2.d);
      if seen {
        ReadyUnderway(w2.d, created, i);
      }
    }
  }

  lemma MemberSound(foreign: set<string>, whole: bool, f: Faults, w: World, o: Object, i: nat, registered: bool)
    requires i < |Copies(o)| && Sound(foreign, whole, w) && Underway(w.d, o, i)
    ensures Advanced(foreign, whole, o.id, Member(f, w, o, i, registered), i + 1)
  {
    var (w1, live) := Check(f, w);
    TickSound(foreign, whole, w, w.d);
    CreateSound(foreign, whole, f, w1, o, i);
    var (w2, made) := Create(f, w1, Copies(o)[i]);
    if live && made {
      SettleSound(foreign, whole, f, w2, o, i, registered);
    }
  }

  lemma StoppedIsAdvanced(foreign: set<string>, whole: bool, id: string, p: Progress, done: nat, more: nat)
    requires Advanced(foreign, whole, id, p, done) && !p.ok
    ensures Advanced(foreign, whole, id, p, more)
  {
  }

  lemma {:induction false} MembersSound(foreign: set<string>, whole: bool, f: Faults, w: World, o: Object,
          registered: seq<bool>, i: nat)
    requires i <= |Copies(o)| == |registered| && Sound(foreign, whole, w) && Underway(w.d, o, i)
    ensures Advanced(foreign, whole, o.id, MembersFrom(f, w, o, registered, i), |Copies(o)|)
    decreases |Copies(o)| - i
  {
    if i == |Copies(o)| {
    } else {
      MemberSound(foreign, whole, f, w, o, i, registered[i]);
      var p := Member(f, w, o, i, registered[i]);
      if p.ok {
        MembersSound(foreign, whole, f, p.world, p.work, registered, i + 1);
      } else {
        StoppedIsAdvanced(foreign, whole, o.id, p, i + 1, |Copies(o)|);
      }
    }
  }

  /** A call that took effect but was reported as failed. */
  predicate Doubtful(outcome: Outcome) {
    outcome == Unsure || outcome == Partial
  }

  /**
   The publishing save at clock `n` takes effect and is reported as failed, the marking save after it
   takes none, and one of the deletions that follow does.
   */
  predicate LosesAt(f: Faults, n: nat, copies: nat) {
    && Doubtful(f.saves(n)) && f.saves(n + 1) == Refused
    && exists t :: n + 2 <= t < n + 2 + copies && f.calls(t) != Refused
  }

  /** A marking save that takes effect makes the record unready before anything is deleted. */
  lemma MarkedRollbackSound(foreign: set<string>, whole: bool, f: Faults, w: World, o: Object)
    requires Sound(foreign, whole, w) && Working(w.d, o) && f.saves(w.clock) != Refused
    ensures Sound(foreign, whole, Rollback(f, w, o).0)
  {
    var creating := o.(state := Creating);
    assert Names(creating) == Names(o);
    SaveSound(foreign, whole, f, w, creating);
    CleanupSound(foreign, whole, f, Save(f, w, creating).0, creating);
  }

  /** Every copy from the i-th on is where it belongs. */
  predicate AllPresent(d: Durable, o: Object, i: nat) {
    forall j :: i <= j < |Names(o)| ==> Present(d, Names(o)[j])
  }

  lemma {:induction false} RefusedDeletions(foreign: set<string>, whole: bool, f: Faults, w: World, o: Object, i: nat)
    requires i <= |Copies(o)| && Sound(foreign, whole, w) && AllPresent(w.d, o, i)
    requires forall t :: w.clock <= t < w.clock + |Copies(o)| - i ==> f.calls(t) == Refused
    ensures var (w', ok) := DeleteFrom(f, w, Copies(o), i); Sound(foreign, whole, w') && (i < |Copies(o)| ==> !ok)
    decreases |Copies(o)| - i
  {
    if i == |Copies(o)| {
    } else {
      assert Present(w.d, Names(o)[i]);
      TickSound(foreign, whole, w, w.d);
      RefusedDeletions(foreign, whole, f, Delete(f, w, Copies(o)[i]).0, o, i + 1);
    }
  }

  /** When neither the marking save nor a deletion takes effect, nothing changes. */
  lemma RefusedRollbackSound(foreign: set<string>, whole: bool, f: Faults, w: World, o: Object)
    requires Sound(foreign, whole, w) && AllPresent(w.d, o, 0) && f.saves(w.clock) == Refused
    requires forall t :: w.clock + 1 <= t < w.clock + 1 + |Copies(o)| ==> f.calls(t) == Refused
    ensures Sound(foreign, whole, Rollback(f, w, o).0)
  {
    var creating := o.(state := Creating);
    assert Names(creating) == Names(o);
    TickSound(foreign, whole, w, w.d);
    RefusedDeletions(foreign, whole, f, Save(f, w, creating).0, creating, 0);
  }

  /** A publishing save that failed, however far it got, is rolled back soundly unless it loses. */
  lemma DoubtfulPublicationSound(foreign: set<string>, whole: bool, f: Faults, w: World, o: Object)
    requires Sound(foreign, whole, w) && Underway(w.d, o, |Copies(o)|) && f.saves(w.clock) != Done
    requires whole ==> !LosesAt(f, w.clock, |Copies(o)|)
    ensures var ready := o.(state := Ready); Sound(foreign, whole, Rollback(f, Save(f, w, ready).0, ready).0)
  {
    var ready := o.(state := Ready);
    assert Names(ready) == Names(o);
    assert Complete(w.d, ready);
    SaveSound(foreign, whole, f, w, ready);
    var w1 := Save(f, w, ready).0;
    if !whole || f.saves(w.clock) == Refused {
      RollbackSound(foreign, whole, f, w1, ready);
    } else if f.saves(w1.clock) != Refused {
      MarkedRollbackSound(foreign, whole, f, w1, ready);
    } else {
      RefusedRollbackSound(foreign, whole, f, w1, ready);
    }
  }

  lemma PublishSound(foreign: set<string>, whole: bool, f: Faults, w: World, o: Object, prepare: bool)
    requires Sound(foreign, whole, w) && Underway(w.d, o, |Copies(o)|)
    requires whole ==> prepare || !LosesAt(f, w.clock, |Copies(o)|)
    ensures Sound(foreign, whole, Publish(f, w, o, prepare).0)
  {
    var creating, ready := o.(state := Creating), o.(state := Ready);
    assert Names(creating) == Names(o) && Names(ready) == Names(o);
    assert Complete(w.d, ready);
    SaveSound(foreign, whole, f, w, creating);
    var (w1, kept) := if prepare then Save(f, w, creating) else (w, true);
    assert Unready(w1.d, o.id) && Complete(w1.d, ready);
    TickSound(foreign, whole, w1, w1.d);
    var (w2, prepared) := if prepare && kept then Check(f, w1) else (w1, kept);
    if prepared {
      SaveSound(foreign, whole, f, w2, ready);
      var (w3, saved) := Save(f, w2, ready);
      if saved {
        ReleaseSound(foreign, whole, f, w3, ready);
      } else if !prepare {
        DoubtfulPublicationSound(foreign, whole, f, w, o);
      }
    }
  }

  // ---------------------------------------------------------------------
  // A publication that loses its volumes

  ghost predicate PassesThroughLoss(w: World) {
    exists i :: 0 <= i < |w.trace| && !Whole(w.trace[i])
  }

  lemma {:induction false} DeleteFromKeepsTrace(f: Faults, w: World, copies: seq<Copy>, i: nat)
    requires i <= |copies|
    ensures w.trace <= DeleteFrom(f, w, copies, i).0.trace
    decreases |copies| - i
  {
    if i == |copies| {
    } else {
      DeleteFromKeepsTrace(f, Delete(f, w, copies[i]).0, copies, i + 1);
    }
  }

  lemma LossKept(w: World, w': World)
    requires PassesThroughLoss(w) && w.trace <= w'.trace
    ensures PassesThroughLoss(w')
  {
    var i :| 0 <= i < |w.trace| && !Whole(w.trace[i]);
    assert w'.trace[i] == w.trace[i];
  }

  /** Deleting a volume of a ready record that is whole leaves it ready and not whole. */
  lemma DeletionLoses(f: Faults, w: World, o: Object, i: nat)
    requires i < |Copies(o)| && Working(w.d, o) && w.d.records[o.id].work.state == Ready
    requires AllPresent(w.d, o, i) && f.calls(w.clock) != Refused
    ensures PassesThroughLoss(Delete(f, w, Copies(o)[i]).0)
  {
    var c := Copies(o)[i];
    assert Present(w.d, Names(o)[i]);
    var w' := Delete(f, w, c).0;
    var lost := w'.d.records[o.id].work;
    assert Names(lost)[i] == Names(o)[i] == Name(c.ref, c.owner);
    assert !Present(w'.d, Names(lost)[i]);
    assert !Complete(w'.d, lost);
    assert Holds(w'.d, o.id);
    assert w'.trace[|w.trace|] == w'.d;
  }

  lemma {:induction false} DeletionsLose(f: Faults, w: World, o: Object, i: nat, t: nat)
    requires i < |Copies(o)| && Working(w.d, o) && w.d.records[o.id].work.state == Ready
    requires AllPresent(w.d, o, i) && w.clock <= t < w.clock + |Copies(o)| - i && f.calls(t) != Refused
    ensures PassesThroughLoss(DeleteFrom(f, w, Copies(o), i).0)
    decreases |Copies(o)| - i
  {
    var w1 := Delete(f, w, Copies(o)[i]).0;
    if f.calls(w.clock) != Refused {
      DeletionLoses(f, w, o, i);
      DeleteFromKeepsTrace(f, w1, Copies(o), i + 1);
      LossKept(w1, DeleteFrom(f, w, Copies(o), i).0);
    } else {
      assert Present(w.d, Names(o)[i]);
      DeletionsLose(f, w1, o, i + 1, t);
    }
  }

  lemma CleanupKeepsTrace(f: Faults, w: World, o: Object)
    ensures DeleteFrom(f, w, Copies(o), 0).0.trace <= Cleanup(f, w, o).0.trace
  {
  }

  lemma PublishLoses(f: Faults, w: World, o: Object)
    requires Underway(w.d, o, |Copies(o)|) && LosesAt(f, w.clock, |Copies(o)|)
    ensures PassesThroughLoss(Publish(f, w, o, false).0)
  {
    var ready := o.(state := Ready);
    var creating := ready.(state := Creating);
    var w1 := Save(f, w, ready).0;
    var w2 := Save(f, w1, creating).0;
    assert Names(creating) == Names(ready) == Names(o);
    var t :| w.clock + 2 <= t < w.clock + 2 + |Copies(o)| && f.calls(t) != Refused;
    DeletionsLose(f, w2, creating, 0, t);
    CleanupKeepsTrace(f, w2, creating);
    LossKept(DeleteFrom(f, w2, Copies(creating), 0).0, Cleanup(f, w2, creating).0);
  }

  /** A planned object: nothing made yet, under owner IDs drawn afresh. */
  ghost predicate Fresh(foreign: set<string>, d: Durable, o: Object) {
    && o.state == Creating && (forall i :: 0 <= i < |o.members| ==> o.members[i].state == Creating)
    && o.owner !in d.published
    && (forall n :: n in Names(o) ==> n.owner !in foreign)
    && (forall id, owner :: Holds(d, id) && OwnedBy(d.records[id].work, owner) ==> !OwnedBy(o, owner))
  }

  lemma ReserveOwners(foreign: set<string>, d: Durable, o: Object, r: Record)
    requires OwnersDistinct(d) && Fresh(foreign, d, o) && o.id !in d.records && (r == Torn || r == Saved(o))
    ensures OwnersDistinct(d.(records := d.records[o.id := r]))
  {
    var d' := d.(records := d.records[o.id := r]);
    forall a, b, owner | Holds(d', a) && Holds(d', b) && a != b && OwnedBy(d'.records[a].work, owner)
      ensures !OwnedBy(d'.records[b].work, owner)
    {
      if a == o.id {
        assert Holds(d, b);
      } else if b == o.id {
        assert Holds(d, a);
      } else {
        assert Holds(d, a) && Holds(d, b);
      }
    }
  }

  lemma ReserveNames(foreign: set<string>, d: Durable, o: Object, r: Record)
    requires AllNamed(foreign, d) && o.id !in d.records
    ensures AllNamed(foreign, d.(records := d.records[o.id := r]))
  {
    var d' := d.(records := d.records[o.id := r]);
    forall ref | ref in d'.volumes && d'.volumes[ref] !in foreign ensures Named(d', Name(ref, d'.volumes[ref])) {
      var id :| Holds(d, id) && Name(ref, d.volumes[ref]) in Names(d.records[id].work);
      assert Holds(d', id);
    }
  }

  lemma ReserveGood(foreign: set<string>, d: Durable, o: Object, r: Record)
    requires Good(foreign, d) && Fresh(foreign, d, o) && o.id !in d.records
    requires r == Torn || r == Saved(o)
    ensures var d' := d.(records := d.records[o.id := r]); Good(foreign, d') && (Whole(d) ==> Whole(d'))
  {
    var d' := d.(records := d.records[o.id := r]);
    ReserveNames(foreign, d, o, r);
    ReserveOwners(foreign, d, o, r);
    FreshHasNoVolume(foreign, d, o);
    forall id | Holds(d', id)
      ensures id != o.id ==> Holds(d, id) && (HasVolume(d', d'.records[id].work) <==> HasVolume(d, d.records[id].work))
      ensures id != o.id ==> (Complete(d', d'.records[id].work) <==> Complete(d, d.records[id].work))
      ensures id == o.id ==> !HasVolume(d', o)
    {
    }
  }

  lemma FreshHasNoVolume(foreign: set<string>, d: Durable, o: Object)
    requires Good(foreign, d) && Fresh(foreign, d, o)
    ensures !HasVolume(d, o)
  {
    forall n | n in Names(o) ensures !Present(d, n) {
      if Present(d, n) {
        assert Named(d, n);
        var id :| Holds(d, id) && n in Names(d.records[id].work);
        assert OwnedBy(d.records[id].work, n.owner);
        assert OwnedBy(o, n.owner);
      }
    }
  }

  lemma BeginSound(foreign: set<string>, whole: bool, f: Faults, w: World, o: Object)
    requires Sound(foreign, whole, w) && Working(w.d, o) && Unready(w.d, o.id)
    ensures var (w', begun) := BeginCopy(f, w, o);
            Sound(foreign, whole, w') && Working(w'.d, o) && Unready(w'.d, o.id)
              && (begun ==> o.id in w'.d.reservations)
  {
    if o.id !in w.d.reservations {
      var d' := w.d.(reservations := w.d.reservations[o.id := Reservation(o.savedFrom, o.owner)]);
      forall n | Named(w.d, n) ensures Named(d', n) {
        var id :| Holds(w.d, id) && n in Names(w.d.records[id].work);
        assert Holds(d', id);
      }
      forall id | Holds(d', id)
        ensures HasVolume(d', d'.records[id].work) <==> HasVolume(w.d, w.d.records[id].work)
        ensures Complete(d', d'.records[id].work) <==> Complete(w.d, w.d.records[id].work)
      {
      }
      assert Good(foreign, d');
    }
    TickSound(foreign, whole, w, BeginCopy(f, w, o).0.d);
  }

  /** How far a restore gets before it publishes, if it gets there. */
  function Made(f: Faults, d: Durable, o: Object, registered: seq<bool>): Option<Progress>
    requires |Copies(o)| == |registered|
  {
    var (w1, reserved) := Reserve(f, Start(d), o);
    var (w2, begun) := BeginCopy(f, w1, o);
    if !reserved || !begun then None
    else
      var p := MembersFrom(f, w2, o, registered, 0);
      if p.ok then Some(p) else None
  }

  /** All members are made, and the publication loses what they hold. */
  predicate Loses(f: Faults, d: Durable, o: Object, registered: seq<bool>)
    requires |Copies(o)| == |registered|
  {
    var made := Made(f, d, o, registered);
    made.Some? && LosesAt(f, made.value.world.clock, |Copies(made.value.work)|)
  }

  lemma MadeSound(foreign: set<string>, whole: bool, f: Faults, d: Durable, o: Object, registered: seq<bool>)
    requires |Copies(o)| == |registered| && Fine(foreign, whole, d) && Fresh(foreign, d, o)
    requires Made(f, d, o, registered).Some?
    ensures var p := Made(f, d, o, registered).value;
            Sound(foreign, whole, p.world) && Underway(p.world.d, p.work, |Copies(p.work)|)
  {
    var w := Start(d);
    ReserveGood(foreign, d, o, Saved(o));
    var (w1, reserved) := Reserve(f, w, o);
    TickSound(foreign, whole, w, w1.d);
    BeginSound(foreign, whole, f, w1, o);
    var (w2, begun) := BeginCopy(f, w1, o);
    MembersSound(foreign, whole, f, w2, o, registered, 0);
  }

  lemma UnmadeSound(foreign: set<string>, whole: bool, f: Faults, d: Durable, o: Object, registered: seq<bool>,
          prepare: bool)
    requires |Copies(o)| == |registered| && Fine(foreign, whole, d) && Fresh(foreign, d, o)
    requires Made(f, d, o, registered).None?
    ensures Sound(foreign, whole, RestoreCopy(f, Start(d), o, registered, prepare).0)
  {
    var w := Start(d);
    if o.id !in d.records {
      ReserveGood(foreign, d, o, Torn);
      ReserveGood(foreign, d, o, Saved(o));
    }
    var (w1, reserved) := Reserve(f, w, o);
    TickSound(foreign, whole, w, w1.d);
    if reserved {
      BeginSound(foreign, whole, f, w1, o);
      var (w2, begun) := BeginCopy(f, w1, o);
      if begun {
        MembersSound(foreign, whole, f, w2, o, registered, 0);
        var p := MembersFrom(f, w2, o, registered, 0);
        RollbackSound(foreign, whole, f, p.world, p.work);
      } else {
        RollbackSound(foreign, whole, f, w2, o);
      }
    }
  }

  lemma RestoreSound(foreign: set<string>, whole: bool, f: Faults, d: Durable, o: Object, registered: seq<bool>,
          prepare: bool)
    requires |Copies(o)| == |registered|
    requires Fine(foreign, whole, d) && Fresh(foreign, d, o)
    requires whole ==> prepare || !Loses(f, d, o, registered)
    ensures Sound(foreign, whole, RestoreCopy(f, Start(d), o, registered, prepare).0)
  {
    var made := Made(f, d, o, registered);
    if made.None? {
      UnmadeSound(foreign, whole, f, d, o, registered, prepare);
    } else {
      MadeSound(foreign, whole, f, d, o, registered);
      PublishSound(foreign, whole, f, made.value.world, made.value.work, prepare);
    }
  }

  /**
   A restore keeps every ready record whole, in every state it passes through, unless its publication
   loses; then it does not.
   */
  lemma RestoreKeepsWholeIff(foreign: set<string>, f: Faults, d: Durable, o: Object, registered: seq<bool>,
          prepare: bool)
    requires |Copies(o)| == |registered| && Fine(foreign, true, d) && Fresh(foreign, d, o)
    ensures Sound(foreign, true, RestoreCopy(f, Start(d), o, registered, prepare).0) <==>
              prepare || !Loses(f, d, o, registered)
  {
    if prepare || !Loses(f, d, o, registered) {
      RestoreSound(foreign, true, f, d, o, registered, prepare);
    } else {
      var p := Made(f, d, o, registered).value;
      MadeSound(foreign, true, f, d, o, registered);
      PublishLoses(f, p.world, p.work);
      var w := RestoreCopy(f, Start(d), o, registered, prepare).0;
      var i :| 0 <= i < |w.trace| && !Whole(w.trace[i]);
      assert !Fine(foreign, true, w.trace[i]);
    }
  }

  lemma CleanupRestoredSound(foreign: set<string>, whole: bool, f: Faults, d: Durable, id: string)
    requires Fine(foreign, whole, d)
    ensures Sound(foreign, whole, CleanupRestored(f, Start(d), id).0)
  {
    var (reply, found) := Get(d, id);
    if reply == Finished {
      ReleaseSound(foreign, whole, f, Start(d), found.value);
    } else if reply == RecoveryRequired {
      CleanupSound(foreign, whole, f, Start(d), found.value);
    }
  }

  lemma DeleteRestoredSound(foreign: set<string>, whole: bool, f: Faults, d: Durable, expected: Object)
    requires Fine(foreign, whole, d)
    ensures Sound(foreign, whole, DeleteRestored(f, Start(d), expected).0)
  {
    var (reply, found) := Get(d, expected.id);
    if reply == Finished && found.value == expected {
      var current := expected.(state := Creating);
      assert Names(current) == Names(expected);
      SaveSound(foreign, whole, f, Start(d), current);
      var (w1, saved) := Save(f, Start(d), current);
      if saved {
        CleanupSound(foreign, whole, f, w1, current);
      }
    }
  }
}

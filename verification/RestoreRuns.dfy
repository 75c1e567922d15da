/** Any sequence of restores, cleanups and deletions, each of them cut short anywhere. */
module RestoreRuns {
  import opened Wrappers
  import opened Restore
  import opened RestoreSafety

  datatype Command =
    | RestoreCommand(planned: Object, registered: seq<bool>, prepare: bool)
    | CleanupCommand(id: string)
    | DeleteCommand(expected: Object)

  ghost predicate Admissible(foreign: set<string>, d: Durable, c: Command) {
    c.RestoreCommand? ==> |Copies(c.planned)| == |c.registered| && Fresh(foreign, d, c.planned)
  }

  /** Every durable state a command passes through, from the one it starts in to the one it ends in. */
  function States(f: Faults, d: Durable, c: Command): seq<Durable>
    requires c.RestoreCommand? ==> |Copies(c.planned)| == |c.registered|
  {
    match c
    case RestoreCommand(o, registered, prepare) => RestoreCopy(f, Start(d), o, registered, prepare).0.trace
    case CleanupCommand(id) => CleanupRestored(f, Start(d), id).0.trace
    case DeleteCommand(expected) => DeleteRestored(f, Start(d), expected).0.trace
  }

  datatype Episode = Episode(command: Command, faults: Faults)

  /** Nothing restored yet; whatever volumes exist are somebody else's. */
  ghost predicate Initial(foreign: set<string>, d: Durable) {
    && d.records == map[] && d.reservations == map[] && d.published == {}
    && (forall ref :: ref in d.volumes ==> d.volumes[ref] in foreign)
  }

  /** A restore without data to prepare whose publication loses what it made. */
  predicate Losing(b: Durable, e: Episode) {
    e.command.RestoreCommand? && |Copies(e.command.planned)| == |e.command.registered|
    && !e.command.prepare && Loses(e.faults, b, e.command.planned, e.command.registered)
  }

  /**
   `d` is left behind by these episodes; losing the process ends one at any state it passed through.
   A careful run has no losing restore.
   */
  ghost predicate Leaves(foreign: set<string>, careful: bool, episodes: seq<Episode>, d: Durable) {
    if episodes == [] then Initial(foreign, d)
    else
      var n := |episodes| - 1;
      exists b :: && Leaves(foreign, careful, episodes[..n], b) && Admissible(foreign, b, episodes[n].command)
                  && (careful ==> !Losing(b, episodes[n]))
                  && d in States(episodes[n].faults, b, episodes[n].command)
  }

  lemma StatesFine(foreign: set<string>, whole: bool, b: Durable, e: Episode, d: Durable)
    requires Fine(foreign, whole, b) && Admissible(foreign, b, e.command) && d in States(e.faults, b, e.command)
    requires whole ==> !Losing(b, e)
    ensures Fine(foreign, whole, d)
  {
    match e.command {
      case RestoreCommand(o, registered, prepare) => RestoreSound(foreign, whole, e.faults, b, o, registered, prepare);
      case CleanupCommand(id) => CleanupRestoredSound(foreign, whole, e.faults, b, id);
      case DeleteCommand(expected) => DeleteRestoredSound(foreign, whole, e.faults, b, expected);
    }
    var i :| 0 <= i < |States(e.faults, b, e.command)| && States(e.faults, b, e.command)[i] == d;
  }

  lemma {:induction false} RunsAreFine(foreign: set<string>, careful: bool, episodes: seq<Episode>, d: Durable)
    requires Leaves(foreign, careful, episodes, d)
    ensures Fine(foreign, careful, d)
  {
    if episodes == [] {
    } else {
      var n := |episodes| - 1;
      var b :| Leaves(foreign, careful, episodes[..n], b) && Admissible(foreign, b, episodes[n].command)
               && (careful ==> !Losing(b, episodes[n]))
               && d in States(episodes[n].faults, b, episodes[n].command);
      RunsAreFine(foreign, careful, episodes[..n], b);
      StatesFine(foreign, careful, b, episodes[n], d);
    }
  }

  /**
   In every state any run leaves behind, each restored volume is named by a durable record, and
   a copy that was never published keeps its own source reserved for as long as it has a volume.
   */
  lemma VolumesAreNamedAndSourcesHeld(foreign: set<string>, episodes: seq<Episode>, d: Durable)
    requires Leaves(foreign, false, episodes, d)
    ensures forall ref :: ref in d.volumes && d.volumes[ref] !in foreign ==> Named(d, Name(ref, d.volumes[ref]))
    ensures forall id ::
              Holds(d, id) && d.records[id].work.owner !in d.published && HasVolume(d, d.records[id].work) ==>
              && id in d.reservations
              && d.reservations[id] == Reservation(d.records[id].work.savedFrom, d.records[id].work.owner)
  {
    RunsAreFine(foreign, false, episodes, d);
  }

  /** In every run without a losing restore, a record that says ready has every member volume, created and inspected. */
  lemma ReadyCopiesAreWhole(foreign: set<string>, episodes: seq<Episode>, d: Durable)
    requires Leaves(foreign, true, episodes, d)
    ensures forall id :: Holds(d, id) && d.records[id].work.state == Ready ==> Complete(d, d.records[id].work)
  {
    RunsAreFine(foreign, true, episodes, d);
  }

  // ---------------------------------------------------------------------
  // Where a ready record can lose its volumes

  const EMPTY := Durable(map[], map[], map[], {}, {})
  const PLANNED := Object("work", "owner", "saved", Creating, "pool/haco-work-work", [])

  const SMOOTH := Faults((n: nat) => Done, (n: nat) => Done)

  /** The publishing save fails after the rename; the save that would mark the record as creating fails before it. */
  const UNLUCKY := Faults((n: nat) => Done, (n: nat) => if n == 6 then Unsure else if n == 7 then Refused else Done)

  lemma ReadyRecordLosesItsVolume()
    ensures var w := RestoreCopy(UNLUCKY, Start(EMPTY), PLANNED, [false], false).0;
            && |w.trace| > 9
            && Holds(w.trace[9], "work") && w.trace[9].records["work"].work.state == Ready
            && w.trace[9].volumes == map[]
  {
    var f := UNLUCKY;
    var w0 := Start(EMPTY);
    var w1 := Reserve(f, w0, PLANNED).0;
    var w2 := BeginCopy(f, w1, PLANNED).0;
    var w3 := Check(f, w2).0;
    assert Copies(PLANNED) == [Copy("pool/haco-work-work", "owner", Creating)];
    var w4 := Create(f, w3, Copies(PLANNED)[0]).0;
    var created := SetState(PLANNED, 0, Created);
    var w5 := Save(f, w4, created).0;
    var w6 := Inspect(f, w5, Copies(created)[0]).0;
    var made := SetState(created, 0, Ready);
    assert Settle(f, w4, PLANNED, 0, false) == Progress(w6, made, true);
    assert Member(f, w2, PLANNED, 0, false) == Progress(w6, made, true);
    assert MembersFrom(f, w2, PLANNED, [false], 0) == Progress(w6, made, true);
    var w7 := Save(f, w6, made).0;
    assert made.(state := Ready) == made;
    var creating := made.(state := Creating);
    var w8 := Save(f, w7, creating).0;
    var w9 := Delete(f, w8, Copies(creating)[0]).0;
    assert DeleteFrom(f, w8, Copies(creating), 0) == (w9, true);
    assert w9.d.records["work"].work.state == Ready && w9.d.volumes == map[];
    assert w9.trace[9] == w9.d;
  }

  /**
   Whether ready records stay whole whatever fails is decided by the caller: exactly when it
   passes data to prepare, because only then is a doubtful publication left alone.
   */
  lemma WholenessNeedsPrepare(prepare: bool)
    ensures prepare <==>
            forall foreign, f, d, o, registered ::
              |Copies(o)| == |registered| && Fine(foreign, true, d) && Fresh(foreign, d, o) ==>
              Sound(foreign, true, RestoreCopy(f, Start(d), o, registered, prepare).0)
  {
    if prepare {
      forall foreign, f, d, o, registered | |Copies(o)| == |registered| && Fine(foreign, true, d)
        && Fresh(foreign, d, o)
        ensures Sound(foreign, true, RestoreCopy(f, Start(d), o, registered, prepare).0)
      {
        RestoreSound(foreign, true, f, d, o, registered, prepare);
      }
    } else {
      ReadyRecordLosesItsVolume();
      var w := RestoreCopy(UNLUCKY, Start(EMPTY), PLANNED, [false], false).0;
      var lost := w.trace[9].records["work"].work;
      assert !Complete(w.trace[9], lost) by {
        assert !Present(w.trace[9], Names(lost)[0]);
      }
      assert !Fine({}, true, w.trace[9]);
      assert Fine({}, true, EMPTY) && Fresh({}, EMPTY, PLANNED);
    }
  }

  // ---------------------------------------------------------------------
  // Explicit cleanup

  ghost predicate AllDone(f: Faults) {
    forall n :: f.calls(n) == Done
  }

  /** Whoever is asked first to delete a volume under one of these names owns it. */
  predicate Unclaimed(d: Durable, copies: seq<Copy>, i: nat) {
    forall j ::
      i <= j < |copies| && copies[j].ref in d.volumes && (forall k :: i <= k < j ==> copies[k].ref != copies[j].ref) ==>
      d.volumes[copies[j].ref] == copies[j].owner
  }

  /** Deleting a copy leaves the rest claimed or unclaimed as it was. */
  lemma UnclaimedAfter(f: Faults, w: World, copies: seq<Copy>, i: nat)
    requires i < |copies| && Delete(f, w, copies[i]).1
    ensures Unclaimed(w.d, copies, i) <==> Unclaimed(Delete(f, w, copies[i]).0.d, copies, i + 1)
  {
    var d' := Delete(f, w, copies[i]).0.d;
    if Unclaimed(d', copies, i + 1) {
      forall j | i <= j < |copies| && copies[j].ref in w.d.volumes
        && (forall k :: i <= k < j ==> copies[k].ref != copies[j].ref)
        ensures w.d.volumes[copies[j].ref] == copies[j].owner
      {
        assert j > i ==> copies[i].ref != copies[j].ref;
      }
    }
  }

  /** Deletions that all succeed were unclaimed, and unclaimed ones succeed when every call does. */
  lemma {:induction false} DeletionsSucceed(f: Faults, w: World, copies: seq<Copy>, i: nat)
    requires i <= |copies|
    ensures DeleteFrom(f, w, copies, i).1 ==> Unclaimed(w.d, copies, i)
    ensures AllDone(f) && Unclaimed(w.d, copies, i) ==> DeleteFrom(f, w, copies, i).1
    decreases |copies| - i
  {
    if i == |copies| {
    } else {
      if Delete(f, w, copies[i]).1 {
        UnclaimedAfter(f, w, copies, i);
      }
      DeletionsSucceed(f, Delete(f, w, copies[i]).0, copies, i + 1);
    }
  }

  lemma EndSucceeds(f: Faults, w: World, o: Object)
    requires AllDone(f) && o.id in w.d.records
    requires o.id in w.d.reservations ==> w.d.reservations[o.id] == Reservation(o.savedFrom, o.owner)
    ensures EndCleanup(f, w, o).1
  {
  }

  /**
   Whatever fails, cleanup of an incomplete copy touches nothing of anybody else's, in any state it
   passes through.  When it reports success, exactly the copy's record, reservation and volumes are
   gone.  When its calls succeed, it does exactly if no stranger holds one of its volume names.
   */
  lemma CleanupClears(foreign: set<string>, episodes: seq<Episode>, d: Durable, f: Faults, id: string)
    requires Leaves(foreign, false, episodes, d) && Get(d, id).0 == RecoveryRequired
    ensures var (w, reply) := CleanupRestored(f, Start(d), id);
            var o := d.records[id].work;
            && AllSpared(d, o, w)
            && (reply == Finished ==> Cleared(d, o, w.d) && Unclaimed(d, Copies(o), 0))
            && (AllDone(f) ==> (reply == Finished <==> Unclaimed(d, Copies(o), 0)))
  {
    RunsAreFine(foreign, false, episodes, d);
    var o := d.records[id].work;
    CleanupSpares(f, d, o);
    CleanupSound(foreign, false, f, Start(d), o);
    DeleteFromDeletes(f, Start(d), o, 0);
    DeletionsSucceed(f, Start(d), Copies(o), 0);
    var (w1, gone) := DeleteFrom(f, Start(d), Copies(o), 0);
    if AllDone(f) && gone {
      EndSucceeds(f, w1, o);
    }
  }

  /** A stranger's volume where the planned one would go. */
  const CLAIMED := EMPTY.(volumes := map["pool/haco-work-work" := "stranger"])

  const STUCK := CLAIMED.(
      records := map["work" := Saved(PLANNED)], reservations := map["work" := Reservation("saved", "owner")])

  /**
   A restore without any fault can leave a record that no cleanup ever removes: a stranger holds the
   volume's name.
   */
  lemma StrangerStopsCleanup(f: Faults)
    ensures Leaves({"stranger"}, true, [Episode(RestoreCommand(PLANNED, [false], false), SMOOTH)], STUCK)
    ensures Get(STUCK, "work").0 == RecoveryRequired
    ensures CleanupRestored(f, Start(STUCK), "work").1 == Unfinished
  {
    var e := Episode(RestoreCommand(PLANNED, [false], false), SMOOTH);
    assert Copies(PLANNED) == [Copy("pool/haco-work-work", "owner", Creating)];
    var w0 := Start(CLAIMED);
    var w1 := Reserve(SMOOTH, w0, PLANNED).0;
    var w2 := BeginCopy(SMOOTH, w1, PLANNED).0;
    assert w2.d == STUCK;
    var w3 := Check(SMOOTH, w2).0;
    var w4 := Create(SMOOTH, w3, Copies(PLANNED)[0]).0;
    assert Member(SMOOTH, w2, PLANNED, 0, false) == Progress(w4, PLANNED, false);
    assert MembersFrom(SMOOTH, w2, PLANNED, [false], 0) == Progress(w4, PLANNED, false);
    var w5 := Save(SMOOTH, w4, PLANNED).0;
    assert PLANNED.(state := Creating) == PLANNED;
    var w6 := Delete(SMOOTH, w5, Copies(PLANNED)[0]).0;
    assert DeleteFrom(SMOOTH, w5, Copies(PLANNED), 0) == (w6, false);
    assert RestoreCopy(SMOOTH, w0, PLANNED, [false], false) == (w6, Incomplete(PLANNED));
    assert w6.trace[2] == STUCK;
    assert Initial({"stranger"}, CLAIMED) && Leaves({"stranger"}, true, [], CLAIMED);
    assert Admissible({"stranger"}, CLAIMED, e.command) && !Losing(CLAIMED, e);
    assert [e][..0] == [];
    assert !DeleteFrom(f, Start(STUCK), Copies(PLANNED), 0).1;
  }

  /** Cleanup of a ready copy only ever retries the pending release: its record and volumes never change. */
  lemma CleanupKeepsReadyCopies(d: Durable, f: Faults, id: string)
    requires Get(d, id).0 == Finished
    ensures var (w, reply) := CleanupRestored(f, Start(d), id);
            && (forall i :: 0 <= i < |w.trace| ==> w.trace[i].records == d.records && w.trace[i].volumes == d.volumes)
            && (reply == Finished ==> id !in w.d.reservations)
  {
  }

  /**
   A record torn by its very first write names no volume and holds no reservation, but cleanup
   cannot read it: it changes nothing and the file stays.
   */
  lemma TornRecordStays(foreign: set<string>, episodes: seq<Episode>, d: Durable, f: Faults, id: string)
    requires Leaves(foreign, false, episodes, d) && id in d.records && d.records[id] == Torn
    ensures id !in d.reservations
    ensures CleanupRestored(f, Start(d), id) == (Start(d), Incompatible)
  {
    RunsAreFine(foreign, false, episodes, d);
  }

  const TEARING := Faults((n: nat) => Partial, (n: nat) => Done)

  /** There is such a run: the first write of a restore is cut short. */
  lemma RecordsCanBeTorn()
    ensures Leaves({}, true, [Episode(RestoreCommand(PLANNED, [false], false), TEARING)],
              EMPTY.(records := map["work" := Torn]))
  {
    var e := Episode(RestoreCommand(PLANNED, [false], false), TEARING);
    var w := Reserve(TEARING, Start(EMPTY), PLANNED).0;
    assert |Copies(PLANNED)| == 1;
    assert RestoreCopy(TEARING, Start(EMPTY), PLANNED, [false], false) == (w, NotReserved);
    assert w.trace[1] == EMPTY.(records := map["work" := Torn]);
    assert Initial({}, EMPTY) && Leaves({}, true, [], EMPTY);
    assert Admissible({}, EMPTY, e.command) && !Losing(EMPTY, e);
    assert [e][..0] == [];
  }
}

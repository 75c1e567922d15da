/** What the labels of a manifest mean, when `read_manifest` takes it, and what a comparison says. */
module ManifestFacts {
  import opened Manifest
  import opened Wrappers

  // ---------------------------------------------------------------------
  // Path order

  /** Python's order of strings. */
  predicate Less(a: string, b: string) {
    b != "" && (a == "" || a[0] < b[0] || (a[0] == b[0] && Less(a[1..], b[1..])))
  }

  lemma {:induction false} LessIsIrreflexive(a: string)
    ensures !Less(a, a)
  {
    if a == "" {
    } else {
      LessIsIrreflexive(a[1..]);
    }
  }

  lemma {:induction false} LessIsAsymmetric(a: string, b: string)
    requires Less(a, b)
    ensures !Less(b, a)
    decreases |a|
  {
    if a != "" && a[0] == b[0] {
      LessIsAsymmetric(a[1..], b[1..]);
    }
  }

  /** `sorted(..., key=path)` of an inventory, which lists every path once. */
  predicate Sorted(rows: seq<Row>) {
    forall i, j :: 0 <= i < j < |rows| ==> Less(rows[i].path, rows[j].path)
  }

  lemma SortedIsDistinct(rows: seq<Row>)
    requires Sorted(rows)
    ensures Distinct(rows)
  {
    forall i, j | 0 <= i < j < |rows|
      ensures rows[i].path != rows[j].path
    {
      LessIsIrreflexive(rows[i].path);
    }
  }

  /** However the inventory enumerates the tree, the sorted rows are the same. */
  lemma {:induction false} EnumerationDoesNotMatter(a: seq<Row>, b: seq<Row>)
    requires Sorted(a) && Sorted(b) && forall r :: r in a <==> r in b
    ensures a == b
  {
    assert a != [] ==> a[0] in b;
    assert b != [] ==> b[0] in a;
    if a == [] {
    } else {
      FirstIsFirst(a, b);
      forall r
        ensures r in a[1..] <==> r in b[1..]
      {
        AfterFirst(a, r);
        AfterFirst(b, r);
      }
      EnumerationDoesNotMatter(a[1..], b[1..]);
      assert a == [a[0]] + a[1..] && b == [b[0]] + b[1..];
    }
  }

  lemma FirstIsFirst(a: seq<Row>, b: seq<Row>)
    requires Sorted(a) && Sorted(b) && a != [] && b != [] && forall r :: r in a <==> r in b
    ensures a[0] == b[0]
  {
    assert a[0] in b && b[0] in a;
    var i :| 0 <= i < |b| && b[i] == a[0];
    var j :| 0 <= j < |a| && a[j] == b[0];
    if i > 0 && j > 0 {
      LessIsAsymmetric(b[0].path, b[i].path);
      assert false;
    }
  }

  lemma AfterFirst(a: seq<Row>, r: Row)
    requires Sorted(a) && a != []
    ensures r in a[1..] <==> r in a && r != a[0]
  {
    LessIsIrreflexive(a[0].path);
    if r in a[1..] {
      var k :| 0 <= k < |a[1..]| && a[1..][k] == r;
      assert a[k + 1] == r;
    }
    if r in a && r != a[0] {
      var k :| 0 <= k < |a| && a[k] == r;
      assert a[1..][k - 1] == r;
    }
  }

  // ---------------------------------------------------------------------
  // Labels

  /** Two entries share a label exactly when they are links of one file. */
  lemma LabelsShareFiles(entries: map<string, Entry>, rows: seq<Row>, i: nat, j: nat)
    requires Distinct(rows) && Describes(entries, rows)
    requires i < |rows| && j < |rows| && i != j && rows[i].fate == Read && rows[j].fate == Read
    ensures var a, b := entries[rows[i].path].hardlink, entries[rows[j].path].hardlink;
            a.Some? && a == b <==> Same(rows[i], rows[j])
  {
    assert AllEntries(rows)[i] == EntryOf(rows, i) && AllEntries(rows)[j] == EntryOf(rows, j);
    if Noted(rows[i]) && Noted(rows[j]) {
      SameLabelIffSame(rows, i, j);
    }
    if Same(rows[i], rows[j]) {
      assert Same(rows[j], rows[i]);
      assert Shared(rows, i) && Shared(rows, j);
    }
  }

  predicate AllRead(rows: seq<Row>) {
    forall i :: 0 <= i < |rows| ==> rows[i].fate == Read
  }

  /**
   In a complete scan a label is the first path of its group in order, an entry itself, and the group
   has another member.
   */
  lemma LabelIsFirstPath(entries: map<string, Entry>, rows: seq<Row>, i: nat)
    requires Sorted(rows) && AllRead(rows) && Describes(entries, rows) && i < |rows|
    requires entries[rows[i].path].hardlink.Some?
    ensures var mark := entries[rows[i].path].hardlink.value;
            && mark in entries && entries[mark].hardlink == Some(mark)
            && (exists j :: 0 <= j < |rows| && j != i && Same(rows[i], rows[j]))
            && (forall j :: 0 <= j < |rows| && Same(rows[i], rows[j]) ==>
                    mark == rows[j].path || Less(mark, rows[j].path))
  {
    SortedIsDistinct(rows);
    var k := Leader(rows, |rows|, rows[i].identity).value;
    assert AllEntries(rows)[i] == EntryOf(rows, i) && AllEntries(rows)[k] == EntryOf(rows, k);
    var j :| 0 <= j < |rows| && j != i && rows[j].fate == Read && Same(rows[i], rows[j]);
    assert k != i ==> Same(rows[k], rows[i]);
    assert k == i ==> Same(rows[k], rows[j]);
    assert Shared(rows, k);
    assert LabelOf(rows, k) == LabelOf(rows, i);
  }

  /** What a file system guarantees: a file with two paths says it has more than one link. */
  predicate Physical(rows: seq<Row>) {
    forall i, j :: 0 <= i < j < |rows| && SameFile(rows, i, j) ==> rows[i].links > 1 && rows[j].links > 1
  }

  predicate SameFile(rows: seq<Row>, i: nat, j: nat)
    requires i < |rows| && j < |rows|
  {
    rows[i].kind == File && rows[j].kind == File && rows[i].identity == rows[j].identity
  }

  /**
   The same tree on another file system: paths, attributes and contents agree, and the same paths are
   one file.  Device and inode numbers and link counts may all differ.
   */
  predicate Alike(rows: seq<Row>, rows': seq<Row>) {
    && |rows| == |rows'|
    && (forall i :: 0 <= i < |rows| ==> Plain(rows[i]) == Plain(rows'[i]) && rows[i].path == rows'[i].path)
    && (forall i, j :: 0 <= i < |rows| && 0 <= j < |rows| ==> (SameFile(rows, i, j) <==> SameFile(rows', i, j)))
  }

  /**
   In a complete scan, a file is shared exactly when another path is the same file, and then all its
   paths note it.
   */
  lemma SharedIffSameFile(rows: seq<Row>, i: nat)
    requires AllRead(rows) && Physical(rows) && i < |rows|
    ensures Shared(rows, i) <==> exists j :: 0 <= j < |rows| && j != i && SameFile(rows, i, j)
    ensures Shared(rows, i) ==> forall j :: 0 <= j < |rows| && SameFile(rows, i, j) ==> Noted(rows[j])
  {
    if j :| 0 <= j < |rows| && j != i && SameFile(rows, i, j) {
      NotedPair(rows, i, j);
      assert Same(rows[i], rows[j]);
    }
    if Shared(rows, i) {
      var k :| 0 <= k < |rows| && k != i && rows[k].fate == Read && Same(rows[i], rows[k]);
      assert SameFile(rows, i, k);
      forall j | 0 <= j < |rows| && SameFile(rows, i, j)
        ensures Noted(rows[j])
      {
        if j != i {
          NotedPair(rows, i, j);
        }
      }
    }
  }

  lemma NotedPair(rows: seq<Row>, i: nat, j: nat)
    requires AllRead(rows) && Physical(rows) && i < |rows| && j < |rows| && i != j && SameFile(rows, i, j)
    ensures Noted(rows[i]) && Noted(rows[j])
  {
    assert SameFile(rows, j, i);
    assert rows[i].links > 1 && rows[j].links > 1 by {
      if i < j {
        assert SameFile(rows, i, j);
      } else {
        assert SameFile(rows, j, i);
      }
    }
  }

  lemma SharedAlike(rows: seq<Row>, rows': seq<Row>, i: nat)
    requires Alike(rows, rows') && AllRead(rows) && AllRead(rows') && Physical(rows) && Physical(rows')
    requires i < |rows| && Shared(rows, i)
    ensures Shared(rows', i)
  {
    SharedIffSameFile(rows, i);
    SharedIffSameFile(rows', i);
    var j :| 0 <= j < |rows| && j != i && SameFile(rows, i, j);
    assert SameFile(rows', i, j);
  }

  /** The first path of a shared file is the first path of it on the other side. */
  lemma LeadersAlike(rows: seq<Row>, rows': seq<Row>, i: nat)
    requires Alike(rows, rows') && AllRead(rows) && AllRead(rows') && Physical(rows) && Physical(rows')
    requires i < |rows| && Shared(rows, i) && Shared(rows', i)
    ensures Leader(rows, |rows|, rows[i].identity) == Leader(rows', |rows'|, rows'[i].identity)
  {
    SharedIffSameFile(rows, i);
    SharedIffSameFile(rows', i);
    var k, k' := Leader(rows, |rows|, rows[i].identity).value, Leader(rows', |rows'|, rows'[i].identity).value;
    assert SameFile(rows, i, k) && SameFile(rows', i, k');
    assert SameFile(rows', i, k) && SameFile(rows, i, k');
    assert Noted(rows'[k]) && Noted(rows[k']);
  }

  lemma EntriesAlike(rows: seq<Row>, rows': seq<Row>, i: nat)
    requires Alike(rows, rows') && AllRead(rows) && AllRead(rows') && Physical(rows) && Physical(rows') && i < |rows|
    ensures EntryOf(rows, i) == EntryOf(rows', i)
  {
    if Shared(rows, i) {
      SharedAlike(rows, rows', i);
      LeadersAlike(rows, rows', i);
    } else if Shared(rows', i) {
      SharedAlike(rows', rows, i);
    }
  }

  lemma SameKeys(entries: map<string, Entry>, entries': map<string, Entry>, rows: seq<Row>, rows': seq<Row>,
          path: string)
    requires Alike(rows, rows') && AllRead(rows) && Describes(entries, rows) && Describes(entries', rows')
    requires path in entries || path in entries'
    ensures exists i :: 0 <= i < |rows| && rows[i].fate == Read && rows[i].path == path
  {
    if path in entries' {
      var i :| 0 <= i < |rows'| && rows'[i].fate == Read && rows'[i].path == path;
      assert rows[i].fate == Read && rows[i].path == path;
    }
  }

  /**
   Complete manifests depend only on which paths are the same file: not on device or inode numbers, and
   not on links from outside the tree.
   */
  lemma LabelsIgnoreNumbers(entries: map<string, Entry>, entries': map<string, Entry>, rows: seq<Row>, rows': seq<Row>)
    requires Distinct(rows) && Alike(rows, rows')
    requires AllRead(rows) && AllRead(rows') && Physical(rows) && Physical(rows')
    requires Describes(entries, rows) && Describes(entries', rows')
    ensures entries == entries'
  {
    forall i | 0 <= i < |rows|
      ensures rows[i].path in entries && rows[i].path in entries' && entries[rows[i].path] == entries'[rows[i].path]
    {
      EntriesAlike(rows, rows', i);
      assert AllEntries(rows)[i] == AllEntries(rows')[i];
    }
    forall path | path in entries || path in entries'
      ensures path in entries && path in entries' && entries[path] == entries'[path]
    {
      SameKeys(entries, entries', rows, rows', path);
    }
  }

  /** One file in the tree with another link outside it, and its restored copy without: alike, and described alike. */
  lemma OutsideLinksAreIgnored()
    ensures var rows := [Row("f", File, 0, 0, 0, (1, 2), 2, 0, 0, Read)];
            var rows' := [Row("f", File, 0, 0, 0, (7, 9), 1, 0, 0, Read)];
            Alike(rows, rows') && Physical(rows) && Physical(rows') && Noted(rows[0]) && !Noted(rows'[0])
  {
  }

  // ---------------------------------------------------------------------
  // `read_manifest`

  const MAX_ENTRIES := 50000
  const MAX_MANIFEST := 64 * 1024 * 1024
  const MAX_MODE := 0xFFF

  function Components(path: string): (cs: seq<string>)
    ensures cs != []
  {
    if path == "" then [""]
    else if path[0] == '/' then [""] + Components(path[1..])
    else
      var rest := Components(path[1..]);
      [[path[0]] + rest[0]] + rest[1..]
  }

  predicate ValidPath(path: string) {
    path == "." || forall i :: 0 <= i < |Components(path)| ==> Components(path)[i] !in {"", ".", ".."}
  }

  /** The checks on one entry. */
  predicate ValidEntry(entries: map<string, Entry>, e: Entry) {
    && e.mode <= MAX_MODE && (e.content.None? <==> e.kind == Directory) && (e.xattrs.None? <==> e.kind == Symlink)
    && (e.hardlink.Some? ==> e.kind == File && e.hardlink.value in entries && entries[e.hardlink.value].kind == File)
  }

  /** `size` is how many bytes the manifest takes as JSON. */
  ghost predicate Accepted(size: map<string, Entry> -> nat, entries: map<string, Entry>) {
    && size(entries) <= MAX_MANIFEST && 0 < |entries| <= MAX_ENTRIES && "." in entries
    && forall path :: path in entries ==> ValidPath(path) && ValidEntry(entries, entries[path])
  }

  /** What the inventory promises of its rows. */
  predicate Inventory(rows: seq<Row>) {
    && Distinct(rows) && |rows| <= MAX_ENTRIES
    && forall i :: 0 <= i < |rows| ==> ValidPath(rows[i].path) && rows[i].mode <= MAX_MODE
  }

  predicate HasRoot(rows: seq<Row>) {
    exists i :: 0 <= i < |rows| && rows[i].path == "." && rows[i].fate == Read
  }

  /** The row that gave a label its path. */
  predicate LeaderRead(rows: seq<Row>, i: nat)
    requires i < |rows|
  {
    Noted(rows[i]) ==> rows[Leader(rows, |rows|, rows[i].identity).value].fate == Read
  }

  function Paths(rows: seq<Row>): (paths: set<string>)
    ensures |paths| <= |rows| && forall i :: 0 <= i < |rows| ==> rows[i].path in paths
  {
    if rows == [] then {}
    else
      var n := |rows| - 1;
      Paths(rows[..n]) + {rows[n].path}
  }

  lemma SubsetIsSmaller(a: set<string>, b: set<string>)
    requires a <= b
    ensures |a| <= |b|
  {
    assert b == a + (b - a);
  }

  lemma FewEntries(entries: map<string, Entry>, rows: seq<Row>)
    requires Describes(entries, rows)
    ensures |entries| <= |rows|
  {
    SubsetIsSmaller(entries.Keys, Paths(rows));
  }

  lemma EntryValidIff(entries: map<string, Entry>, rows: seq<Row>, i: nat)
    requires Inventory(rows) && Describes(entries, rows) && i < |rows| && rows[i].fate == Read
    ensures ValidEntry(entries, entries[rows[i].path]) <==> (Shared(rows, i) ==> LeaderRead(rows, i))
  {
    assert AllEntries(rows)[i] == EntryOf(rows, i);
    if Shared(rows, i) {
      var k := Leader(rows, |rows|, rows[i].identity).value;
      assert AllEntries(rows)[k] == EntryOf(rows, k);
      assert forall j :: 0 <= j < |rows| && j != k ==> rows[j].path != rows[k].path;
    }
  }

  /**
   A manifest is taken exactly when it is not too large, the root was read, and so was the first link of
   every shared file.
   */
  lemma AcceptedIff(size: map<string, Entry> -> nat, entries: map<string, Entry>, rows: seq<Row>)
    requires Inventory(rows) && Describes(entries, rows)
    ensures Accepted(size, entries) <==>
            && size(entries) <= MAX_MANIFEST && HasRoot(rows)
            && forall i :: 0 <= i < |rows| && rows[i].fate == Read && Shared(rows, i) ==> LeaderRead(rows, i)
  {
    FewEntries(entries, rows);
    forall i | 0 <= i < |rows| && rows[i].fate == Read
      ensures ValidEntry(entries, entries[rows[i].path]) <==> (Shared(rows, i) ==> LeaderRead(rows, i))
    {
      EntryValidIff(entries, rows, i);
    }
    if "." in entries {
      assert HasRoot(rows);
      assert entries.Keys != {};
    }
    if HasRoot(rows) {
      assert "." in entries;
    }
  }

  /** A complete scan is taken back exactly when its manifest is not too large. */
  lemma CompleteScansAreAccepted(size: map<string, Entry> -> nat, entries: map<string, Entry>, rows: seq<Row>)
    requires Inventory(rows) && Describes(entries, rows) && AllRead(rows) && HasRoot(rows)
    ensures Accepted(size, entries) <==> size(entries) <= MAX_MANIFEST
  {
    AcceptedIff(size, entries, rows);
  }

  /**
   Three links of one file, of which the first changed after it was noted: its path labels the others,
   and is no entry.
   */
  function ChangedFirst(): seq<Row> {
    [Row(".", Directory, 0, 0, 0, (1, 1), 2, 0, 0, Read), Row("a", File, 0, 0, 0, (1, 2), 3, 0, 0, Changed),
     Row("b", File, 0, 0, 0, (1, 2), 3, 0, 0, Read), Row("c", File, 0, 0, 0, (1, 2), 3, 0, 0, Read)]
  }

  lemma IncompleteScanIsRefused(size: map<string, Entry> -> nat, entries: map<string, Entry>)
    requires Describes(entries, ChangedFirst())
    ensures !Accepted(size, entries)
  {
    var rows := ChangedFirst();
    assert Same(rows[2], rows[3]);
    assert Shared(rows, 2);
    assert AllEntries(rows)[2] == EntryOf(rows, 2);
    var k := Leader(rows, |rows|, rows[2].identity).value;
    assert Noted(rows[1]);
    assert k == 1;
    assert entries["b"].hardlink == Some("a") by { assert rows[2].path == "b"; }
    assert rows[0].path != "a" && rows[2].path != "a" && rows[3].path != "a";
    assert forall i :: 0 <= i < |rows| && rows[i].fate == Read ==> rows[i].path != "a";
    assert "b" in entries;
  }

  // ---------------------------------------------------------------------
  // `compare_manifests`

  datatype Field = MissingFromRestored | AddedInRestored | KindField | ModeField | UidField | GidField | ContentField
          | XattrsField | HardlinkField

  function Changes(a: Entry, b: Entry): set<Field> {
    (if a.kind != b.kind then {KindField} else {}) + (if a.mode != b.mode then {ModeField} else {})
    + (if a.uid != b.uid then {UidField} else {}) + (if a.gid != b.gid then {GidField} else {})
    + (if a.content != b.content then {ContentField} else {}) + (if a.xattrs != b.xattrs then {XattrsField} else {})
    + (if a.hardlink != b.hardlink then {HardlinkField} else {})
  }

  function Difference(left: map<string, Entry>, right: map<string, Entry>, path: string): set<Field> {
    if path !in left && path !in right then {}
    else if path !in right then {MissingFromRestored}
    else if path !in left then {AddedInRestored}
    else Changes(left[path], right[path])
  }

  datatype Comparison = Comparison(complete: bool, matching: bool, differences: map<string, set<Field>>)

  lemma NoDifferenceIff(left: map<string, Entry>, right: map<string, Entry>, path: string)
    ensures Difference(left, right, path) == {} <==>
              (path in left <==> path in right) && (path in left && path in right ==> left[path] == right[path])
  {
    if path in left && path in right && left[path] != right[path] {
      var a, b := left[path], right[path];
      var f := if a.kind != b.kind then KindField else if a.mode != b.mode then ModeField
        else if a.uid != b.uid then UidField
               else if a.gid != b.gid then GidField else if a.content != b.content then ContentField
               else if a.xattrs != b.xattrs then XattrsField else HardlinkField;
      assert f in Changes(a, b);
    }
  }

  /**
   `compare_manifests`: a match is two complete manifests with the same entries, and the report lists
   every difference and no other.
   */
  method CompareManifests(source: Manifest, restored: Manifest) returns (c: Comparison)
    ensures c.complete <==> source.complete && restored.complete
    ensures c.matching <==> source.complete && restored.complete && source.entries == restored.entries
    ensures forall path :: path in c.differences <==> Difference(source.entries, restored.entries, path) != {}
    ensures forall path :: path in c.differences ==>
              c.differences[path] == Difference(source.entries, restored.entries, path)
  {
    var left, right := source.entries, restored.entries;
    var differences: map<string, set<Field>> := map[];
    var todo := left.Keys + right.Keys;
    while todo != {}
      invariant todo <= left.Keys + right.Keys
      invariant forall path :: path in differences <==> path !in todo && Difference(left, right, path) != {}
      invariant forall path :: path in differences ==> differences[path] == Difference(left, right, path)
      decreases |todo|
    {
      var path :| path in todo;
      var changed := Difference(left, right, path);
      if changed != {} {
        differences := differences[path := changed];
      }
      todo := todo - {path};
    }
    MatchIff(left, right, differences);
    var complete := source.complete && restored.complete;
    c := Comparison(complete, complete && differences == map[], differences);
  }

  lemma MatchIff(left: map<string, Entry>, right: map<string, Entry>, differences: map<string, set<Field>>)
    requires forall path :: path in differences <==> Difference(left, right, path) != {}
    ensures differences == map[] <==> left == right
  {
    forall path
      ensures path in differences <==>
                !((path in left <==> path in right) && (path in left && path in right ==> left[path] == right[path]))
    {
      NoDifferenceIff(left, right, path);
    }
    if differences == map[] {
      assert forall path :: path !in differences;
      assert left.Keys == right.Keys;
    }
  }
}

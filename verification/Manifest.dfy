/**
 Portable tree manifests and their comparison: tools/evacuation_compare.py, with the file system as a
 list of rows.
 */
module Manifest {
  import opened Wrappers

  datatype Kind = File | Directory | Symlink

  /**
   What reading a row came to: it was read, it failed before or after its hard link was noted, or the
   budget ran out.
   */
  datatype Fate = Read | Unreadable | Changed | Exhausted

  /** A row of the inventory; digests and attributes are opaque numbers. */
  datatype Row = Row(path: string, kind: Kind, mode: nat, uid: nat, gid: nat, identity: (nat, nat), links: nat,
                     content: nat, xattrs: nat, fate: Fate)

  datatype Entry = Entry(kind: Kind, mode: nat, uid: nat, gid: nat, content: Option<nat>, xattrs: Option<nat>,
          hardlink: Option<string>)

  datatype Manifest = Manifest(complete: bool, entries: map<string, Entry>)

  // ---------------------------------------------------------------------
  // Labels

  /** A row whose hard link is noted: a file that says it has other links. */
  predicate Noted(r: Row) {
    r.kind == File && r.links > 1 && (r.fate == Read || r.fate == Changed)
  }

  /** The first of the rows before `n` that notes this file, if any. */
  function Leader(rows: seq<Row>, n: nat, identity: (nat, nat)): (k: Option<nat>)
    requires n <= |rows|
    ensures k.Some? ==> k.value < n && Noted(rows[k.value]) && rows[k.value].identity == identity
    ensures k.Some? ==> forall i :: 0 <= i < k.value ==> !(Noted(rows[i]) && rows[i].identity == identity)
    ensures k.None? ==> forall i :: 0 <= i < n ==> !(Noted(rows[i]) && rows[i].identity == identity)
  {
    if n == 0 then None
    else if Leader(rows, n - 1, identity).Some? then Leader(rows, n - 1, identity)
    else if Noted(rows[n - 1]) && rows[n - 1].identity == identity then Some(n - 1)
    else None
  }

  /** Two rows note the same file. */
  predicate Same(a: Row, b: Row) {
    Noted(a) && Noted(b) && a.identity == b.identity
  }

  /** Another row of the file was read. */
  predicate Shared(rows: seq<Row>, i: nat)
    requires i < |rows|
  {
    exists j :: 0 <= j < |rows| && j != i && rows[j].fate == Read && Same(rows[i], rows[j])
  }

  function LabelOf(rows: seq<Row>, i: nat): Option<string>
    requires i < |rows|
  {
    if Noted(rows[i]) then Some(rows[Leader(rows, |rows|, rows[i].identity).value].path) else None
  }

  function Plain(r: Row): Entry {
    var content := if r.kind == Directory then None else Some(r.content);
    var xattrs := if r.kind == Symlink then None else Some(r.xattrs);
    Entry(r.kind, r.mode, r.uid, r.gid, content, xattrs, None)
  }

  /** The entry of a row that was read: a file with other links read carries the path of the first row that noted it. */
  function EntryOf(rows: seq<Row>, i: nat): Entry
    requires i < |rows|
  {
    Plain(rows[i]).(hardlink := if Shared(rows, i) then LabelOf(rows, i) else None)
  }

  predicate Distinct(rows: seq<Row>) {
    forall i, j :: 0 <= i < j < |rows| ==> rows[i].path != rows[j].path
  }

  /** The table holds, for the rows before `n` that were read and no others, what `told` says of them. */
  ghost predicate Table(entries: map<string, Entry>, rows: seq<Row>, n: nat, told: seq<Entry>) {
    && n <= |rows| == |told|
    && (forall i :: 0 <= i < n && rows[i].fate == Read ==> rows[i].path in entries && entries[rows[i].path] == told[i])
    && (forall path :: path in entries ==> exists i :: 0 <= i < n && rows[i].fate == Read && rows[i].path == path)
  }

  lemma TableGrows(entries: map<string, Entry>, rows: seq<Row>, n: nat, told: seq<Entry>)
    requires Distinct(rows) && n < |rows| && Table(entries, rows, n, told)
    ensures Table(if rows[n].fate == Read then entries[rows[n].path := told[n]] else entries, rows, n + 1, told)
  {
  }

  lemma TableChanges(entries: map<string, Entry>, rows: seq<Row>, told: seq<Entry>, told': seq<Entry>, k: nat)
    requires Distinct(rows) && Table(entries, rows, |rows|, told) && k < |rows| == |told'| && rows[k].fate == Read
    requires forall i :: 0 <= i < |rows| && i != k && rows[i].fate == Read ==> told'[i] == told[i]
    ensures Table(entries[rows[k].path := told'[k]], rows, |rows|, told')
  {
  }

  lemma TableAgrees(entries: map<string, Entry>, rows: seq<Row>, told: seq<Entry>, told': seq<Entry>)
    requires Table(entries, rows, |rows|, told) && |told'| == |rows|
    requires forall i :: 0 <= i < |rows| && rows[i].fate == Read ==> told'[i] == told[i]
    ensures Table(entries, rows, |rows|, told')
  {
  }

  function AllEntries(rows: seq<Row>): seq<Entry> {
    seq(|rows|, i requires 0 <= i < |rows| => EntryOf(rows, i))
  }

  /** The entries are those of the rows that were read, and no others. */
  ghost predicate Describes(entries: map<string, Entry>, rows: seq<Row>) {
    Table(entries, rows, |rows|, AllEntries(rows))
  }

  /** The rows the scan gets to. */
  function Reached(rows: seq<Row>): seq<Row> {
    if rows == [] || rows[0].fate == Exhausted then [] else [rows[0]] + Reached(rows[1..])
  }

  // ---------------------------------------------------------------------
  // `scan_tree`

  /** The entry as the first loop writes it, before lone labels are taken off. */
  function Marked(rows: seq<Row>, i: nat): Entry
    requires i < |rows|
  {
    Plain(rows[i]).(hardlink := LabelOf(rows, i))
  }

  function AllMarked(rows: seq<Row>): seq<Entry> {
    seq(|rows|, i requires 0 <= i < |rows| => Marked(rows, i))
  }

  ghost predicate Groups(groups: map<(nat, nat), string>, rows: seq<Row>, n: nat) {
    && n <= |rows|
    && forall identity :: (identity in groups <==> Leader(rows, n, identity).Some?)
                          && (identity in groups ==> groups[identity] == rows[Leader(rows, n, identity).value].path)
  }

  lemma {:induction false} LeaderStays(rows: seq<Row>, n: nat, m: nat, identity: (nat, nat))
    requires n <= m <= |rows| && Leader(rows, n, identity).Some?
    ensures Leader(rows, m, identity) == Leader(rows, n, identity)
    decreases m
  {
    if n == m {
    } else {
      LeaderStays(rows, n, m - 1, identity);
    }
  }

  /** `groups.setdefault(identity, path)` for a noted row gives its label. */
  method Note(groups: map<(nat, nat), string>, rows: seq<Row>,
          n: nat) returns (groups': map<(nat, nat), string>, mark: Option<string>)
    requires n < |rows| && Groups(groups, rows, n)
    ensures Groups(groups', rows, n + 1) && mark == LabelOf(rows, n)
  {
    var r := rows[n];
    groups', mark := groups, None;
    if Noted(r) {
      if r.identity !in groups {
        groups' := groups[r.identity := r.path];
      }
      mark := Some(groups'[r.identity]);
      LeaderStays(rows, n + 1, |rows|, r.identity);
    }
  }

  /** The body of the loop over the rows, but for the list of gaps. */
  method MarkOne(entries: map<string, Entry>, groups: map<(nat, nat), string>, rows: seq<Row>, n: nat,
          ghost told: seq<Entry>)
    returns (entries': map<string, Entry>, groups': map<(nat, nat), string>)
    requires Distinct(rows) && n < |rows| && told == AllMarked(rows) && Table(entries, rows, n, told)
    requires Groups(groups, rows, n)
    ensures Table(entries', rows, n + 1, told) && Groups(groups', rows, n + 1)
  {
    var mark;
    groups', mark := Note(groups, rows, n);
    TableGrows(entries, rows, n, told);
    entries' := if rows[n].fate == Read then entries[rows[n].path := Plain(rows[n]).(hardlink := mark)] else entries;
  }

  lemma NoRows(rows: seq<Row>, told: seq<Entry>)
    requires |told| == |rows|
    ensures Table(map[], rows, 0, told) && Groups(map[], rows, 0)
  {
  }

  /** The loop over the rows. */
  method Mark(rows: seq<Row>) returns (entries: map<string, Entry>, clean: bool)
    requires Distinct(rows)
    ensures Table(entries, rows, |rows|, AllMarked(rows))
    ensures clean <==> forall i :: 0 <= i < |rows| ==> rows[i].fate == Read
  {
    var groups: map<(nat, nat), string> := map[];
    ghost var told := AllMarked(rows);
    NoRows(rows, told);
    entries, clean := map[], true;
    for n := 0 to |rows|
      invariant Table(entries, rows, n, told) && Groups(groups, rows, n)
      invariant clean <==> forall i :: 0 <= i < n ==> rows[i].fate == Read
    {
      entries, groups := MarkOne(entries, groups, rows, n, told);
      clean := clean && rows[n].fate == Read;
    }
  }

  /** The labels of the entries, in row order; a row without an entry has none. */
  function Labels(rows: seq<Row>): seq<Option<string>> {
    seq(|rows|, i requires 0 <= i < |rows| => if rows[i].fate == Read then LabelOf(rows, i) else None)
  }

  /** The positions before `n` that carry this label. */
  function Members(labels: seq<Option<string>>, n: nat, mark: string): seq<nat>
    requires n <= |labels|
  {
    if n == 0 then [] else Members(labels, n - 1, mark) + if labels[n - 1] == Some(mark) then [n - 1] else []
  }

  lemma {:induction false} MembersAre(labels: seq<Option<string>>, n: nat, mark: string, i: nat)
    requires n <= |labels|
    ensures i in Members(labels, n, mark) <==> i < n && labels[i] == Some(mark)
  {
    if n == 0 {
    } else {
      MembersAre(labels, n - 1, mark, i);
    }
  }

  predicate Ascending(s: seq<nat>, end: nat) {
    (forall a :: 0 <= a < |s| ==> s[a] < end) && forall a, b :: 0 <= a < b < |s| ==> s[a] < s[b]
  }

  lemma {:induction false} MembersOrdered(labels: seq<Option<string>>, n: nat, mark: string)
    requires n <= |labels|
    ensures Ascending(Members(labels, n, mark), n)
  {
    if n == 0 {
    } else {
      MembersOrdered(labels, n - 1, mark);
      var ms := Members(labels, n - 1, mark);
      assert Ascending(ms + [n - 1], n) && Ascending(ms, n) && ms + [] == ms;
    }
  }

  /** Labels are shared exactly by the rows that note one file. */
  lemma SameLabelIffSame(rows: seq<Row>, i: nat, j: nat)
    requires Distinct(rows) && i < |rows| && j < |rows| && Noted(rows[i]) && Noted(rows[j])
    ensures LabelOf(rows, i) == LabelOf(rows, j) <==> rows[i].identity == rows[j].identity
  {
  }

  /** A label is alone among its members exactly when no other row of the file was read. */
  lemma {:induction false} LoneIffNotShared(rows: seq<Row>, i: nat)
    requires Distinct(rows) && i < |rows| && rows[i].fate == Read && Noted(rows[i])
    ensures |Members(Labels(rows), |rows|, LabelOf(rows, i).value)| == 1 <==> !Shared(rows, i)
  {
    var labels, mark := Labels(rows), LabelOf(rows, i).value;
    var ms := Members(labels, |rows|, mark);
    MembersOrdered(labels, |rows|, mark);
    MembersAre(labels, |rows|, mark, i);
    var a :| 0 <= a < |ms| && ms[a] == i;
    if |ms| > 1 {
      var b := if a == 0 then 1 else 0;
      MembersAre(labels, |rows|, mark, ms[b]);
      assert ms[b] in ms;
      SameLabelIffSame(rows, i, ms[b]);
      assert Same(rows[i], rows[ms[b]]);
    }
    if Shared(rows, i) {
      var j :| 0 <= j < |rows| && j != i && rows[j].fate == Read && Same(rows[i], rows[j]);
      SameLabelIffSame(rows, i, j);
      MembersAre(labels, |rows|, mark, j);
    }
  }

  function Added(members: map<string, seq<nat>>, mark: Option<string>, n: nat): map<string, seq<nat>> {
    if mark.None? then members
    else members[mark.value := (if mark.value in members then members[mark.value] else []) + [n]]
  }

  /** The `members` dictionary after the entries before `n`. */
  function Gathered(labels: seq<Option<string>>, n: nat): map<string, seq<nat>>
    requires n <= |labels|
  {
    if n == 0 then map[] else Added(Gathered(labels, n - 1), labels[n - 1], n - 1)
  }

  lemma {:induction false} GatheredAre(labels: seq<Option<string>>, n: nat, mark: string)
    requires n <= |labels|
    ensures mark in Gathered(labels, n) <==> Members(labels, n, mark) != []
    ensures mark in Gathered(labels, n) ==> Gathered(labels, n)[mark] == Members(labels, n, mark)
  {
    if n == 0 {
    } else {
      GatheredAre(labels, n - 1, mark);
      assert Members(labels, n - 1, mark) + [] == Members(labels, n - 1, mark);
    }
  }

  /** The entries carry these labels, row by row. */
  ghost predicate Carries(entries: map<string, Entry>, rows: seq<Row>, labels: seq<Option<string>>) {
    && |labels| == |rows|
    && (forall n :: 0 <= n < |rows| && rows[n].fate == Read ==>
            rows[n].path in entries && entries[rows[n].path].hardlink == labels[n])
    && (forall n :: 0 <= n < |rows| && rows[n].fate != Read ==> labels[n].None?)
  }

  lemma MarksCarry(entries: map<string, Entry>, rows: seq<Row>)
    requires Table(entries, rows, |rows|, AllMarked(rows))
    ensures Carries(entries, rows, Labels(rows))
  {
    forall n | 0 <= n < |rows| && rows[n].fate == Read
      ensures rows[n].path in entries && entries[rows[n].path].hardlink == Labels(rows)[n]
    {
      assert AllMarked(rows)[n] == Marked(rows, n);
    }
  }

  /** The loop that gathers the members of each label. */
  method Gather(entries: map<string, Entry>, rows: seq<Row>,
          ghost labels: seq<Option<string>>) returns (members: map<string, seq<nat>>)
    requires Carries(entries, rows, labels)
    ensures members == Gathered(labels, |rows|)
  {
    members := map[];
    for n := 0 to |rows|
      invariant members == Gathered(labels, n)
    {
      if rows[n].fate == Read {
        members := Added(members, entries[rows[n].path].hardlink, n);
      }
    }
  }

  /** Once the labels outside `todo` are dealt with, their lone members carry none. */
  function Trimmed(rows: seq<Row>, i: nat, todo: set<string>): Entry
    requires i < |rows|
  {
    var mark := LabelOf(rows, i);
    if mark.Some? && mark.value !in todo && |Members(Labels(rows), |rows|, mark.value)| == 1 then Plain(rows[i])
    else Marked(rows, i)
  }

  function AllTrimmed(rows: seq<Row>, todo: set<string>): seq<Entry> {
    seq(|rows|, i requires 0 <= i < |rows| => Trimmed(rows, i, todo))
  }

  /** Dealing with one label changes the entry of its lone member, if it has just one. */
  lemma TrimOne(rows: seq<Row>, todo: set<string>, mark: string, i: nat)
    requires i < |rows| && rows[i].fate == Read
    ensures var ms := Members(Labels(rows), |rows|, mark);
            && (!(|ms| == 1 && i == ms[0]) ==> Trimmed(rows, i, todo - {mark}) == Trimmed(rows, i, todo))
            && (|ms| == 1 && i == ms[0] && mark in todo ==>
                    Trimmed(rows, i, todo - {mark}) == Plain(rows[i]) == Trimmed(rows, i, todo).(hardlink := None))
  {
    var ms := Members(Labels(rows), |rows|, mark);
    MembersAre(Labels(rows), |rows|, mark, i);
    if |ms| == 1 {
      assert i in ms <==> i == ms[0];
    }
  }

  method TrimLabel(entries: map<string, Entry>, ms: seq<nat>, rows: seq<Row>, ghost todo: set<string>,
          ghost mark: string) returns (trimmed: map<string, Entry>)
    requires Distinct(rows) && Table(entries, rows, |rows|, AllTrimmed(rows, todo)) && mark in todo
    requires ms == Members(Labels(rows), |rows|, mark)
    ensures Table(trimmed, rows, |rows|, AllTrimmed(rows, todo - {mark}))
  {
    trimmed := entries;
    forall i | 0 <= i < |rows| && rows[i].fate == Read
      ensures (!(|ms| == 1 && i == ms[0]) ==> AllTrimmed(rows, todo - {mark})[i] == AllTrimmed(rows, todo)[i])
    {
      TrimOne(rows, todo, mark, i);
    }
    if |ms| == 1 {
      var k := ms[0];
      assert k in ms;
      MembersAre(Labels(rows), |rows|, mark, k);
      TrimOne(rows, todo, mark, k);
      trimmed := entries[rows[k].path := entries[rows[k].path].(hardlink := None)];
      TableChanges(entries, rows, AllTrimmed(rows, todo), AllTrimmed(rows, todo - {mark}), k);
    } else {
      TableAgrees(entries, rows, AllTrimmed(rows, todo), AllTrimmed(rows, todo - {mark}));
    }
  }

  /** The loop that takes lone labels off. */
  method Trim(entries: map<string, Entry>, members: map<string, seq<nat>>,
          rows: seq<Row>) returns (trimmed: map<string, Entry>)
    requires Distinct(rows) && Table(entries, rows, |rows|, AllMarked(rows))
    requires members == Gathered(Labels(rows), |rows|)
    ensures Table(trimmed, rows, |rows|, AllTrimmed(rows, {}))
  {
    trimmed := entries;
    var todo := members.Keys;
    NothingTrimmed(entries, members, rows);
    while todo != {}
      invariant todo <= members.Keys && Table(trimmed, rows, |rows|, AllTrimmed(rows, todo))
      decreases |todo|
    {
      var mark :| mark in todo;
      GatheredAre(Labels(rows), |rows|, mark);
      trimmed := TrimLabel(trimmed, members[mark], rows, todo, mark);
      todo := todo - {mark};
    }
  }

  lemma NothingTrimmed(entries: map<string, Entry>, members: map<string, seq<nat>>, rows: seq<Row>)
    requires Table(entries, rows, |rows|, AllMarked(rows)) && members == Gathered(Labels(rows), |rows|)
    ensures Table(entries, rows, |rows|, AllTrimmed(rows, members.Keys))
  {
    forall i | 0 <= i < |rows| && rows[i].fate == Read
      ensures AllTrimmed(rows, members.Keys)[i] == AllMarked(rows)[i]
    {
      if LabelOf(rows, i).Some? {
        MembersAre(Labels(rows), |rows|, LabelOf(rows, i).value, i);
        GatheredAre(Labels(rows), |rows|, LabelOf(rows, i).value);
      }
    }
    TableAgrees(entries, rows, AllMarked(rows), AllTrimmed(rows, members.Keys));
  }

  lemma TrimmedDescribes(entries: map<string, Entry>, rows: seq<Row>)
    requires Distinct(rows) && Table(entries, rows, |rows|, AllTrimmed(rows, {}))
    ensures Describes(entries, rows)
  {
    forall i | 0 <= i < |rows| && rows[i].fate == Read
      ensures AllEntries(rows)[i] == AllTrimmed(rows, {})[i]
    {
      if Noted(rows[i]) {
        LoneIffNotShared(rows, i);
      }
    }
    TableAgrees(entries, rows, AllTrimmed(rows, {}), AllEntries(rows));
  }

  lemma {:induction false} ReachedIsPrefix(rows: seq<Row>)
    ensures Reached(rows) <= rows && (|Reached(rows)| < |rows| ==> rows[|Reached(rows)|].fate == Exhausted)
    ensures forall i :: 0 <= i < |Reached(rows)| ==> Reached(rows)[i].fate != Exhausted
  {
    if rows != [] && rows[0].fate != Exhausted {
      ReachedIsPrefix(rows[1..]);
    }
  }

  lemma ReachedAll(rows: seq<Row>)
    ensures (forall i :: 0 <= i < |Reached(rows)| ==> Reached(rows)[i].fate == Read) && |Reached(rows)| == |rows|
            <==> forall i :: 0 <= i < |rows| ==> rows[i].fate == Read
  {
    ReachedIsPrefix(rows);
  }

  /** The loops of `scan_tree` over the rows it gets to. */
  method ScanRows(rows: seq<Row>) returns (entries: map<string, Entry>, clean: bool)
    requires Distinct(rows)
    ensures Describes(entries, rows)
    ensures clean <==> forall i :: 0 <= i < |rows| ==> rows[i].fate == Read
  {
    entries, clean := Mark(rows);
    MarksCarry(entries, rows);
    var members := Gather(entries, rows, Labels(rows));
    entries := Trim(entries, members, rows);
    TrimmedDescribes(entries, rows);
  }

  /** `scan_tree` on the sorted rows of the inventory; `settled` is whether the checks after the loop found nothing. */
  method ScanTree(rows: seq<Row>, settled: bool) returns (m: Manifest)
    requires Distinct(rows)
    ensures Describes(m.entries, Reached(rows))
    ensures m.complete <==> settled && forall i :: 0 <= i < |rows| ==> rows[i].fate == Read
  {
    var reached := Reached(rows);
    ReachedIsPrefix(rows);
    ReachedAll(rows);
    var entries, clean := ScanRows(reached);
    m := Manifest(settled && clean && |reached| == |rows|, entries);
  }
}

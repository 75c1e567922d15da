/** The indentation parser of tools/check_workflow_policy.py: `_parse_tree` and `_walk`. */
module YamlTree {
  import opened Flow
  import opened FlowText
  import opened Wrappers

  // ---------------------------------------------------------------------
  // Lines

  datatype Node = Node(line: nat, indent: int, key: Option<string>, value: Value, listItem: bool)

  datatype LineFault = Tabs | NotAnEntry | Malformed(fault: Fault)

  datatype LineError = LineError(line: nat, fault: LineFault)

  const ROOT := Node(0, -1, None, Null, false)

  function LeadingSpaces(raw: string): (n: nat)
    ensures n <= |raw|
  {
    if raw == "" || raw[0] != ' ' then 0 else 1 + LeadingSpaces(raw[1..])
  }

  /** A tab among the spaces and tabs the line starts with. */
  predicate TabIndented(raw: string) {
    var n := LeadingSpaces(raw);
    n < |raw| && raw[n] == '\t'
  }

  predicate ListItem(content: string) {
    content == "-" || "- " <= content
  }

  /** What a list item holds after its dash. */
  function Body(content: string): string {
    if content == "-" then "" else if "- " <= content then StripLeft(content[2..]) else content
  }

  function Keyed(json: string -> Option<string>, pair: Pair): Result<(Option<string>, Value), LineFault> {
    match Unquote(json, pair.key)
    case Err(fault) => Err(Malformed(fault))
    case Ok(key) =>
      if key == "" then Err(Malformed(EmptyKey))
      else
        match ParseValue(json, pair.value)
        case Err(fault) => Err(Malformed(fault))
        case Ok(value) => Ok((Some(key), value))
  }

  /** The key and value of a line's content. */
  function KeyAndValue(json: string -> Option<string>, content: string): Result<(Option<string>, Value), LineFault> {
    match if Body(content) == "" then None else KeyValue(Body(content))
    case Some(pair) => Keyed(json, pair)
    case None =>
      if !ListItem(content) then Err(NotAnEntry)
      else
        match ParseValue(json, Body(content))
        case Err(fault) => Err(Malformed(fault))
        case Ok(value) => Ok((None, value))
  }

  /** The node of a line outside block scalars, or nothing for a blank or comment line. */
  function ReadLine(json: string -> Option<string>, number: nat, raw: string): (r: Result<Option<Node>, LineFault>)
    ensures r.Ok? && r.value.Some? ==> r.value.value.indent == LeadingSpaces(raw)
  {
    var indent := LeadingSpaces(raw);
    var content := Strip(WithoutComment(raw[indent..]));
    if content == "" then Ok(None)
    else
      match KeyAndValue(json, content)
      case Err(fault) => Err(fault)
      case Ok((key, value)) => Ok(Some(Node(number, indent, key, value, ListItem(content))))
  }

  predicate OpensBlock(node: Node) {
    node.value.Str? && node.value.text in BLOCK_SCALARS
  }

  function BlockAfter(node: Node): Option<int> {
    if OpensBlock(node) then Some(node.indent) else None
  }

  /** A line inside the block scalar opened at indentation `block`. */
  predicate InBlock(block: Option<int>, raw: string) {
    block.Some? && (Strip(raw) == "" || LeadingSpaces(raw) > block.value)
  }

  /** What one line gives, and the block scalar it leaves open. */
  datatype Line = Bad(fault: LineFault) | Skipped(block: Option<int>) | Kept(node: Node)

  function Classify(json: string -> Option<string>, block: Option<int>, number: nat, raw: string): (l: Line)
    ensures l.Kept? ==> l.node.indent >= 0
  {
    if TabIndented(raw) then Bad(Tabs)
    else if InBlock(block, raw) then Skipped(block)
    else
      match ReadLine(json, number, raw)
      case Err(fault) => Bad(fault)
      case Ok(None) => Skipped(None)
      case Ok(Some(node)) => Kept(node)
  }

  /** How a line is classified, given the open block scalar and the line's number. */
  type Classifier = (Option<int>, nat, string) -> Line

  function Yaml(json: string -> Option<string>): Classifier {
    (block: Option<int>, number: nat, raw: string) => Classify(json, block, number, raw)
  }

  /** The kept lines, up to the first bad one. */
  datatype Reading = Reading(nodes: seq<Node>, error: Option<LineError>)

  function Read(classify: Classifier, lines: seq<string>, i: nat, block: Option<int>): Reading
    requires i <= |lines|
    decreases |lines| - i
  {
    if i == |lines| then Reading([], None)
    else
      match classify(block, i + 1, lines[i])
      case Bad(fault) => Reading([], Some(LineError(i + 1, fault)))
      case Skipped(block') => Read(classify, lines, i + 1, block')
      case Kept(node) =>
        var rest := Read(classify, lines, i + 1, BlockAfter(node));
        rest.(nodes := [node] + rest.nodes)
  }

  lemma {:induction false} KeptAreIndented(classify: Classifier, lines: seq<string>, i: nat, block: Option<int>)
    requires i <= |lines|
    requires forall block, number, raw :: classify(block, number, raw).Kept? ==>
               classify(block, number, raw).node.indent >= 0
    ensures forall k :: 0 <= k < |Read(classify, lines, i, block).nodes| ==>
              Read(classify, lines, i, block).nodes[k].indent >= 0
    decreases |lines| - i
  {
    if i == |lines| {
    } else {
      match classify(block, i + 1, lines[i])
      case Bad(_) =>
      case Skipped(block') => KeptAreIndented(classify, lines, i + 1, block');
      case Kept(node) => KeptAreIndented(classify, lines, i + 1, BlockAfter(node));
    }
  }

  // ---------------------------------------------------------------------
  // The tree the kept lines stand for

  /** The last node up to `j` that is indented less than `indent`, or the root. */
  function Nearest(all: seq<Node>, j: nat, indent: int): (p: nat)
    requires j < |all|
    ensures p <= j && (p == 0 || all[p].indent < indent)
    ensures forall k :: p < k <= j ==> all[k].indent >= indent
  {
    if j == 0 || all[j].indent < indent then j else Nearest(all, j - 1, indent)
  }

  /** The nearest earlier kept line of strictly smaller indentation, or the root. */
  function Parent(all: seq<Node>, i: nat): (p: nat)
    requires 0 < i < |all|
    ensures p < i && (p == 0 || all[p].indent < all[i].indent)
    ensures forall k :: p < k < i ==> all[k].indent >= all[i].indent
  {
    Nearest(all, i - 1, all[i].indent)
  }

  /** The children of `p` among the nodes from `lo` to before `hi`, in line order. */
  function Between(all: seq<Node>, p: nat, lo: nat, hi: nat): (cs: seq<nat>)
    requires 0 < lo && hi <= |all|
    ensures forall k :: 0 <= k < |cs| ==> p < cs[k] < hi
    decreases hi - lo
  {
    if lo >= hi then [] else (if Parent(all, lo) == p then [lo] else []) + Between(all, p, lo + 1, hi)
  }

  /** Node objects by number, with their parent and children links; the root is number 0. */
  datatype Tree = Tree(nodes: seq<Node>, parent: seq<nat>, children: seq<seq<nat>>)

  /** The first `n` nodes are linked, each to its nearest less indented predecessor. */
  ghost predicate Linked(t: Tree, all: seq<Node>, n: nat) {
    && 0 < n <= |all| && t.nodes == all[..n] && |t.parent| == |t.children| == n
    && (forall i :: 0 < i < n ==> t.parent[i] == Parent(all, i))
    && (forall p :: 0 <= p < n ==> t.children[p] == Between(all, p, 1, n))
  }

  lemma {:induction false} BetweenOneMore(all: seq<Node>, p: nat, lo: nat, hi: nat)
    requires 0 < lo <= hi < |all|
    ensures Between(all, p, lo, hi + 1) == Between(all, p, lo, hi) + if Parent(all, hi) == p then [hi] else []
    decreases hi - lo
  {
    if lo < hi {
      BetweenOneMore(all, p, lo + 1, hi);
    } else {
      assert Between(all, p, lo + 1, hi + 1) == [];
    }
  }

  // ---------------------------------------------------------------------
  // The stack

  /** The stack after node `i`: its ancestors from the root down, then itself. */
  function Chain(all: seq<Node>, i: nat): (stack: seq<nat>)
    requires i < |all|
    ensures stack != [] && stack[|stack| - 1] == i && (|stack| == 1 <==> i == 0)
  {
    if i == 0 then [0] else Chain(all, Parent(all, i)) + [i]
  }

  /** Going to the parent of a node that is not indented less skips nothing that is. */
  lemma {:induction false} NearestSkips(all: seq<Node>, p: nat, j: nat, indent: int)
    requires p <= j < |all| && forall k :: p < k <= j ==> all[k].indent >= indent
    ensures Nearest(all, j, indent) == Nearest(all, p, indent)
  {
    if p == j {
    } else {
      NearestSkips(all, p, j - 1, indent);
    }
  }

  /** The stack loop: pop until the top is indented less, or only the root is left. */
  method Pop(t: Tree, ghost all: seq<Node>, n: nat, stack: seq<nat>, indent: int) returns (popped: seq<nat>)
    requires 0 < n <= |all| && t.nodes == all[..n] && stack == Chain(all, n - 1)
    ensures popped == Chain(all, Nearest(all, n - 1, indent))
  {
    popped := stack;
    ghost var top := n - 1;
    while |popped| > 1 && indent <= t.nodes[popped[|popped| - 1]].indent
      invariant 0 <= top < n && popped == Chain(all, top)
      invariant Nearest(all, n - 1, indent) == Nearest(all, top, indent)
      decreases |popped|
    {
      NearestSkips(all, Parent(all, top), top, indent);
      popped := popped[..|popped| - 1];
      top := Parent(all, top);
    }
  }

  /** `parent.children.append(node)` for a node that is pushed on the stack. */
  method Append(t: Tree, ghost all: seq<Node>, n: nat, node: Node, parent: nat) returns (t': Tree)
    requires Linked(t, all, n) && n < |all| && node == all[n] && parent == Parent(all, n)
    ensures Linked(t', all, n + 1)
  {
    t' := Tree(t.nodes + [node], t.parent + [parent], t.children[parent := t.children[parent] + [n]] + [[]]);
    assert t'.nodes == all[..n + 1];
    forall p | 0 <= p <= n
      ensures t'.children[p] == Between(all, p, 1, n + 1)
    {
      BetweenOneMore(all, p, 1, n);
      if p == n {
        NoEarlyChild(all, n, 1, n);
      }
    }
  }

  lemma NoEarlyChild(all: seq<Node>, p: nat, lo: nat, hi: nat)
    requires 0 < lo && hi <= |all| && hi <= p
    ensures Between(all, p, lo, hi) == []
    decreases hi - lo
  {
    if lo < hi {
      NoEarlyChild(all, p, lo + 1, hi);
    }
  }

  /** A kept line: pop the stack, link the node under what is left on top, and push it. */
  method Place(t: Tree, ghost all: seq<Node>, n: nat, stack: seq<nat>, node: Node) returns (t': Tree, stack': seq<nat>)
    requires Linked(t, all, n) && stack == Chain(all, n - 1) && n < |all| && node == all[n]
    ensures Linked(t', all, n + 1) && stack' == Chain(all, n)
  {
    stack' := Pop(t, all, n, stack, node.indent);
    t' := Append(t, all, n, node, stack'[|stack'| - 1]);
    stack' := stack' + [n];
  }

  /** The nodes read so far and the ones to come. */
  ghost predicate Reads(all: seq<Node>, n: nat, error: Option<LineError>, rest: Reading) {
    n <= |all| && all[n..] == rest.nodes && error == rest.error
  }

  lemma ReadsFirst(rest: Reading)
    ensures var all := [ROOT] + rest.nodes;
            Reads(all, 1, rest.error, rest) && Linked(Tree([ROOT], [0], [[]]), all, 1) && Chain(all, 0) == [0]
  {
    var all := [ROOT] + rest.nodes;
    assert all[..1] == [ROOT] && all[1..] == rest.nodes;
  }

  lemma ReadsLast(all: seq<Node>, n: nat, error: Option<LineError>)
    requires Reads(all, n, error, Reading([], None))
    ensures n == |all| && error.None?
  {
  }

  lemma ReadsOne(all: seq<Node>, n: nat, error: Option<LineError>, node: Node, rest: Reading)
    requires Reads(all, n, error, rest.(nodes := [node] + rest.nodes))
    ensures n < |all| && all[n] == node && Reads(all, n + 1, error, rest)
  {
    assert all[n] == all[n..][0];
    assert all[n + 1..] == all[n..][1..];
  }

  /** The loop of `_parse_tree` over the lines of the file. */
  method ParseLines(classify: Classifier, lines: seq<string>) returns (r: Result<Tree, LineError>)
    ensures r.Err? <==> Read(classify, lines, 0, None).error.Some?
    ensures r.Err? ==> r.error == Read(classify, lines, 0, None).error.value
    ensures r.Ok? ==> var all := [ROOT] + Read(classify, lines, 0, None).nodes; Linked(r.value, all, |all|)
  {
    ghost var all := [ROOT] + Read(classify, lines, 0, None).nodes;
    ghost var error := Read(classify, lines, 0, None).error;
    var t, stack, n := Tree([ROOT], [0], [[]]), [0], 1;
    var block: Option<int> := None;
    ReadsFirst(Read(classify, lines, 0, None));
    for i := 0 to |lines|
      invariant Linked(t, all, n) && stack == Chain(all, n - 1)
      invariant Reads(all, n, error, Read(classify, lines, i, block))
    {
      var line := classify(block, i + 1, lines[i]);
      match line {
        case Bad(fault) =>
          return Err(LineError(i + 1, fault));
        case Skipped(block') =>
          block := block';
        case Kept(node) =>
          ReadsOne(all, n, error, node, Read(classify, lines, i + 1, BlockAfter(node)));
          t, stack := Place(t, all, n, stack, node);
          n := n + 1;
          block := BlockAfter(node);
      }
    }
    ReadsLast(all, n, error);
    r := Ok(t);
  }

  /** The nodes a text stands for, or its first error. */
  function Lines(json: string -> Option<string>, lines: seq<string>): Reading {
    Read(Yaml(json), lines, 0, None)
  }

  /**
   `_parse_tree`: one node per kept line, linked to the nearest less indented one before it, and walked
   in line order.
   */
  method ParseTree(json: string -> Option<string>, lines: seq<string>) returns (r: Result<Tree, LineError>)
    ensures r.Err? <==> Lines(json, lines).error.Some?
    ensures r.Err? ==> r.error == Lines(json, lines).error.value
    ensures r.Ok? ==>
              var all := [ROOT] + Lines(json, lines).nodes;
              Linked(r.value, all, |all|) && Downward(r.value) && Walk(r.value, 0) == Range(1, |all|)
  {
    r := ParseLines(Yaml(json), lines);
    if r.Ok? {
      KeptAreIndented(Yaml(json), lines, 0, None);
      WalkInLineOrder(r.value, [ROOT] + Lines(json, lines).nodes);
    }
  }

  // ---------------------------------------------------------------------
  // Walking

  predicate Downward(t: Tree) {
    |t.children| == |t.nodes| &&
    forall p, k :: 0 <= p < |t.nodes| && 0 <= k < |t.children[p]| ==> p < t.children[p][k] < |t.nodes|
  }

  /** `_walk` */
  function Walk(t: Tree, p: nat): seq<nat>
    requires Downward(t) && p < |t.nodes|
    decreases |t.nodes| - p, |t.children[p]| + 1
  {
    WalkEach(t, p, t.children[p])
  }

  function WalkEach(t: Tree, p: nat, cs: seq<nat>): seq<nat>
    requires Downward(t) && p < |t.nodes| && forall k :: 0 <= k < |cs| ==> p < cs[k] < |t.nodes|
    decreases |t.nodes| - p, |cs|
  {
    if cs == [] then [] else [cs[0]] + (Walk(t, cs[0]) + WalkEach(t, p, cs[1..]))
  }

  function Range(lo: nat, hi: nat): seq<nat>
    decreases hi - lo
  {
    if lo >= hi then [] else [lo] + Range(lo + 1, hi)
  }

  lemma {:induction false} RangeConcat(lo: nat, mid: nat, hi: nat)
    requires lo <= mid <= hi
    ensures Range(lo, mid) + Range(mid, hi) == Range(lo, hi)
    decreases mid - lo
  {
    if lo == mid {
    } else {
      RangeConcat(lo + 1, mid, hi);
    }
  }

  /** The first node from `k` on that is not indented more than `p`, or the end: there the subtree of `p` ends. */
  function End(all: seq<Node>, p: nat, k: nat): (e: nat)
    requires p < k <= |all|
    ensures k <= e <= |all| && (forall j :: k <= j < e ==> all[j].indent > all[p].indent)
    ensures e < |all| ==> all[e].indent <= all[p].indent
    decreases |all| - k
  {
    if k == |all| || all[k].indent <= all[p].indent then k else End(all, p, k + 1)
  }

  /** Node 0 is the root and nothing else is indented as little. */
  predicate Rooted(all: seq<Node>) {
    all != [] && all[0].indent == -1 && forall i :: 0 < i < |all| ==> all[i].indent >= 0
  }

  lemma LinkedIsDownward(t: Tree, all: seq<Node>)
    requires |all| > 0 && Linked(t, all, |all|)
    ensures Downward(t)
  {
    assert all[..|all|] == all;
  }

  /** No node from the end of a subtree on is a child of its root. */
  lemma {:induction false} NoLateChild(all: seq<Node>, p: nat, lo: nat)
    requires Rooted(all) && p < |all| && End(all, p, p + 1) <= lo <= |all|
    ensures Between(all, p, lo, |all|) == []
    decreases |all| - lo
  {
    if lo == |all| {
    } else {
      NoLateChild(all, p, lo + 1);
      var e := End(all, p, p + 1);
      assert all[e].indent <= all[p].indent;
      assert Parent(all, lo) != p;
    }
  }

  /** Inside the subtree of `k` there is no child of an earlier node. */
  lemma {:induction false} NoInnerChild(all: seq<Node>, p: nat, k: nat, lo: nat)
    requires p < k < |all| && k < lo <= End(all, k, k + 1)
    ensures Between(all, p, lo, |all|) == Between(all, p, End(all, k, k + 1), |all|)
    decreases |all| - lo
  {
    if lo == End(all, k, k + 1) {
    } else {
      NoInnerChild(all, p, k, lo + 1);
      assert all[lo].indent > all[k].indent;
    }
  }

  /** Everything between `p` and `k` is indented at least as much as `k`. */
  predicate Boundary(all: seq<Node>, p: nat, k: nat) {
    p < k <= |all| && (k < |all| ==> forall j :: p < j < k ==> all[j].indent >= all[k].indent)
  }

  lemma BoundaryChild(all: seq<Node>, p: nat, k: nat)
    requires Boundary(all, p, k) && k < End(all, p, p + 1)
    ensures Parent(all, k) == p && End(all, k, k + 1) <= End(all, p, p + 1) && Boundary(all, p, End(all, k, k + 1))
  {
    assert all[k].indent > all[p].indent;
  }

  lemma NextChild(all: seq<Node>, p: nat, k: nat)
    requires p < k < |all| && Parent(all, k) == p
    ensures Between(all, p, k, |all|) == [k] + Between(all, p, End(all, k, k + 1), |all|)
  {
    NoInnerChild(all, p, k, k + 1);
  }

  lemma WalkEachCons(t: Tree, p: nat, c: nat, cs: seq<nat>)
    requires Downward(t) && p < c < |t.nodes| && forall k :: 0 <= k < |cs| ==> p < cs[k] < |t.nodes|
    ensures WalkEach(t, p, [c] + cs) == [c] + (Walk(t, c) + WalkEach(t, p, cs))
  {
    assert ([c] + cs)[1..] == cs;
  }

  lemma {:induction false} WalkIsRange(t: Tree, all: seq<Node>, p: nat)
    requires Rooted(all) && Linked(t, all, |all|) && Downward(t) && p < |all|
    ensures Walk(t, p) == Range(p + 1, End(all, p, p + 1))
    decreases |all| - p, |all|
  {
    assert all[..|all|] == all;
    if p > 0 {
      EarlyChildren(all, p, 1);
    }
    WalkRest(t, all, p, p + 1);
  }

  lemma {:induction false} EarlyChildren(all: seq<Node>, p: nat, lo: nat)
    requires 0 < lo <= p + 1 <= |all|
    ensures Between(all, p, lo, |all|) == Between(all, p, p + 1, |all|)
    decreases p + 1 - lo
  {
    if lo <= p {
      EarlyChildren(all, p, lo + 1);
    }
  }

  lemma {:induction false} WalkRest(t: Tree, all: seq<Node>, p: nat, k: nat)
    requires Rooted(all) && Linked(t, all, |all|) && Downward(t) && |t.nodes| == |all|
    requires p < k <= |all| && k <= End(all, p, p + 1) && Boundary(all, p, k)
    ensures WalkEach(t, p, Between(all, p, k, |all|)) == Range(k, End(all, p, p + 1))
    decreases |all| - p, |all| - k
  {
    var end := End(all, p, p + 1);
    if k == end {
      NoLateChild(all, p, k);
    } else {
      var e := End(all, k, k + 1);
      BoundaryChild(all, p, k);
      NextChild(all, p, k);
      WalkIsRange(t, all, k);
      WalkRest(t, all, p, e);
      WalkEachCons(t, p, k, Between(all, p, e, |all|));
      RangeConcat(k + 1, e, end);
    }
  }

  /** The preorder walk lists the nodes in line order. */
  lemma WalkInLineOrder(t: Tree, all: seq<Node>)
    requires Rooted(all) && Linked(t, all, |all|)
    ensures Downward(t) && Walk(t, 0) == Range(1, |all|)
  {
    LinkedIsDownward(t, all);
    WalkIsRange(t, all, 0);
    assert End(all, 0, 1) == |all|;
  }
}

/**
 The quoting and bracketing of one-line YAML (tools/check_workflow_policy.py): a reference
 automaton that takes one character at a time, and the program's look-ahead loops over it.
 */
module FlowText {
  import opened Wrappers

  // ---------------------------------------------------------------------
  // White space, as `str.isspace` and `str.strip` know it

  predicate IsSpace(c: char) {
    var x := c as int;
    || 0x9 <= x <= 0xD || 0x1C <= x <= 0x20 || x == 0x85 || x == 0xA0 || x == 0x1680
    || 0x2000 <= x <= 0x200A || x == 0x2028 || x == 0x2029 || x == 0x202F || x == 0x205F || x == 0x3000
  }

  function StripLeft(s: string): (r: string)
    ensures |r| <= |s|
  {
    if s == "" || !IsSpace(s[0]) then s else StripLeft(s[1..])
  }

  function StripRight(s: string): (r: string)
    ensures |r| <= |s|
  {
    if s == "" || !IsSpace(s[|s| - 1]) then s else StripRight(s[..|s| - 1])
  }

  function Strip(s: string): (r: string)
    ensures |r| <= |s|
  {
    StripRight(StripLeft(s))
  }

  /** Text that stripping leaves alone. */
  predicate Solid(s: string) {
    s != "" && !IsSpace(s[0]) && !IsSpace(s[|s| - 1])
  }

  lemma StripSolid(s: string)
    requires Solid(s)
    ensures Strip(s) == s && Strip(" " + s) == s
  {
    assert (" " + s)[1..] == s;
    assert StripLeft(" " + s) == StripLeft(s);
  }

  // ---------------------------------------------------------------------
  // The reference automaton

  datatype Mode = Bare | Single | Double | Escaped

  datatype Scan = Scan(mode: Mode, depth: int)

  const START := Scan(Bare, 0)

  predicate Opener(c: char) {
    c == '[' || c == '{' || c == '('
  }

  predicate Closer(c: char) {
    c == ']' || c == '}' || c == ')'
  }

  function Feed(s: Scan, c: char): Scan {
    match s.mode
    case Single => if c == '\'' then s.(mode := Bare) else s
    case Double => if c == '\\' then s.(mode := Escaped) else if c == '"' then s.(mode := Bare) else s
    case Escaped => s.(mode := Double)
    case Bare =>
      if c == '\'' then s.(mode := Single)
      else if c == '"' then s.(mode := Double)
      else if Opener(c) then s.(depth := s.depth + 1)
      else if Closer(c) then s.(depth := s.depth - 1)
      else s
  }

  function Run(s: Scan, text: string): Scan
    decreases |text|
  {
    if text == "" then s else Run(Feed(s, text[0]), text[1..])
  }

  datatype Fault = Unbalanced | Unterminated | UnterminatedSequence | UnterminatedMapping | BadQuoting | NoPair
          | EmptyKey | DuplicateKey

  /** What is wrong with the brackets and quotes from `i` on, if anything. */
  function FaultAt(text: string, i: nat, s: Scan): Option<Fault>
    requires i <= |text|
    decreases |text| - i
  {
    if i == |text| then if s == START then None else Some(Unterminated)
    else if s == START && Closer(text[i]) then Some(Unbalanced)
    else FaultAt(text, i + 1, Feed(s, text[i]))
  }

  predicate Ordered(cuts: seq<nat>, first: nat, end: nat) {
    cuts == [] || (first <= cuts[0] < end && Ordered(cuts[1..], cuts[0] + 1, end))
  }

  /** Where the text from `i` on is cut: at every comma outside quotes and brackets. */
  function CutsAt(text: string, i: nat, s: Scan): (cuts: seq<nat>)
    requires i <= |text|
    ensures Ordered(cuts, i, |text|)
    decreases |text| - i
  {
    if i == |text| then []
    else if s == START && text[i] == ',' then [i] + CutsAt(text, i + 1, s)
    else CutsAt(text, i + 1, Feed(s, text[i]))
  }

  lemma RunOneMore(s: Scan, text: string, c: char)
    ensures Run(s, text + [c]) == Feed(Run(s, text), c)
    decreases |text|
  {
    if text == "" {
      assert Run(Feed(s, c), []) == Feed(s, c);
      assert (text + [c])[1..] == [];
    } else {
      assert (text + [c])[1..] == text[1..] + [c];
      RunOneMore(Feed(s, text[0]), text[1..], c);
    }
  }

  /** The cuts are exactly the commas the automaton reaches in its starting state. */
  lemma {:induction false} CutsAreTopCommas(text: string, i: nat, c: nat)
    requires i <= |text|
    ensures c in CutsAt(text, i, Run(START, text[..i])) <==>
              i <= c < |text| && text[c] == ',' && Run(START, text[..c]) == START
    decreases |text| - i
  {
    if i == |text| {
    } else {
      RunOneMore(START, text[..i], text[i]);
      assert text[..i] + [text[i]] == text[..i + 1];
      CutsAreTopCommas(text, i + 1, c);
    }
  }

  /** The pieces from `start` on, each trimmed by `trim`. */
  function Pieces(trim: string -> string, text: string, start: nat, cuts: seq<nat>): seq<string>
    requires start <= |text| && Ordered(cuts, start, |text|)
    decreases |cuts|
  {
    if cuts == [] then [trim(text[start..])]
    else [trim(text[start..cuts[0]])] + Pieces(trim, text, cuts[0] + 1, cuts[1..])
  }

  const WHOLE: string -> string := (s: string) => s
  const STRIP: string -> string := (s: string) => Strip(s)

  lemma {:induction false} PiecesAreShort(text: string, start: nat, cuts: seq<nat>)
    requires start <= |text| && Ordered(cuts, start, |text|)
    ensures forall k :: 0 <= k < |Pieces(STRIP, text, start, cuts)| ==> |Pieces(STRIP, text, start, cuts)[k]| <= |text|
    decreases |cuts|
  {
    if cuts == [] {
    } else {
      PiecesAreShort(text, cuts[0] + 1, cuts[1..]);
    }
  }

  function Join(pieces: seq<string>): string
    requires pieces != []
  {
    if |pieces| == 1 then pieces[0] else pieces[0] + "," + Join(pieces[1..])
  }

  lemma Rejoin(text: string, start: nat, cut: nat)
    requires start <= cut < |text| && text[cut] == ','
    ensures text[start..cut] + "," + text[cut + 1..] == text[start..]
  {
  }

  /** Cutting at commas loses no text. */
  lemma {:induction false} PiecesJoin(text: string, start: nat, cuts: seq<nat>)
    requires start <= |text| && Ordered(cuts, start, |text|)
    requires forall k :: 0 <= k < |cuts| ==> cuts[k] < |text| && text[cuts[k]] == ','
    ensures Pieces(WHOLE, text, start, cuts) != [] && Join(Pieces(WHOLE, text, start, cuts)) == text[start..]
    decreases |cuts|
  {
    if cuts == [] {
    } else {
      PiecesJoin(text, cuts[0] + 1, cuts[1..]);
      var rest := Pieces(WHOLE, text, cuts[0] + 1, cuts[1..]);
      assert ([text[start..cuts[0]]] + rest)[1..] == rest;
      Rejoin(text, start, cuts[0]);
    }
  }

  function Split(text: string): (r: Result<seq<string>, Fault>)
    ensures r.Ok? ==> forall k :: 0 <= k < |r.value| ==> |r.value[k]| <= |text|
  {
    match FaultAt(text, 0, START)
    case Some(fault) => Err(fault)
    case None =>
      PiecesAreShort(text, 0, CutsAt(text, 0, START));
      Ok(Pieces(STRIP, text, 0, CutsAt(text, 0, START)))
  }

  /** Whatever splits is cut exactly at its top commas, and the pieces are the whole text. */
  lemma SplitLosesNothing(text: string)
    ensures var pieces := Pieces(WHOLE, text, 0, CutsAt(text, 0, START)); pieces != [] && Join(pieces) == text
    ensures forall c: nat :: c in CutsAt(text, 0, START) <==>
              c < |text| && text[c] == ',' && Run(START, text[..c]) == START
  {
    var cuts := CutsAt(text, 0, START);
    assert text[..0] == "";
    forall c: nat
      ensures c in cuts <==> c < |text| && text[c] == ',' && Run(START, text[..c]) == START
    {
      CutsAreTopCommas(text, 0, c);
    }
    forall k | 0 <= k < |cuts|
      ensures cuts[k] < |text| && text[cuts[k]] == ','
    {
      assert cuts[k] in cuts;
    }
    PiecesJoin(text, 0, cuts);
    assert text[0..] == text;
  }

  lemma {:induction false} FaultAtIff(text: string, i: nat)
    requires i <= |text|
    ensures FaultAt(text, i, Run(START, text[..i])).None? <==>
            && Run(START, text) == START
            && forall c :: i <= c < |text| && Run(START, text[..c]) == START ==> !Closer(text[c])
    decreases |text| - i
  {
    if i < |text| {
      RunOneMore(START, text[..i], text[i]);
      assert text[..i] + [text[i]] == text[..i + 1];
      FaultAtIff(text, i + 1);
    } else {
      assert text[..i] == text;
    }
  }

  /** Text splits exactly when its quotes and brackets are all closed, and none was closed before it opened. */
  lemma SplitsIffBalanced(text: string)
    ensures Split(text).Ok? <==>
            && Run(START, text) == START
            && forall c :: 0 <= c < |text| && Run(START, text[..c]) == START ==> !Closer(text[c])
  {
    assert text[..0] == "";
    FaultAtIff(text, 0);
  }

  /** The first colon outside quotes and brackets that ends the text or has white space after it. */
  function ColonAt(text: string, i: nat, s: Scan): (r: Option<nat>)
    requires i <= |text|
    ensures r.Some? ==> i <= r.value < |text|
    decreases |text| - i
  {
    if i == |text| then None
    else if s == START && text[i] == ':' && (i + 1 == |text| || IsSpace(text[i + 1])) then Some(i)
    else ColonAt(text, i + 1, Feed(s, text[i]))
  }

  datatype Pair = Pair(key: string, value: string)

  function KeyValue(text: string): (r: Option<Pair>)
    ensures r.Some? ==> |r.value.key| < |text| && |r.value.value| < |text|
  {
    match ColonAt(text, 0, START)
    case None => None
    case Some(i) => Some(Pair(Strip(text[..i]), Strip(text[i + 1..])))
  }

  /** The first `#` outside quotes that starts the text or has white space before it, or the end. */
  function CommentAt(text: string, i: nat, s: Scan): (r: nat)
    requires i <= |text|
    ensures i <= r <= |text|
    decreases |text| - i
  {
    if i == |text| then i
    else if s.mode.Bare? && text[i] == '#' && (i == 0 || IsSpace(text[i - 1])) then i
    else CommentAt(text, i + 1, Feed(s, text[i]))
  }

  function WithoutComment(text: string): string {
    StripRight(text[..CommentAt(text, 0, START)])
  }

  // ---------------------------------------------------------------------
  // The loops

  /** What the loops do inside quotes: a doubled quote and an escape are skipped as two characters. */
  function Skip(text: string, i: nat, mode: Mode): (r: (nat, Mode))
    requires i < |text| && (mode.Single? || mode.Double?)
    ensures i < r.0 && !r.1.Escaped?
  {
    if mode.Single? then
      if text[i] == '\'' then if i + 1 < |text| && text[i + 1] == '\'' then (i + 2, mode) else (i + 1, Bare)
      else (i + 1, mode)
    else if text[i] == '\\' then (i + 2, mode)
    else if text[i] == '"' then (i + 1, Bare)
    else (i + 1, mode)
  }

  lemma FeedOne(text: string, i: nat, s: Scan)
    requires i < |text| && !s.mode.Bare?
    ensures FaultAt(text, i, s) == FaultAt(text, i + 1, Feed(s, text[i]))
    ensures CutsAt(text, i, s) == CutsAt(text, i + 1, Feed(s, text[i]))
    ensures ColonAt(text, i, s) == ColonAt(text, i + 1, Feed(s, text[i]))
    ensures CommentAt(text, i, s) == CommentAt(text, i + 1, Feed(s, text[i]))
  {
  }

  /** Skipping is what the automaton does, one or two characters at a time. */
  lemma SkipFollows(text: string, i: nat, mode: Mode, depth: int)
    requires i < |text| && (mode.Single? || mode.Double?)
    ensures var (j, mode') := Skip(text, i, mode);
            if j <= |text| then
              && FaultAt(text, i, Scan(mode, depth)) == FaultAt(text, j, Scan(mode', depth))
              && CutsAt(text, i, Scan(mode, depth)) == CutsAt(text, j, Scan(mode', depth))
              && ColonAt(text, i, Scan(mode, depth)) == ColonAt(text, j, Scan(mode', depth))
              && CommentAt(text, i, Scan(mode, depth)) == CommentAt(text, j, Scan(mode', depth))
            else
              && j == |text| + 1 && mode' == Double
              && FaultAt(text, i, Scan(mode, depth)) == Some(Unterminated)
              && ColonAt(text, i, Scan(mode, depth)).None? && CommentAt(text, i, Scan(mode, depth)) == |text|
  {
    FeedOne(text, i, Scan(mode, depth));
    if Skip(text, i, mode).0 == i + 2 <= |text| {
      SkipPair(text, i, Scan(mode, depth));
    }
  }

  lemma SkipPair(text: string, i: nat, s: Scan)
    requires i + 2 <= |text|
    requires (s.mode.Single? && text[i] == text[i + 1] == '\'') || (s.mode.Double? && text[i] == '\\')
    ensures FaultAt(text, i, s) == FaultAt(text, i + 2, s)
    ensures CutsAt(text, i, s) == CutsAt(text, i + 2, s)
    ensures ColonAt(text, i, s) == ColonAt(text, i + 2, s)
    ensures CommentAt(text, i, s) == CommentAt(text, i + 2, s)
  {
    FeedOne(text, i, s);
    assert Feed(Feed(s, text[i]), text[i + 1]) == s;
  }

  /** The split has given `parts`, the text since `start` is not cut yet, and `split` is what it will come to. */
  ghost predicate Cutting(split: Result<seq<string>, Fault>, text: string, parts: seq<string>, start: nat,
          i: nat, s: Scan) {
    && start <= i <= |text|
    && match FaultAt(text, i, s) {
         case Some(fault) => split == Err(fault)
         case None => split == Ok(parts + Pieces(STRIP, text, start, CutsAt(text, i, s)))
       }
  }

  lemma CuttingStarts(text: string)
    ensures Cutting(Split(text), text, [], 0, 0, START)
  {
    var all := Pieces(STRIP, text, 0, CutsAt(text, 0, START));
    assert [] + all == all;
  }

  lemma CuttingSkips(split: Result<seq<string>, Fault>, text: string, parts: seq<string>, start: nat, i: nat,
          mode: Mode, depth: int)
    requires Cutting(split, text, parts, start, i, Scan(mode, depth)) && i < |text| && (mode.Single? || mode.Double?)
    ensures var (j, mode') := Skip(text, i, mode);
            if j <= |text| then Cutting(split, text, parts, start, j, Scan(mode', depth))
            else mode' == Double && split == Err(Unterminated)
  {
    SkipFollows(text, i, mode, depth);
  }

  lemma CuttingOff(split: Result<seq<string>, Fault>, text: string, parts: seq<string>, start: nat, i: nat)
    requires Cutting(split, text, parts, start, i, START) && i < |text| && text[i] == ','
    ensures Cutting(split, text, parts + [Strip(text[start..i])], i + 1, i + 1, START)
  {
    var rest := CutsAt(text, i + 1, START);
    assert ([i] + rest)[1..] == rest;
    Reassociate(parts, Strip(text[start..i]), Pieces(STRIP, text, i + 1, rest));
  }

  lemma Reassociate<T>(a: seq<T>, b: T, c: seq<T>)
    ensures a + ([b] + c) == a + [b] + c
  {
  }

  lemma CuttingMoves(split: Result<seq<string>, Fault>, text: string, parts: seq<string>, start: nat, i: nat,
          depth: nat)
    requires Cutting(split, text, parts, start, i, Scan(Bare, depth)) && i < |text|
    ensures depth == 0 && Closer(text[i]) ==> split == Err(Unbalanced)
    ensures !(depth == 0 && (text[i] == ',' || Closer(text[i]))) ==>
              Cutting(split, text, parts, start, i + 1, Feed(Scan(Bare, depth), text[i]))
  {
  }

  lemma CuttingEnds(split: Result<seq<string>, Fault>, text: string, parts: seq<string>, start: nat, s: Scan)
    requires Cutting(split, text, parts, start, |text|, s)
    ensures split == if s == START then Ok(parts + [Strip(text[start..])]) else Err(Unterminated)
  {
  }

  /** `_split_flow_items` */
  method SplitFlowItems(text: string) returns (r: Result<seq<string>, Fault>)
    ensures r == Split(text)
  {
    var parts: seq<string> := [];
    var start, mode, depth, index := 0, Bare, 0, 0;
    ghost var split := Split(text);
    CuttingStarts(text);
    while index < |text|
      invariant start <= |text| && depth >= 0 && !mode.Escaped?
      invariant if index <= |text| then Cutting(split, text, parts, start, index, Scan(mode, depth))
                else mode == Double && split == Err(Unterminated)
    {
      if !mode.Bare? {
        CuttingSkips(split, text, parts, start, index, mode, depth);
        var skipped := Skip(text, index, mode);
        index, mode := skipped.0, skipped.1;
        continue;
      }
      var c := text[index];
      if c == ',' && depth == 0 {
        CuttingOff(split, text, parts, start, index);
        parts := parts + [Strip(text[start..index])];
        start := index + 1;
      } else {
        CuttingMoves(split, text, parts, start, index, depth);
        if Closer(c) && depth == 0 {
          return Err(Unbalanced);
        }
        var next := Feed(Scan(Bare, depth), c);
        mode, depth := next.mode, next.depth;
      }
      index := index + 1;
    }
    if index == |text| {
      CuttingEnds(split, text, parts, start, Scan(mode, depth));
    }
    if !mode.Bare? || depth != 0 {
      return Err(Unterminated);
    }
    r := Ok(parts + [Strip(text[start..])]);
  }

  /** `_split_key_value`, which does not mind an unmatched bracket. */
  method SplitKeyValue(text: string) returns (r: Option<Pair>)
    ensures r == KeyValue(text)
  {
    var mode, depth, index := Bare, 0, 0;
    while index < |text|
      invariant !mode.Escaped?
      invariant index <= |text| ==> ColonAt(text, 0, START) == ColonAt(text, index, Scan(mode, depth))
      invariant index > |text| ==> ColonAt(text, 0, START).None?
    {
      if !mode.Bare? {
        SkipFollows(text, index, mode, depth);
        var skipped := Skip(text, index, mode);
        index, mode := skipped.0, skipped.1;
        continue;
      }
      var c := text[index];
      if c == ':' && depth == 0 && (index + 1 == |text| || IsSpace(text[index + 1])) {
        return Some(Pair(Strip(text[..index]), Strip(text[index + 1..])));
      }
      var next := Feed(Scan(Bare, depth), c);
      mode, depth := next.mode, next.depth;
      index := index + 1;
    }
    r := None;
  }

  /** `_strip_comment`, which looks at quotes only. */
  method StripComment(text: string) returns (r: string)
    ensures r == WithoutComment(text)
  {
    var mode, index := Bare, 0;
    ghost var depth := 0;
    while index < |text|
      invariant !mode.Escaped?
      invariant index <= |text| ==> CommentAt(text, 0, START) == CommentAt(text, index, Scan(mode, depth))
      invariant index > |text| ==> CommentAt(text, 0, START) == |text|
    {
      if !mode.Bare? {
        SkipFollows(text, index, mode, depth);
        var skipped := Skip(text, index, mode);
        index, mode := skipped.0, skipped.1;
        continue;
      }
      var c := text[index];
      if c == '#' && (index == 0 || IsSpace(text[index - 1])) {
        return StripRight(text[..index]);
      }
      depth := Feed(Scan(Bare, depth), c).depth;
      if c == '\'' {
        mode := Single;
      } else if c == '"' {
        mode := Double;
      }
      index := index + 1;
    }
    assert text[..|text|] == text;
    r := StripRight(text);
  }
}

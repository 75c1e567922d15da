/** Every printable flow value parses back to itself. */
module FlowRoundTrip {
  import opened Flow
  import opened FlowText
  import opened Wrappers

  // ---------------------------------------------------------------------
  // Text the automaton passes over

  /** In its starting state, the automaton meets no character of `stops` in this text. */
  predicate Avoids(s: Scan, text: string, stops: set<char>)
    decreases |text|
  {
    text == "" || (!(s == START && text[0] in stops) && Avoids(Feed(s, text[0]), text[1..], stops))
  }

  const CUTTING: set<char> := {',', ']', '}', ')'}

  /** Text that leaves the automaton where it was, without a comma or closing bracket at the top. */
  predicate Neat(depth: int, text: string) {
    Run(Scan(Bare, depth), text) == Scan(Bare, depth) && Avoids(Scan(Bare, depth), text, CUTTING)
  }

  lemma {:induction false} RunConcat(s: Scan, a: string, b: string, stops: set<char>)
    ensures Run(s, a + b) == Run(Run(s, a), b)
    ensures Avoids(s, a + b, stops) <==> Avoids(s, a, stops) && Avoids(Run(s, a), b, stops)
    decreases |a|
  {
    if a == "" {
      assert a + b == b;
    } else {
      assert (a + b)[1..] == a[1..] + b;
      RunConcat(Feed(s, a[0]), a[1..], b, stops);
    }
  }

  lemma NeatConcat(depth: int, a: string, b: string)
    requires Neat(depth, a) && Neat(depth, b)
    ensures Neat(depth, a + b)
  {
    RunConcat(Scan(Bare, depth), a, b, CUTTING);
  }

  lemma {:induction false} DoubleRuns(depth: int, s: string, stops: set<char>)
    requires '\'' !in stops
    ensures Run(Scan(Single, depth), Doubled(s)) == Scan(Single, depth)
    ensures Avoids(Scan(Single, depth), Doubled(s), stops)
  {
    if s == "" {
    } else {
      DoubleRuns(depth, s[1..], stops);
      var first := if s[0] == '\'' then "''" else [s[0]];
      FirstRuns(depth, s[0], stops);
      RunConcat(Scan(Single, depth), first, Doubled(s[1..]), stops);
    }
  }

  lemma FirstRuns(depth: int, c: char, stops: set<char>)
    requires '\'' !in stops
    ensures var first := if c == '\'' then "''" else [c];
            Run(Scan(Single, depth), first) == Scan(Single, depth) && Avoids(Scan(Single, depth), first, stops)
  {
    var first := if c == '\'' then "''" else [c];
    if c == '\'' {
      assert first[1..] == "'" && "'"[1..] == "";
      assert Run(Scan(Bare, depth), "'") == Scan(Single, depth);
      assert Avoids(Scan(Bare, depth), "'", stops);
    } else {
      assert first[1..] == "";
    }
  }

  lemma QuoteRuns(depth: int, s: string, stops: set<char>)
    requires '\'' !in stops
    ensures Run(Scan(Bare, depth), Quote(s)) == Scan(Bare, depth) && Avoids(Scan(Bare, depth), Quote(s), stops)
  {
    DoubleRuns(depth, s, stops);
    RunConcat(Scan(Single, depth), Doubled(s), "'", stops);
    assert "'"[1..] == "";
    assert Quote(s)[1..] == Doubled(s) + "'";
  }

  lemma OneRuns(s: Scan, c: char, stops: set<char>)
    ensures Run(s, [c]) == Feed(s, c) && (Avoids(s, [c], stops) <==> !(s == START && c in stops))
  {
    assert [c][1..] == "";
  }

  lemma BracketsRun(depth: nat, open: char, body: string, close: char)
    requires Opener(open) && Closer(close) && Neat(depth + 1, body)
    ensures Neat(depth, [open] + (body + [close]))
  {
    OneRuns(Scan(Bare, depth), open, CUTTING);
    OneRuns(Scan(Bare, depth + 1), close, CUTTING);
    RunConcat(Scan(Bare, depth + 1), body, [close], CUTTING);
    RunConcat(Scan(Bare, depth), [open], body + [close], CUTTING);
  }

  lemma {:induction false} JoinedRuns(depth: nat, parts: seq<string>)
    requires depth > 0 && forall i :: 0 <= i < |parts| ==> Neat(depth, parts[i])
    ensures Neat(depth, Joined(parts))
    decreases |parts|
  {
    if |parts| > 1 {
      JoinedRuns(depth, parts[1..]);
      CommaRuns(depth);
      NeatConcat(depth, ", ", Joined(parts[1..]));
      NeatConcat(depth, parts[0], ", " + Joined(parts[1..]));
    }
  }

  lemma CommaRuns(depth: nat)
    requires depth > 0
    ensures Neat(depth, ", ")
  {
    assert ", "[1..] == " " && " "[1..] == "";
  }

  lemma ColonRuns(depth: nat)
    ensures Neat(depth, ": ")
  {
    assert ": "[1..] == " " && " "[1..] == "";
  }

  lemma WordsRun(depth: nat)
    ensures Neat(depth, "null") && Neat(depth, "true") && Neat(depth, "false")
  {
    WordRuns(depth, "null");
    WordRuns(depth, "true");
    WordRuns(depth, "false");
  }

  lemma {:induction false} WordRuns(depth: nat, word: string)
    requires forall i :: 0 <= i < |word| ==> 'a' <= word[i] <= 'z'
    ensures Neat(depth, word)
  {
    if word == "" {
    } else {
      WordRuns(depth, word[1..]);
    }
  }

  lemma {:induction false} PrintRuns(v: Value, depth: nat)
    ensures Neat(depth, Print(v))
    decreases v, 0
  {
    match v
    case Null => WordsRun(depth);
    case Bool(_) => WordsRun(depth);
    case Str(s) => QuoteRuns(depth, s, CUTTING);
    case Seq(items) =>
      PrintItemsRun(items, depth + 1);
      JoinedRuns(depth + 1, PrintItems(items));
      BracketsRun(depth, '[', Joined(PrintItems(items)), ']');
    case Map(entries) =>
      PrintEntriesRun(entries, depth + 1);
      JoinedRuns(depth + 1, PrintEntries(entries));
      BracketsRun(depth, '{', Joined(PrintEntries(entries)), '}');
  }

  lemma {:induction false} PrintItemsRun(items: seq<Value>, depth: nat)
    ensures |PrintItems(items)| == |items| && forall i :: 0 <= i < |items| ==> Neat(depth, PrintItems(items)[i])
    decreases items, 1
  {
    if items == [] {
    } else {
      PrintRuns(items[0], depth);
      PrintItemsRun(items[1..], depth);
    }
  }

  lemma {:induction false} PrintEntriesRun(entries: seq<Entry>, depth: nat)
    ensures |PrintEntries(entries)| == |entries|
    ensures forall i :: 0 <= i < |entries| ==> Neat(depth, PrintEntries(entries)[i])
    decreases entries, 1
  {
    if entries == [] {
    } else {
      var e := entries[0];
      QuoteRuns(depth, e.key, CUTTING);
      PrintRuns(e.value, depth);
      ColonRuns(depth);
      NeatConcat(depth, ": ", Print(e.value));
      NeatConcat(depth, Quote(e.key), ": " + Print(e.value));
      PrintEntriesRun(entries[1..], depth);
    }
  }

  // ---------------------------------------------------------------------
  // Splitting joined text

  lemma {:induction false} Pass(text: string, i: nat, s: Scan, part: string)
    requires i + |part| <= |text| && text[i..i + |part|] == part && Avoids(s, part, CUTTING)
    ensures FaultAt(text, i, s) == FaultAt(text, i + |part|, Run(s, part))
    ensures CutsAt(text, i, s) == CutsAt(text, i + |part|, Run(s, part))
    decreases |part|
  {
    if part == "" {
    } else {
      assert text[i] == part[0] && text[i + 1..i + |part|] == part[1..];
      Pass(text, i + 1, Feed(s, part[0]), part[1..]);
    }
  }

  lemma {:induction false} PassColon(text: string, i: nat, s: Scan, part: string)
    requires i + |part| <= |text| && text[i..i + |part|] == part && Avoids(s, part, {':'})
    ensures ColonAt(text, i, s) == ColonAt(text, i + |part|, Run(s, part))
    decreases |part|
  {
    if part == "" {
    } else {
      assert text[i] == part[0] && text[i + 1..i + |part|] == part[1..];
      PassColon(text, i + 1, Feed(s, part[0]), part[1..]);
    }
  }

  lemma JoinedText(text: string, i: nat, parts: seq<string>)
    requires i <= |text| && parts != [] && text[i..] == Joined(parts)
    ensures var j := i + |parts[0]|;
            && j <= |text| && text[i..j] == parts[0] && (|parts| == 1 ==> j == |text|)
            && (|parts| > 1 ==>
                  && j + 2 <= |text| && text[j] == ',' && text[j + 1] == ' '
                  && text[j + 2..] == Joined(parts[1..]))
  {
    var part, j := parts[0], i + |parts[0]|;
    assert text[i..j] == text[i..][..|part|];
    if |parts| > 1 {
      assert text[j..] == text[i..][|part|..] == ", " + Joined(parts[1..]);
      assert text[j] == text[j..][0] && text[j + 1] == text[j..][1];
      assert text[j + 2..] == text[j..][2..];
    }
  }

  lemma CommaCuts(text: string, start: nat, j: nat)
    requires start <= j && j + 2 <= |text| && text[j] == ',' && text[j + 1] == ' '
    ensures FaultAt(text, j, START) == FaultAt(text, j + 2, START)
    ensures Pieces(STRIP, text, start, CutsAt(text, j, START)) ==
            [Strip(text[start..j])] + Pieces(STRIP, text, j + 1, CutsAt(text, j + 2, START))
  {
    var rest := CutsAt(text, j + 2, START);
    assert CutsAt(text, j, START) == [j] + rest;
    assert ([j] + rest)[1..] == rest;
  }

  /** The text from `i` on is sound, and its pieces, the first one from `start`, are `parts`. */
  ghost predicate SplitsTo(text: string, start: nat, i: nat, parts: seq<string>) {
    start <= i <= |text| && FaultAt(text, i, START).None? && Pieces(STRIP, text, start, CutsAt(text, i, START)) == parts
  }

  /** The piece that holds a part starts with it, or with one space. */
  predicate HoldsPart(text: string, start: nat, i: nat, part: string) {
    && start <= i && i + |part| <= |text| && text[i..i + |part|] == part && Solid(part) && Neat(0, part)
    && (start == i || (start + 1 == i && text[start] == ' '))
  }

  lemma PartPasses(text: string, start: nat, i: nat, part: string)
    requires HoldsPart(text, start, i, part)
    ensures FaultAt(text, i, START) == FaultAt(text, i + |part|, START)
    ensures CutsAt(text, i, START) == CutsAt(text, i + |part|, START)
    ensures Strip(text[start..i + |part|]) == part && (i + |part| == |text| ==> Strip(text[start..]) == part)
  {
    Pass(text, i, START, part);
    PieceStrips(text, start, i, part);
  }

  lemma SplitsLast(text: string, start: nat, i: nat, part: string)
    requires HoldsPart(text, start, i, part) && i + |part| == |text|
    ensures SplitsTo(text, start, i, [part])
  {
    PartPasses(text, start, i, part);
  }

  lemma SplitsMore(text: string, start: nat, i: nat, part: string, rest: seq<string>)
    requires HoldsPart(text, start, i, part)
    requires var j := i + |part|;
             j + 2 <= |text| && text[j] == ',' && text[j + 1] == ' ' && SplitsTo(text, j + 1, j + 2, rest)
    ensures SplitsTo(text, start, i, [part] + rest)
  {
    PartPasses(text, start, i, part);
    SplitsAt(text, start, i, i + |part|, rest);
  }

  lemma SplitsAt(text: string, start: nat, i: nat, j: nat, rest: seq<string>)
    requires start <= i <= j && j + 2 <= |text| && text[j] == ',' && text[j + 1] == ' '
    requires SplitsTo(text, j + 1, j + 2, rest)
    requires FaultAt(text, i, START) == FaultAt(text, j, START) && CutsAt(text, i, START) == CutsAt(text, j, START)
    ensures SplitsTo(text, start, i, [Strip(text[start..j])] + rest)
  {
    CommaCuts(text, start, j);
  }

  /** The pieces of joined text are its parts, each but the first after a space. */
  lemma {:induction false} JoinedSplits(text: string, start: nat, i: nat, parts: seq<string>)
    requires start <= i <= |text| && parts != [] && text[i..] == Joined(parts)
    requires start == i || (start + 1 == i && text[start] == ' ')
    requires forall k :: 0 <= k < |parts| ==> Neat(0, parts[k]) && Solid(parts[k])
    ensures SplitsTo(text, start, i, parts)
    decreases |parts|
  {
    JoinedText(text, i, parts);
    assert HoldsPart(text, start, i, parts[0]);
    if |parts| == 1 {
      SplitsLast(text, start, i, parts[0]);
      assert parts == [parts[0]];
    } else {
      var j := i + |parts[0]|;
      JoinedSplits(text, j + 1, j + 2, parts[1..]);
      SplitsMore(text, start, i, parts[0], parts[1..]);
      assert [parts[0]] + parts[1..] == parts;
    }
  }

  lemma PieceStrips(text: string, start: nat, i: nat, part: string)
    requires start <= i && i + |part| <= |text| && text[i..i + |part|] == part && Solid(part)
    requires start == i || (start + 1 == i && text[start] == ' ')
    ensures Strip(text[start..i + |part|]) == part && (i + |part| == |text| ==> Strip(text[start..]) == part)
  {
    StripSolid(part);
    assert text[start..i + |part|] == if start < i then " " + part else part;
    assert i + |part| == |text| ==> text[start..] == text[start..i + |part|];
  }

  lemma SplitJoined(parts: seq<string>)
    requires parts != [] && forall k :: 0 <= k < |parts| ==> Neat(0, parts[k]) && Solid(parts[k])
    ensures Split(Joined(parts)) == Ok(parts)
  {
    assert Joined(parts)[0..] == Joined(parts);
    JoinedSplits(Joined(parts), 0, 0, parts);
  }

  // ---------------------------------------------------------------------
  // Solid text

  lemma QuoteIsSolid(s: string)
    ensures Solid(Quote(s))
  {
  }

  lemma {:induction false} PrintIsSolid(v: Value)
    ensures Solid(Print(v))
  {
    match v
    case Null => assert Print(v) == "null";
    case Bool(b) => assert Print(v) == if b then "true" else "false";
    case Str(s) => QuoteIsSolid(s);
    case Seq(_) =>
    case Map(_) =>
  }

  lemma ConcatIsSolid(a: string, b: string)
    requires Solid(a) && b != "" && !IsSpace(b[|b| - 1])
    ensures Solid(a + b)
  {
  }

  lemma {:induction false} JoinedIsSolid(parts: seq<string>)
    requires parts != [] && forall k :: 0 <= k < |parts| ==> Solid(parts[k])
    ensures Solid(Joined(parts))
    decreases |parts|
  {
    if |parts| > 1 {
      JoinedIsSolid(parts[1..]);
      ConcatIsSolid(parts[0], ", " + Joined(parts[1..]));
    }
  }

  lemma {:induction false} PrintItemsAreSolid(items: seq<Value>)
    ensures |PrintItems(items)| == |items|
    ensures forall i :: 0 <= i < |items| ==> PrintItems(items)[i] == Print(items[i]) && Solid(PrintItems(items)[i])
  {
    if items == [] {
    } else {
      PrintIsSolid(items[0]);
      PrintItemsAreSolid(items[1..]);
    }
  }

  lemma EntryIsSolid(e: Entry)
    ensures Solid(PrintEntry(e))
  {
    QuoteIsSolid(e.key);
    PrintIsSolid(e.value);
    ConcatIsSolid(Quote(e.key), ": " + Print(e.value));
  }

  lemma {:induction false} PrintEntriesAreSolid(entries: seq<Entry>)
    ensures |PrintEntries(entries)| == |entries|
    ensures forall i :: 0 <= i < |entries| ==>
              PrintEntries(entries)[i] == PrintEntry(entries[i]) && Solid(PrintEntries(entries)[i])
  {
    if entries == [] {
    } else {
      EntryIsSolid(entries[0]);
      PrintEntriesAreSolid(entries[1..]);
    }
  }

  // ---------------------------------------------------------------------
  // Parsing

  lemma {:induction false} UndoubleDouble(s: string)
    ensures Undouble(Doubled(s)) == s
  {
    if s == "" {
    } else {
      UndoubleDouble(s[1..]);
      if s[0] == '\'' {
        assert Doubled(s) == "''" + Doubled(s[1..]);
        assert Doubled(s)[2..] == Doubled(s[1..]);
      } else {
        assert Doubled(s) == [s[0]] + Doubled(s[1..]);
        assert Doubled(s)[1..] == Doubled(s[1..]);
      }
      assert s == [s[0]] + s[1..];
    }
  }

  lemma UnquoteQuote(json: string -> Option<string>, s: string)
    ensures Unquote(json, Quote(s)) == Ok(s)
  {
    UndoubleDouble(s);
    var q := Quote(s);
    assert q[1..|q| - 1] == Doubled(s);
  }

  lemma NotBlock(value: string)
    requires value != "" && value[0] != '|' && value[0] != '>'
    ensures value !in BLOCK_SCALARS
  {
  }

  lemma InnerOf(open: char, body: string, close: char)
    requires body == "" || Solid(body)
    ensures Inner([open] + (body + [close])) == body
  {
    var value := [open] + (body + [close]);
    assert value[1..|value| - 1] == body;
    if body != "" {
      StripSolid(body);
    }
  }

  lemma EntryText(key: string, value: string)
    ensures var text, n := key + (": " + value), |key|;
            && text[0..n] == text[..n] == key && |text| == n + 2 + |value|
            && text[n] == ':' && text[n + 1] == ' ' && text[n + 1..] == " " + value
  {
  }

  lemma EntrySplits(e: Entry)
    ensures KeyValue(PrintEntry(e)) == Some(Pair(Quote(e.key), Print(e.value)))
  {
    var key, value := Quote(e.key), Print(e.value);
    EntryText(key, value);
    EntryColon(e.key, value);
    QuoteIsSolid(e.key);
    PrintIsSolid(e.value);
    StripSolid(key);
    StripSolid(value);
  }

  lemma EntryColon(key: string, value: string)
    ensures ColonAt(Quote(key) + (": " + value), 0, START) == Some(|Quote(key)|)
  {
    EntryText(Quote(key), value);
    QuoteRuns(0, key, {':'});
    PassColon(Quote(key) + (": " + value), 0, START, Quote(key));
  }

  lemma ScalarParses(json: string -> Option<string>, value: string)
    requires Solid(value) && value[0] !in {'[', '{', '|', '>'}
    ensures ParseValue(json, value) == Scalar(json, value)
  {
    StripSolid(value);
    NotBlock(value);
  }

  lemma NullParses(json: string -> Option<string>)
    ensures ParseValue(json, "null") == Ok(Null)
  {
    ScalarParses(json, "null");
    SpellsItself("null");
    assert !Spells("null", "true") by { assert Lower("null"[0]) != "true"[0]; }
  }

  lemma BoolParses(json: string -> Option<string>, b: bool)
    ensures ParseValue(json, if b then "true" else "false") == Ok(Bool(b))
  {
    var word := if b then "true" else "false";
    ScalarParses(json, word);
    SpellsItself(word);
  }

  lemma SpellsItself(word: string)
    requires forall i :: 0 <= i < |word| ==> 'a' <= word[i] <= 'z'
    ensures Spells(word, word)
  {
  }

  lemma QuoteParses(json: string -> Option<string>, s: string)
    ensures ParseValue(json, Quote(s)) == Ok(Str(s))
  {
    QuoteIsSolid(s);
    ScalarParses(json, Quote(s));
    UnquoteQuote(json, s);
  }

  lemma SeqParses(json: string -> Option<string>, items: seq<Value>, size: nat)
    requires size == |Print(Seq(items))| - 1
    ensures items == [] ==> ParseValue(json, Print(Seq(items))) == Ok(Seq([]))
    ensures items != [] ==>
              && (forall i :: 0 <= i < |PrintItems(items)| ==> |PrintItems(items)[i]| <= size)
              && ParseValue(json, Print(Seq(items))) ==
                 match ParseItems(json, PrintItems(items), size) {
                   case Err(fault) => Err(fault)
                   case Ok(values) => Ok(Seq(values))
                 }
  {
    var parts := PrintItems(items);
    var value := Print(Seq(items));
    PrintIsSolid(Seq(items));
    StripSolid(value);
    NotBlock(value);
    PrintItemsRun(items, 0);
    PrintItemsAreSolid(items);
    if items != [] {
      JoinedIsSolid(parts);
      SplitJoined(parts);
    }
    InnerOf('[', Joined(parts), ']');
  }

  lemma MapParses(json: string -> Option<string>, entries: seq<Entry>, size: nat)
    requires size == |Print(Map(entries))| - 1
    ensures entries == [] ==> ParseValue(json, Print(Map(entries))) == Ok(Map([]))
    ensures entries != [] ==>
              && (forall i :: 0 <= i < |PrintEntries(entries)| ==> |PrintEntries(entries)[i]| <= size)
              && ParseValue(json, Print(Map(entries))) ==
                 match ParseEntries(json, PrintEntries(entries), [], size) {
                   case Err(fault) => Err(fault)
                   case Ok(es) => Ok(Map(es))
                 }
  {
    var parts := PrintEntries(entries);
    var value := Print(Map(entries));
    PrintIsSolid(Map(entries));
    StripSolid(value);
    NotBlock(value);
    PrintEntriesRun(entries, 0);
    PrintEntriesAreSolid(entries);
    if entries != [] {
      JoinedIsSolid(parts);
      SplitJoined(parts);
    }
    InnerOf('{', Joined(parts), '}');
  }

  /** Every nested list or mapping of strings, booleans and nulls, with distinct nonempty keys, comes back. */
  lemma {:induction false} RoundTrip(json: string -> Option<string>, v: Value)
    requires Printable(v)
    ensures ParseValue(json, Print(v)) == Ok(v)
    decreases v, 0
  {
    match v
    case Null => NullParses(json);
    case Bool(b) => BoolParses(json, b);
    case Str(s) => QuoteParses(json, s);
    case Seq(items) =>
      var size := |Print(v)| - 1;
      SeqParses(json, items, size);
      if items != [] {
        ItemsComeBack(json, items, size);
      }
    case Map(entries) =>
      var size := |Print(v)| - 1;
      MapParses(json, entries, size);
      if entries != [] {
        EntriesComeBack(json, entries, [], size);
        assert [] + entries == entries;
      }
  }

  lemma {:induction false} ItemsComeBack(json: string -> Option<string>, items: seq<Value>, size: nat)
    requires forall i :: 0 <= i < |items| ==> Printable(items[i])
    requires forall i :: 0 <= i < |PrintItems(items)| ==> |PrintItems(items)[i]| <= size
    ensures ParseItems(json, PrintItems(items), size) == Ok(items)
    decreases items, 1
  {
    if items == [] {
    } else {
      RoundTrip(json, items[0]);
      assert PrintItems(items)[1..] == PrintItems(items[1..]);
      ItemsComeBack(json, items[1..], size);
      OneItemParses(json, PrintItems(items), items[0], items[1..], size);
      assert [items[0]] + items[1..] == items;
    }
  }

  lemma OneItemParses(json: string -> Option<string>, items: seq<string>, v: Value, rest: seq<Value>, size: nat)
    requires forall i :: 0 <= i < |items| ==> |items[i]| <= size
    requires items != [] && ParseValue(json, items[0]) == Ok(v) && ParseItems(json, items[1..], size) == Ok(rest)
    ensures ParseItems(json, items, size) == Ok([v] + rest)
  {
  }

  lemma {:induction false} EntriesComeBack(json: string -> Option<string>, entries: seq<Entry>,
          seen: seq<Entry>, size: nat)
    requires forall i :: 0 <= i < |entries| ==> entries[i].key != "" && Printable(entries[i].value)
    requires forall i, j :: 0 <= i < j < |seen + entries| ==> (seen + entries)[i].key != (seen + entries)[j].key
    requires forall i :: 0 <= i < |PrintEntries(entries)| ==> |PrintEntries(entries)[i]| <= size
    ensures ParseEntries(json, PrintEntries(entries), seen, size) == Ok(seen + entries)
    decreases entries, 1
  {
    if entries == [] {
      assert seen + [] == seen;
    } else {
      var e := entries[0];
      RoundTrip(json, e.value);
      FreshKey(seen, entries);
      assert PrintEntries(entries)[1..] == PrintEntries(entries[1..]);
      OneEntryParses(json, PrintEntries(entries), seen, e, size);
      assert seen + [e] + entries[1..] == seen + entries;
      EntriesComeBack(json, entries[1..], seen + [e], size);
    }
  }

  lemma OneEntryParses(json: string -> Option<string>, items: seq<string>, seen: seq<Entry>, e: Entry, size: nat)
    requires forall i :: 0 <= i < |items| ==> |items[i]| <= size
    requires items != [] && items[0] == PrintEntry(e) && ParseValue(json, Print(e.value)) == Ok(e.value)
    requires e.key != "" && !HasKey(seen, e.key)
    ensures ParseEntries(json, items, seen, size) == ParseEntries(json, items[1..], seen + [e], size)
  {
    EntrySplits(e);
    UnquoteQuote(json, e.key);
    assert e == Entry(e.key, e.value);
  }

  lemma FreshKey(seen: seq<Entry>, entries: seq<Entry>)
    requires entries != []
    requires forall i, j :: 0 <= i < j < |seen + entries| ==> (seen + entries)[i].key != (seen + entries)[j].key
    ensures !HasKey(seen, entries[0].key)
  {
    forall i | 0 <= i < |seen|
      ensures seen[i].key != entries[0].key
    {
      assert (seen + entries)[i].key != (seen + entries)[|seen|].key;
    }
  }
}

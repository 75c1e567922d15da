/** Flow values: `_unquote` and `_parse_value` of tools/check_workflow_policy.py, and a printer they undo. */
module Flow {
  import opened FlowText
  import opened Wrappers

  datatype Value = Null | Bool(truth: bool) | Str(text: string) | Seq(items: seq<Value>) | Map(entries: seq<Entry>)

  /** A mapping keeps its entries in insertion order. */
  datatype Entry = Entry(key: string, value: Value)

  const BLOCK_SCALARS := {"|", ">", "|-", ">-", "|+", ">+"}

  /** `str.replace` of two quotes by one, from the left. */
  function Undouble(s: string): string {
    if |s| >= 2 && s[0] == '\'' && s[1] == '\'' then "'" + Undouble(s[2..])
    else if s == "" then ""
    else [s[0]] + Undouble(s[1..])
  }

  /** `_unquote`; `json` decodes a double-quoted string, if it is one. */
  function Unquote(json: string -> Option<string>, s: string): Result<string, Fault> {
    if |s| >= 2 && s[0] == s[|s| - 1] == '\'' then Ok(Undouble(s[1..|s| - 1]))
    else if |s| >= 2 && s[0] == s[|s| - 1] == '"' then
      match json(s)
      case None => Err(BadQuoting)
      case Some(decoded) => Ok(decoded)
    else Ok(s)
  }

  function Lower(c: char): char {
    if 'A' <= c <= 'Z' then (c as int + 32) as char else c
  }

  predicate Spells(s: string, word: string) {
    |s| == |word| && forall i :: 0 <= i < |s| ==> Lower(s[i]) == word[i]
  }

  function Scalar(json: string -> Option<string>, value: string): Result<Value, Fault>
    requires value != ""
  {
    if value[0] == value[|value| - 1] == '\'' || value[0] == value[|value| - 1] == '"' then
      match Unquote(json, value)
      case Err(fault) => Err(fault)
      case Ok(text) => Ok(Str(text))
    else if Spells(value, "true") then Ok(Bool(true))
    else if Spells(value, "false") then Ok(Bool(false))
    else if Spells(value, "null") || value == "~" then Ok(Null)
    else Ok(Str(value))
  }

  function Inner(value: string): (r: string)
    requires |value| >= 2
    ensures |r| < |value|
  {
    Strip(value[1..|value| - 1])
  }

  predicate HasKey(entries: seq<Entry>, key: string) {
    exists i :: 0 <= i < |entries| && entries[i].key == key
  }

  /** `_parse_value` */
  function ParseValue(json: string -> Option<string>, raw: string): Result<Value, Fault>
    decreases |raw|, 0, 0
  {
    var value := Strip(raw);
    if value == "" then Ok(Null)
    else if value in BLOCK_SCALARS then Ok(Str(value))
    else if value[0] == '[' then
      if value[|value| - 1] != ']' then Err(UnterminatedSequence)
      else if Inner(value) == "" then Ok(Seq([]))
      else
        match Split(Inner(value))
        case Err(fault) => Err(fault)
        case Ok(items) =>
          match ParseItems(json, items, |raw| - 1)
          case Err(fault) => Err(fault)
          case Ok(values) => Ok(Seq(values))
    else if value[0] == '{' then
      if value[|value| - 1] != '}' then Err(UnterminatedMapping)
      else if Inner(value) == "" then Ok(Map([]))
      else
        match Split(Inner(value))
        case Err(fault) => Err(fault)
        case Ok(items) =>
          match ParseEntries(json, items, [], |raw| - 1)
          case Err(fault) => Err(fault)
          case Ok(entries) => Ok(Map(entries))
    else Scalar(json, value)
  }

  function ParseItems(json: string -> Option<string>, items: seq<string>, ghost size: nat): Result<seq<Value>, Fault>
    requires forall i :: 0 <= i < |items| ==> |items[i]| <= size
    decreases size, 1, |items|
  {
    if items == [] then Ok([])
    else
      match ParseValue(json, items[0])
      case Err(fault) => Err(fault)
      case Ok(value) =>
        match ParseItems(json, items[1..], size)
        case Err(fault) => Err(fault)
        case Ok(rest) => Ok([value] + rest)
  }

  /** The entries of a mapping after the ones in `seen`. */
  function ParseEntries(json: string -> Option<string>, items: seq<string>, seen: seq<Entry>,
          ghost size: nat): Result<seq<Entry>, Fault>
    requires forall i :: 0 <= i < |items| ==> |items[i]| <= size
    decreases size, 1, |items|
  {
    if items == [] then Ok(seen)
    else
      match KeyValue(items[0])
      case None => Err(NoPair)
      case Some(pair) =>
        match Unquote(json, pair.key)
        case Err(fault) => Err(fault)
        case Ok(key) =>
          if key == "" then Err(EmptyKey)
          else if HasKey(seen, key) then Err(DuplicateKey)
          else
            match ParseValue(json, pair.value)
            case Err(fault) => Err(fault)
            case Ok(value) => ParseEntries(json, items[1..], seen + [Entry(key, value)], size)
  }

  // ---------------------------------------------------------------------
  // Printing

  function Doubled(s: string): string {
    if s == "" then "" else (if s[0] == '\'' then "''" else [s[0]]) + Doubled(s[1..])
  }

  function Quote(s: string): string {
    "'" + (Doubled(s) + "'")
  }

  function Joined(parts: seq<string>): string {
    if parts == [] then "" else if |parts| == 1 then parts[0] else parts[0] + (", " + Joined(parts[1..]))
  }

  function Print(v: Value): string
    decreases v, 0
  {
    match v
    case Null => "null"
    case Bool(b) => if b then "true" else "false"
    case Str(s) => Quote(s)
    case Seq(items) => "[" + (Joined(PrintItems(items)) + "]")
    case Map(entries) => "{" + (Joined(PrintEntries(entries)) + "}")
  }

  function PrintItems(items: seq<Value>): seq<string>
    decreases items, 1
  {
    if items == [] then [] else [Print(items[0])] + PrintItems(items[1..])
  }

  function PrintEntries(entries: seq<Entry>): seq<string>
    decreases entries, 1
  {
    if entries == [] then [] else [PrintEntry(entries[0])] + PrintEntries(entries[1..])
  }

  function PrintEntry(e: Entry): string
    decreases e, 1
  {
    Quote(e.key) + (": " + Print(e.value))
  }

  /** Keys are nonempty and distinct, all the way down. */
  predicate Printable(v: Value)
    decreases v
  {
    match v
    case Seq(items) => forall i :: 0 <= i < |items| ==> Printable(items[i])
    case Map(entries) =>
      && (forall i :: 0 <= i < |entries| ==> entries[i].key != "" && Printable(entries[i].value))
      && (forall i, j :: 0 <= i < j < |entries| ==> entries[i].key != entries[j].key)
    case _ => true
  }
}

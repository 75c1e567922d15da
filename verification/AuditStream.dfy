/**
 The audit file and its reader (internal/policy/audit.go, internal/events/service.go):
 one JSON record per line, appended durably, read back from any record boundary.
 JSON itself is a parameter.
 */
module AuditStream {
  import opened Bytes
  import opened Wrappers

  const NEWLINE: byte := 10
  const MAX_RECORD := 1024 * 1024

  /** What unmarshalling a record gives; `Fieldless` lacks the required time or type. */
  datatype Decoded<+E> = Malformed | Fieldless | Event(event: E)

  // ---------------------------------------------------------------------
  // Records

  /** The index of the first newline from `at` on, or the length when there is none. */
  function LineEnd(data: seq<byte>, at: nat): (n: nat)
    requires at <= |data|
    ensures at <= n <= |data| && (n < |data| ==> data[n] == NEWLINE)
    ensures forall i :: at <= i < n ==> data[i] != NEWLINE
    decreases |data| - at
  {
    if at == |data| || data[at] == NEWLINE then at else LineEnd(data, at + 1)
  }

  /** `scanJSONLRecord`: how far to advance over what is buffered; 0 asks for more data. */
  function ScanRecord(data: seq<byte>, atEOF: bool): (advance: nat)
    ensures advance <= |data|
  {
    var n := LineEnd(data, 0);
    if n < |data| then n + 1 else if atEOF then |data| else 0
  }

  /** However much of the rest of the file the scanner has buffered, it cuts off the same record. */
  lemma BufferingIsInvisible(data: seq<byte>, buffered: nat)
    requires buffered <= |data|
    ensures ScanRecord(data[..buffered], false) == if LineEnd(data, 0) < buffered then ScanRecord(data, true) else 0
  {
    var n, m := LineEnd(data, 0), LineEnd(data[..buffered], 0);
    assert m < buffered ==> data[m] == NEWLINE;
    assert n < buffered ==> data[..buffered][n] == NEWLINE;
  }

  datatype Corruption = MalformedJSON | IncompleteRecord | ReadError

  datatype Stop = EndOfFile | Cancelled | Rejected | Corrupt(line: nat, offset: nat, kind: Corruption)

  /** A scanned record is either acknowledged or ends the read. */
  datatype Verdict<+E> = Take(event: E) | Halt(stop: Stop)

  /** The verdict on a record, given its text, whether a newline ended it, its offset, and the records before it. */
  type Judge<!E> = (seq<byte>, bool, nat, nat) -> Verdict<E>

  datatype Outcome<+E> = Outcome(events: seq<E>, offset: nat, stop: Stop)

  /** What a read has given once it goes on to `out` after acknowledging `events`. */
  function After<E>(events: seq<E>, out: Outcome<E>): Outcome<E> {
    out.(events := events + out.events)
  }

  /** The whole read of a file from byte `at`, after `line` acknowledged records; `last` is what its end means. */
  function Read<E>(judge: Judge<E>, last: (nat, nat) -> Stop, file: seq<byte>, at: nat, line: nat): Outcome<E>
    requires at <= |file|
    decreases |file| - at
  {
    if at == |file| then Outcome([], at, last(at, line))
    else
      var n := LineEnd(file, at);
      match judge(file[at..n], n < |file|, at, line)
      case Halt(stop) => Outcome([], at, stop)
      case Take(e) => if n == |file| then Outcome([e], n, last(n, line + 1))
          else After([e], Read(judge, last, file, n + 1, line + 1))
  }

  // ---------------------------------------------------------------------
  // The audit reader's verdicts

  /**
   The surroundings of one read: how records unmarshal, whether the k-th callback accepts its
   event, whether the context is still live at the k-th record, and whether the file ends in an
   I/O error instead of its end.
   */
  datatype Reader<!E> = Reader(decode: seq<byte> -> Decoded<E>, accept: nat -> bool, live: nat -> bool, broken: bool)

  /** The scanner's buffer fills up before the record ends. */
  predicate Overflows(record: seq<byte>, terminated: bool) {
    if terminated then |record| + 1 > MAX_RECORD + 2 else |record| >= MAX_RECORD + 2
  }

  function Examine<E>(r: Reader<E>, record: seq<byte>, terminated: bool, at: nat, line: nat): Verdict<E> {
    if Overflows(record, terminated) then Halt(Corrupt(line + 1, at, ReadError))
    else if !r.live(line) then Halt(Cancelled)
    else if |record| > MAX_RECORD then Halt(Corrupt(line + 1, at, ReadError))
    else
      match r.decode(record)
      case Malformed => Halt(Corrupt(line + 1, at, MalformedJSON))
      case Fieldless => Halt(Corrupt(line + 1, at, IncompleteRecord))
      case Event(e) =>
        if !terminated then Halt(Corrupt(line + 1, at, IncompleteRecord))
        else if !r.accept(line) then Halt(Rejected)
        else Take(e)
  }

  function Judging<E>(r: Reader<E>): Judge<E> {
    (record: seq<byte>, terminated: bool, at: nat, line: nat) => Examine(r, record, terminated, at, line)
  }

  function Ending(broken: bool): (nat, nat) -> Stop {
    (at: nat, line: nat) => if broken then Corrupt(line + 1, at, ReadError) else EndOfFile
  }

  function ReadAudit<E>(r: Reader<E>, file: seq<byte>, at: nat): Outcome<E>
    requires at <= |file|
  {
    Read(Judging(r), Ending(r.broken), file, at, 0)
  }

  // ---------------------------------------------------------------------
  // The service

  predicate Boundary(file: seq<byte>, offset: int) {
    0 <= offset <= |file| && (offset > 0 ==> file[offset - 1] == NEWLINE)
  }

  lemma ScanAgrees(file: seq<byte>, at: nat)
    requires at < |file|
    ensures ScanRecord(file[at..], true) == if LineEnd(file, at) < |file| then LineEnd(file, at) + 1 - at
            else |file| - at
  {
    var n, m := LineEnd(file, at), LineEnd(file[at..], 0);
    assert m < |file| - at ==> file[at + m] == NEWLINE;
    assert n < |file| ==> file[at..][n - at] == NEWLINE;
  }

  lemma ReadGoesOn<E>(judge: Judge<E>, last: (nat, nat) -> Stop, file: seq<byte>, at: nat, line: nat, n: nat, e: E)
    requires at <= n < |file| && n == LineEnd(file, at) && judge(file[at..n], true, at, line) == Take(e)
    ensures Read(judge, last, file, at, line) == After([e], Read(judge, last, file, n + 1, line + 1))
  {
  }

  lemma ReadStops<E>(judge: Judge<E>, last: (nat, nat) -> Stop, file: seq<byte>, at: nat, line: nat)
    requires at < |file| && judge(file[at..LineEnd(file, at)], LineEnd(file, at) < |file|, at, line).Halt?
    ensures Read(judge, last, file, at, line) ==
            Outcome([], at, judge(file[at..LineEnd(file, at)], LineEnd(file, at) < |file|, at, line).stop)
  {
  }

  lemma AfterAfter<E>(a: seq<E>, b: seq<E>, out: Outcome<E>)
    ensures After(a, After(b, out)) == After(a + b, out)
  {
    assert a + (b + out.events) == a + b + out.events;
  }

  lemma AfterNothing<E>(out: Outcome<E>)
    ensures After([], out) == out
  {
    assert [] + out.events == out.events;
  }

  /** A read that comes to `all` has acknowledged `events` and stands at byte `at`. */
  ghost predicate Midway<E>(judge: Judge<E>, last: (nat, nat) -> Stop, file: seq<byte>, all: Outcome<E>,
          events: seq<E>, at: nat, line: nat) {
    at <= |file| && all == After(events, Read(judge, last, file, at, line))
  }

  lemma MidwayTakes<E>(judge: Judge<E>, last: (nat, nat) -> Stop, file: seq<byte>, all: Outcome<E>,
          events: seq<E>, at: nat, line: nat, n: nat, e: E)
    requires Midway(judge, last, file, all, events, at, line)
    requires at <= n < |file| && n == LineEnd(file, at) && judge(file[at..n], true, at, line) == Take(e)
    ensures Midway(judge, last, file, all, events + [e], n + 1, line + 1)
  {
    ReadGoesOn(judge, last, file, at, line, n, e);
    AfterAfter(events, [e], Read(judge, last, file, n + 1, line + 1));
  }

  lemma MidwayStops<E>(judge: Judge<E>, last: (nat, nat) -> Stop, file: seq<byte>, all: Outcome<E>,
          events: seq<E>, at: nat, line: nat, n: nat, stop: Stop)
    requires Midway(judge, last, file, all, events, at, line)
    requires at < |file| && n == LineEnd(file, at) && judge(file[at..n], n < |file|, at, line) == Halt(stop)
    ensures all == Outcome(events, at, stop)
  {
    ReadStops(judge, last, file, at, line);
    assert events + [] == events;
  }

  lemma MidwayEnds<E>(judge: Judge<E>, last: (nat, nat) -> Stop, file: seq<byte>, all: Outcome<E>,
          events: seq<E>, at: nat, line: nat)
    requires Midway(judge, last, file, all, events, at, line) && at == |file|
    ensures all == Outcome(events, at, last(at, line))
  {
    assert events + [] == events;
  }

  /** What one `Scan` yields: where the record's text ends, and whether a newline ended it. */
  method Scan(content: seq<byte>, current: nat) returns (n: nat, terminated: bool)
    requires current < |content|
    ensures n == LineEnd(content, current) && terminated == (n < |content|)
  {
    ScanAgrees(content, current);
    var next := current + ScanRecord(content[current..], true);
    terminated := content[next - 1] == NEWLINE;
    n := if terminated then next - 1 else next;
  }

  /** The loop of `StreamAudit` over the part of the file after the requested offset. */
  method StreamFrom<E>(r: Reader<E>, content: seq<byte>, offset: nat) returns (out: Outcome<E>)
    requires offset <= |content|
    ensures out == ReadAudit(r, content, offset)
  {
    ghost var judge, last := Judging(r), Ending(r.broken);
    ghost var all := ReadAudit(r, content, offset);
    AfterNothing(all);
    var events, current, line := [], offset, 0;
    while current < |content|
      invariant Midway(judge, last, content, all, events, current, line)
      decreases |content| - current
    {
      var n, terminated := Scan(content, current);
      var verdict := Examine(r, content[current..n], terminated, current, line);
      if verdict.Halt? {
        MidwayStops(judge, last, content, all, events, current, line, n, verdict.stop);
        return Outcome(events, current, verdict.stop);
      }
      MidwayTakes(judge, last, content, all, events, current, line, n, verdict.event);
      events, current, line := events + [verdict.event], n + 1, line + 1;
    }
    MidwayEnds(judge, last, content, all, events, current, line);
    out := Outcome(events, current, if r.broken then Corrupt(line + 1, current, ReadError) else EndOfFile);
  }

  /** `StreamAudit`: the callback is called once per acknowledged event, in order. */
  method StreamAudit<E>(r: Reader<E>, file: Option<seq<byte>>, offset: int) returns (out: Result<Outcome<E>, int>)
    ensures out.Err? <==> offset < 0 || (file.None? && offset != 0) || (file.Some? && !Boundary(file.value, offset))
    ensures out.Err? ==> out.error == offset
    ensures out.Ok? && file.None? ==> out.value == Outcome([], 0, EndOfFile)
    ensures out.Ok? && file.Some? ==> out.value == ReadAudit(r, file.value, offset)
  {
    if offset < 0 {
      return Err(offset);
    }
    if file.None? {
      return if offset == 0 then Ok(Outcome([], 0, EndOfFile)) else Err(offset);
    }
    if offset > |file.value| || (offset > 0 && file.value[offset - 1] != NEWLINE) {
      return Err(offset);
    }
    var outcome := StreamFrom(r, file.value, offset);
    out := Ok(outcome);
  }
}

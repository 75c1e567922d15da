/** What a reader of the audit file can rely on, wherever it stops and whatever is appended meanwhile. */
module AuditHistory {
  import opened AuditStream
  import opened Bytes

  // ---------------------------------------------------------------------
  // A read acknowledges exactly the records it passes

  /** The lines of a file between two of its record boundaries. */
  function Lines(file: seq<byte>, first: nat, last: nat): seq<seq<byte>>
    requires first <= last <= |file|
    decreases |file| - first
  {
    if first == last then []
    else
      var n := LineEnd(file, first);
      if n >= last then [file[first..last]] else [file[first..n]] + Lines(file, n + 1, last)
  }

  /** A reader that acknowledges only terminated records, each as what it unmarshals to. */
  ghost predicate Faithful<E(!new)>(judge: Judge<E>, decode: seq<byte> -> Decoded<E>) {
    forall record, terminated, at, line :: judge(record, terminated, at, line).Take? ==>
      terminated && |record| <= MAX_RECORD && decode(record) == Event(judge(record, terminated, at, line).event)
  }

  predicate Acknowledges<E(==)>(decode: seq<byte> -> Decoded<E>, lines: seq<seq<byte>>, events: seq<E>) {
    && |lines| == |events|
    && forall i :: 0 <= i < |lines| ==> |lines[i]| <= MAX_RECORD && decode(lines[i]) == Event(events[i])
  }

  /** The read started at `at` ended on a boundary, and acknowledged the lines up to it. */
  predicate Exact<E(==)>(decode: seq<byte> -> Decoded<E>, file: seq<byte>, at: nat, out: Outcome<E>) {
    && at <= out.offset && Boundary(file, out.offset)
    && Acknowledges(decode, Lines(file, at, out.offset), out.events)
  }

  lemma AcknowledgesOneMore<E>(decode: seq<byte> -> Decoded<E>, line: seq<byte>, lines: seq<seq<byte>>, e: E,
          events: seq<E>)
    requires |line| <= MAX_RECORD && decode(line) == Event(e) && Acknowledges(decode, lines, events)
    ensures Acknowledges(decode, [line] + lines, [e] + events)
  {
    forall i | 0 <= i < |lines| + 1
      ensures |([line] + lines)[i]| <= MAX_RECORD && decode(([line] + lines)[i]) == Event(([e] + events)[i])
    {
      if i > 0 {
        assert ([line] + lines)[i] == lines[i - 1] && ([e] + events)[i] == events[i - 1];
      }
    }
  }

  lemma ExactEarlier<E>(decode: seq<byte> -> Decoded<E>, file: seq<byte>, at: nat, n: nat, e: E, out: Outcome<E>)
    requires at <= n < |file| && n == LineEnd(file, at) && Exact(decode, file, n + 1, out)
    requires n - at <= MAX_RECORD && decode(file[at..n]) == Event(e)
    ensures Exact(decode, file, at, After([e], out))
  {
    AcknowledgesOneMore(decode, file[at..n], Lines(file, n + 1, out.offset), e, out.events);
  }

  lemma {:induction false} FaithfulReadIsExact<E(!new)>(judge: Judge<E>, end: (nat, nat) -> Stop,
          decode: seq<byte> -> Decoded<E>, file: seq<byte>, at: nat, line: nat)
    requires Faithful(judge, decode) && Boundary(file, at)
    ensures Exact(decode, file, at, Read(judge, end, file, at, line))
    decreases |file| - at
  {
    if at == |file| {
    } else {
      var n := LineEnd(file, at);
      var verdict := judge(file[at..n], n < |file|, at, line);
      if verdict.Take? {
        FaithfulReadIsExact(judge, end, decode, file, n + 1, line + 1);
        ReadGoesOn(judge, end, file, at, line, n, verdict.event);
        ExactEarlier(decode, file, at, n, verdict.event, Read(judge, end, file, n + 1, line + 1));
      }
    }
  }

  /**
   From any record boundary, a read returns a record boundary, and has acknowledged exactly the
   records in between, whether it ended at the end of the file or was stopped on the way.
   */
  lemma ReadIsExact<E(!new)>(r: Reader<E>, file: seq<byte>, at: nat)
    requires Boundary(file, at)
    ensures Exact(r.decode, file, at, ReadAudit(r, file, at))
  {
    FaithfulReadIsExact(Judging(r), Ending(r.broken), r.decode, file, at, 0);
  }

  // ---------------------------------------------------------------------
  // Stopping and resuming

  /** A reader nobody cancels and whose callback accepts everything. */
  function Patient<E>(decode: seq<byte> -> Decoded<E>): Reader<E> {
    Reader(decode, (k: nat) => true, (k: nat) => true, false)
  }

  ghost predicate Terminating<E(!new)>(judge: Judge<E>) {
    forall record, terminated, at, line :: judge(record, terminated, at, line).Take? ==> terminated
  }

  /**
   Whatever `judge` acknowledges is terminated, and `other` acknowledges it as the same event, wherever
   it counts from.
   */
  ghost predicate Milder<E(!new)>(judge: Judge<E>, other: Judge<E>) {
    && Terminating(judge)
    && (forall record, at, line, line' {:trigger judge(record, true, at, line), other(record, true, at, line')} ::
          judge(record, true, at, line).Take? ==> other(record, true, at, line') == judge(record, true, at, line))
  }

  lemma LineKept(file: seq<byte>, grown: seq<byte>, at: nat)
    requires file <= grown && at <= |file| && LineEnd(file, at) < |file|
    ensures LineEnd(grown, at) == LineEnd(file, at) && grown[at..LineEnd(file, at)] == file[at..LineEnd(file, at)]
  {
    var n, m := LineEnd(file, at), LineEnd(grown, at);
    assert forall i :: 0 <= i < |file| ==> grown[i] == file[i];
  }

  lemma {:induction false} ReadStaysInside<E>(judge: Judge<E>, end: (nat, nat) -> Stop, file: seq<byte>,
          at: nat, line: nat)
    requires at <= |file|
    ensures at <= Read(judge, end, file, at, line).offset <= |file|
    decreases |file| - at
  {
    if at < |file| && LineEnd(file, at) < |file| {
      ReadStaysInside(judge, end, file, LineEnd(file, at) + 1, line + 1);
    }
  }

  /** From `at` to `end`, line by line, `judge` acknowledges exactly `events`. */
  predicate Taken<E(==)>(judge: Judge<E>, file: seq<byte>, at: nat, line: nat, events: seq<E>, end: nat)
    decreases |events|
  {
    if events == [] then at == end <= |file|
    else
      at < |file| &&
      var n := LineEnd(file, at);
      n < |file| && judge(file[at..n], true, at, line) == Take(events[0])
        && Taken(judge, file, n + 1, line + 1, events[1..], end)
  }

  lemma {:induction false} ReadTakes<E(!new)>(judge: Judge<E>, last: (nat, nat) -> Stop, file: seq<byte>,
          at: nat, line: nat)
    requires Terminating(judge) && at <= |file|
    ensures Taken(judge, file, at, line, Read(judge, last, file, at, line).events,
              Read(judge, last, file, at, line).offset)
    decreases |file| - at
  {
    if at == |file| {
    } else {
      var n := LineEnd(file, at);
      var verdict := judge(file[at..n], n < |file|, at, line);
      if verdict.Take? {
        ReadTakes(judge, last, file, n + 1, line + 1);
        ReadGoesOn(judge, last, file, at, line, n, verdict.event);
        var rest := Read(judge, last, file, n + 1, line + 1);
        assert ([verdict.event] + rest.events)[1..] == rest.events;
      }
    }
  }

  lemma {:induction false} TakenGrows<E(!new)>(judge: Judge<E>, other: Judge<E>, file: seq<byte>,
          grown: seq<byte>, at: nat, line: nat, line': nat, events: seq<E>, end: nat)
    requires Milder(judge, other) && file <= grown && Taken(judge, file, at, line, events, end)
    ensures Taken(other, grown, at, line', events, end)
    decreases |events|
  {
    if events == [] {
    } else {
      var n := LineEnd(file, at);
      LineKept(file, grown, at);
      assert other(file[at..n], true, at, line') == Take(events[0]);
      TakenGrows(judge, other, file, grown, n + 1, line + 1, line' + 1, events[1..], end);
    }
  }

  lemma TakenHead<E>(judge: Judge<E>, file: seq<byte>, at: nat, line: nat, events: seq<E>, end: nat)
    requires Taken(judge, file, at, line, events, end) && events != []
    ensures at < |file|
    ensures var n := LineEnd(file, at);
            n < |file| && judge(file[at..n], true, at, line) == Take(events[0])
              && Taken(judge, file, n + 1, line + 1, events[1..], end)
  {
  }

  lemma Shift<E>(done: seq<E>, events: seq<E>)
    requires events != []
    ensures done + [events[0]] + events[1..] == done + events
  {
  }

  lemma {:induction false} TakenReads<E>(judge: Judge<E>, last: (nat, nat) -> Stop, file: seq<byte>,
          all: Outcome<E>, done: seq<E>, at: nat, line: nat, events: seq<E>, end: nat)
    requires Midway(judge, last, file, all, done, at, line) && Taken(judge, file, at, line, events, end)
    ensures Midway(judge, last, file, all, done + events, end, line + |events|)
    decreases |events|
  {
    if events == [] {
      assert done + events == done;
    } else {
      TakenHead(judge, file, at, line, events, end);
      var n := LineEnd(file, at);
      MidwayTakes(judge, last, file, all, done, at, line, n, events[0]);
      TakenReads(judge, last, file, all, done + [events[0]], n + 1, line + 1, events[1..], end);
      Shift(done, events);
      assert line + 1 + |events[1..]| == line + |events|;
    }
  }

  /** A read of a file goes on, past what `judge` acknowledges of it, from there. */
  lemma ReadPasses<E>(judge: Judge<E>, last: (nat, nat) -> Stop, file: seq<byte>, at: nat, events: seq<E>, end: nat)
    requires at <= |file| && Taken(judge, file, at, 0, events, end)
    ensures Midway(judge, last, file, Read(judge, last, file, at, 0), events, end, |events|)
  {
    var all := Read(judge, last, file, at, 0);
    AfterNothing(all);
    TakenReads(judge, last, file, all, [], at, 0, events, end);
    assert [] + events == events;
  }

  /** `whole` is what was acknowledged so far and what a read from the current offset still gives. */
  predicate Completes<E(==)>(whole: Outcome<E>, events: seq<E>, rest: Outcome<E>) {
    && whole.events == events + rest.events && whole.offset == rest.offset
    && (whole.stop == EndOfFile <==> rest.stop == EndOfFile)
  }

  /** A judge that never calls a refusal the end of the file, under an end that is just that. */
  ghost predicate Honest<E(!new)>(judge: Judge<E>, end: (nat, nat) -> Stop) {
    && (forall record, terminated, at, line :: judge(record, terminated, at, line).Halt? ==>
            judge(record, terminated, at, line).stop != EndOfFile)
    && (forall at, line :: end(at, line) == EndOfFile)
  }

  /** Two reads that differ only in the line number of their stop. */
  predicate SameRead<E(==)>(x: Outcome<E>, y: Outcome<E>) {
    x.events == y.events && x.offset == y.offset && (x.stop == EndOfFile <==> y.stop == EndOfFile)
  }

  lemma SameAfter<E>(e: E, x: Outcome<E>, y: Outcome<E>)
    requires SameRead(x, y)
    ensures SameRead(After([e], x), After([e], y))
  {
  }

  /** Line numbers count from where the stream began; nothing else depends on them. */
  lemma {:induction false} ReadShifts<E(!new)>(judge: Judge<E>, end: (nat, nat) -> Stop, file: seq<byte>,
          at: nat, line: nat, line': nat)
    requires Milder(judge, judge) && Honest(judge, end) && at <= |file|
    ensures SameRead(Read(judge, end, file, at, line), Read(judge, end, file, at, line'))
    decreases |file| - at
  {
    if at == |file| {
    } else {
      var n := LineEnd(file, at);
      var x, y := judge(file[at..n], n < |file|, at, line), judge(file[at..n], n < |file|, at, line');
      if x.Take? {
        ReadGoesOn(judge, end, file, at, line, n, x.event);
        ReadGoesOn(judge, end, file, at, line', n, x.event);
        ReadShifts(judge, end, file, n + 1, line + 1, line' + 1);
        SameAfter(x.event, Read(judge, end, file, n + 1, line + 1), Read(judge, end, file, n + 1, line' + 1));
      } else {
        assert y.Halt?;
      }
    }
  }

  /** One session of a resuming reader: what was appended before it, and how it went. */
  datatype Session = Session(appended: seq<byte>, accept: nat -> bool, live: nat -> bool, broken: bool)

  datatype Story<+E> = Story(file: seq<byte>, events: seq<E>, offset: nat)

  /** Each session reads on from the offset the one before it returned. */
  function Sessions<E>(decode: seq<byte> -> Decoded<E>, file: seq<byte>, at: nat,
          sessions: seq<Session>): (story: Story<E>)
    requires at <= |file|
    ensures file <= story.file && at <= story.offset <= |story.file|
    decreases |sessions|
  {
    if sessions == [] then Story(file, [], at)
    else
      var s := sessions[0];
      var r := Reader(decode, s.accept, s.live, s.broken);
      var grown := file + s.appended;
      ReadStaysInside(Judging(r), Ending(r.broken), grown, at, 0);
      var out := ReadAudit(r, grown, at);
      var rest := Sessions(decode, grown, out.offset, sessions[1..]);
      Story(rest.file, out.events + rest.events, rest.offset)
  }

  /**
   Any number of reads, each stopped anywhere and resumed at the offset it returned while the
   file keeps growing, see together what one undisturbed read of the final file sees up to there;
   reading on from the last offset completes it.
   */
  lemma {:induction false} ResumingLosesNothing<E(!new)>(decode: seq<byte> -> Decoded<E>, file: seq<byte>,
          at: nat, sessions: seq<Session>)
    requires at <= |file|
    ensures var story := Sessions(decode, file, at, sessions);
            Completes(ReadAudit(Patient(decode), story.file, at), story.events,
                ReadAudit(Patient(decode), story.file, story.offset))
    decreases |sessions|
  {
    if sessions == [] {
    } else {
      var s := sessions[0];
      var r := Reader(decode, s.accept, s.live, s.broken);
      var grown := file + s.appended;
      ReadStaysInside(Judging(r), Ending(r.broken), grown, at, 0);
      var out := ReadAudit(r, grown, at);
      ResumingLosesNothing(decode, grown, out.offset, sessions[1..]);
      var rest := Sessions(decode, grown, out.offset, sessions[1..]);
      OneSession(r, grown, rest.file, at);
      CompletesAfter(ReadAudit(Patient(decode), rest.file, at), out.events,
          ReadAudit(Patient(decode), rest.file, out.offset),
                     rest.events, ReadAudit(Patient(decode), rest.file, rest.offset));
    }
  }

  lemma PatientIsMilder<E(!new)>(r: Reader<E>)
    ensures Milder(Judging(r), Judging(Patient(r.decode)))
    ensures Honest(Judging(Patient(r.decode)), Ending(false))
  {
  }

  lemma SessionTakes<E(!new)>(r: Reader<E>, file: seq<byte>, grown: seq<byte>, at: nat)
    requires at <= |file| && file <= grown
    ensures Taken(Judging(Patient(r.decode)), grown, at, 0, ReadAudit(r, file, at).events,
              ReadAudit(r, file, at).offset)
  {
    PatientIsMilder(r);
    ReadTakes(Judging(r), Ending(r.broken), file, at, 0);
    TakenGrows(Judging(r), Judging(Patient(r.decode)), file, grown, at, 0, 0, ReadAudit(r, file, at).events,
        ReadAudit(r, file, at).offset);
  }

  lemma CompletesAfter<E>(whole: Outcome<E>, first: seq<E>, middle: Outcome<E>, events: seq<E>, rest: Outcome<E>)
    requires Completes(whole, first, middle) && Completes(middle, events, rest)
    ensures Completes(whole, first + events, rest)
  {
    assert first + (events + rest.events) == first + events + rest.events;
  }

  /**
   What an undisturbed read sees from `at` is what the session saw, then what it sees from where the
   session ended.
   */
  lemma OneSession<E(!new)>(r: Reader<E>, file: seq<byte>, grown: seq<byte>, at: nat)
    requires at <= |file| && file <= grown && ReadAudit(r, file, at).offset <= |file|
    ensures Completes(ReadAudit(Patient(r.decode), grown, at), ReadAudit(r, file, at).events,
              ReadAudit(Patient(r.decode), grown, ReadAudit(r, file, at).offset))
  {
    var judge := Judging(Patient(r.decode));
    var out := ReadAudit(r, file, at);
    SessionTakes(r, file, grown, at);
    ReadPasses(judge, Ending(false), grown, at, out.events, out.offset);
    PatientIsMilder(Patient(r.decode));
    ReadShifts(judge, Ending(false), grown, out.offset, |out.events|, 0);
  }

  // ---------------------------------------------------------------------
  // What was recorded is what is read

  /** A JSON encoding: no newline inside, and unmarshalling undoes it. */
  ghost predicate Codec<E(!new)>(encode: E -> seq<byte>, decode: seq<byte> -> Decoded<E>) {
    forall e :: NEWLINE !in encode(e) && decode(encode(e)) == Event(e)
  }

  function Encoded<E>(encode: E -> seq<byte>, events: seq<E>): seq<byte> {
    if events == [] then [] else encode(events[0]) + [NEWLINE] + Encoded(encode, events[1..])
  }

  predicate Fits<E>(encode: E -> seq<byte>, e: E) {
    |encode(e)| <= MAX_RECORD
  }

  predicate HasLine(file: seq<byte>, at: nat, record: seq<byte>) {
    at + |record| < |file| && file[at..at + |record|] == record && file[at + |record|] == NEWLINE
  }

  /** From `at` to `end` the file holds these events, each on a line of its own. */
  predicate Recorded<E>(encode: E -> seq<byte>, file: seq<byte>, at: nat, events: seq<E>, end: nat)
    decreases |events|
  {
    if events == [] then at == end <= |file|
    else
      HasLine(file, at, encode(events[0])) && Recorded(encode, file, at + |encode(events[0])| + 1, events[1..], end)
  }

  lemma {:induction false} EncodedIsRecorded<E>(encode: E -> seq<byte>, file: seq<byte>, at: nat,
          events: seq<E>, rest: seq<byte>)
    requires at <= |file| && file[at..] == Encoded(encode, events) + rest
    ensures Recorded(encode, file, at, events, at + |Encoded(encode, events)|)
    decreases |events|
  {
    if events == [] {
    } else {
      var record := encode(events[0]);
      var next := at + |record| + 1;
      Cut(file, at, record, Encoded(encode, events[1..]), rest);
      EncodedIsRecorded(encode, file, next, events[1..], rest);
    }
  }

  lemma Cut(file: seq<byte>, at: nat, record: seq<byte>, more: seq<byte>, rest: seq<byte>)
    requires at <= |file| && file[at..] == record + [NEWLINE] + more + rest
    ensures HasLine(file, at, record) && file[at + |record| + 1..] == more + rest
  {
    var tail := file[at..];
    assert file[at..at + |record|] == tail[..|record|] == record;
    assert file[at + |record|] == tail[|record|];
    assert file[at + |record| + 1..] == tail[|record| + 1..];
  }

  lemma RecordedLine(file: seq<byte>, at: nat, record: seq<byte>)
    requires NEWLINE !in record
    requires HasLine(file, at, record)
    ensures LineEnd(file, at) == at + |record|
  {
    assert forall i :: at <= i < at + |record| ==> file[i] == record[i - at];
  }

  lemma {:induction false} RecordedIsTaken<E(!new)>(encode: E -> seq<byte>, decode: seq<byte> -> Decoded<E>,
          file: seq<byte>, at: nat, line: nat, events: seq<E>, end: nat)
    requires Codec(encode, decode) && Recorded(encode, file, at, events, end)
    requires forall i :: 0 <= i < |events| ==> Fits(encode, events[i])
    ensures Taken(Judging(Patient(decode)), file, at, line, events, end)
    decreases |events|
  {
    if events == [] {
    } else {
      RecordedLine(file, at, encode(events[0]));
      RecordedIsTaken(encode, decode, file, at + |encode(events[0])| + 1, line + 1, events[1..], end);
    }
  }

  /** Reading over records that were appended whole acknowledges each of them, whatever follows. */
  lemma RecordedReadsBack<E(!new)>(encode: E -> seq<byte>, decode: seq<byte> -> Decoded<E>, file: seq<byte>,
          events: seq<E>, end: nat)
    requires Codec(encode, decode) && Recorded(encode, file, 0, events, end)
    requires forall i :: 0 <= i < |events| ==> Fits(encode, events[i])
    ensures Midway(Judging(Patient(decode)), Ending(false), file, ReadAudit(Patient(decode), file, 0), events, end,
              |events|)
  {
    RecordedIsTaken(encode, decode, file, 0, 0, events, end);
    ReadPasses(Judging(Patient(decode)), Ending(false), file, 0, events, end);
  }

  /** What a read of recorded events comes to, when the line after them is refused. */
  lemma RecordedThenStops<E(!new)>(encode: E -> seq<byte>, decode: seq<byte> -> Decoded<E>, file: seq<byte>,
          events: seq<E>, end: nat, n: nat, stop: Stop)
    requires Codec(encode, decode) && Recorded(encode, file, 0, events, end)
    requires forall i :: 0 <= i < |events| ==> Fits(encode, events[i])
    requires end < |file| && n == LineEnd(file, end)
    requires Examine(Patient(decode), file[end..n], n < |file|, end, |events|) == Halt(stop)
    ensures ReadAudit(Patient(decode), file, 0) == Outcome(events, end, stop)
  {
    RecordedReadsBack(encode, decode, file, events, end);
    MidwayStops(Judging(Patient(decode)), Ending(false), file, ReadAudit(Patient(decode), file, 0), events, end,
        |events|, n, stop);
  }

  /** The log reads back whole exactly when no record in it exceeds the reader's limit; `Record` does not check. */
  lemma LogReadsBackIff<E(!new)>(encode: E -> seq<byte>, decode: seq<byte> -> Decoded<E>, events: seq<E>)
    requires Codec(encode, decode)
    ensures var file := Encoded(encode, events);
            ReadAudit(Patient(decode), file, 0) == Outcome(events, |file|, EndOfFile)
            <==> forall i :: 0 <= i < |events| ==> Fits(encode, events[i])
  {
    var file := Encoded(encode, events);
    if forall i :: 0 <= i < |events| ==> Fits(encode, events[i]) {
      RecordedBefore(encode, events, []);
      assert file + [] == file;
      RecordedReadsBack(encode, decode, file, events, |file|);
      MidwayEnds(Judging(Patient(decode)), Ending(false), file, ReadAudit(Patient(decode), file, 0), events, |file|,
          |events|);
    } else {
      StopsAtFirstUnfit(encode, decode, events);
    }
  }

  function FirstUnfit<E>(encode: E -> seq<byte>, events: seq<E>): (k: nat)
    requires !(forall i :: 0 <= i < |events| ==> Fits(encode, events[i]))
    ensures k < |events| && !Fits(encode, events[k]) && forall i :: 0 <= i < k ==> Fits(encode, events[i])
  {
    if !Fits(encode, events[0]) then 0
    else
      assert exists i :: 0 <= i < |events[1..]| && !Fits(encode, events[1..][i]) by {
        var i :| 0 <= i < |events| && !Fits(encode, events[i]);
        assert events[1..][i - 1] == events[i];
      }
      var k := 1 + FirstUnfit(encode, events[1..]);
      assert forall i :: 1 <= i < k ==> events[i] == events[1..][i - 1];
      k
  }

  lemma {:induction false} EncodedSplit<E>(encode: E -> seq<byte>, events: seq<E>, k: nat)
    requires k < |events|
    ensures Encoded(encode, events) ==
            Encoded(encode, events[..k]) + (encode(events[k]) + [NEWLINE] + Encoded(encode, events[k + 1..]))
  {
    if k == 0 {
      assert Encoded(encode, events[..0]) == [];
    } else {
      EncodedSplit(encode, events[1..], k - 1);
      assert events[..k][1..] == events[1..][..k - 1] && events[1..][k..] == events[k + 1..];
      assert events[1..][k - 1] == events[k];
    }
  }

  lemma RecordedBefore<E>(encode: E -> seq<byte>, events: seq<E>, rest: seq<byte>)
    ensures Recorded(encode, Encoded(encode, events) + rest, 0, events, |Encoded(encode, events)|)
  {
    var file := Encoded(encode, events) + rest;
    assert file[0..] == file;
    EncodedIsRecorded(encode, file, 0, events, rest);
  }

  lemma Middle(good: seq<byte>, record: seq<byte>, rest: seq<byte>)
    ensures HasLine(good + (record + [NEWLINE] + rest), |good|, record)
  {
    var file := good + (record + [NEWLINE] + rest);
    assert file[|good|..|good| + |record|] == record;
  }

  /** A whole line that is over the limit or does not unmarshal ends the read. */
  lemma BadLineStops<E(!new)>(encode: E -> seq<byte>, decode: seq<byte> -> Decoded<E>, file: seq<byte>,
          events: seq<E>, end: nat, record: seq<byte>)
    requires Codec(encode, decode) && Recorded(encode, file, 0, events, end) && HasLine(file, end, record)
    requires forall i :: 0 <= i < |events| ==> Fits(encode, events[i])
    requires NEWLINE !in record && (|record| > MAX_RECORD || !decode(record).Event?)
    ensures var out := ReadAudit(Patient(decode), file, 0);
            out.events == events && out.offset == end && out.stop.Corrupt?
  {
    RecordedLine(file, end, record);
    var verdict := Examine(Patient(decode), record, true, end, |events|);
    RecordedThenStops(encode, decode, file, events, end, end + |record|, verdict.stop);
  }

  /** The first record over the size limit is never acknowledged, nor anything after it. */
  lemma StopsAtFirstUnfit<E(!new)>(encode: E -> seq<byte>, decode: seq<byte> -> Decoded<E>, events: seq<E>)
    requires Codec(encode, decode)
    requires !(forall i :: 0 <= i < |events| ==> Fits(encode, events[i]))
    ensures var k := FirstUnfit(encode, events);
            var out := ReadAudit(Patient(decode), Encoded(encode, events), 0);
            out.events == events[..k] && out.offset == |Encoded(encode, events[..k])| && out.stop.Corrupt?
  {
    var k := FirstUnfit(encode, events);
    var rest := Encoded(encode, events[k + 1..]);
    EncodedSplit(encode, events, k);
    RecordedBefore(encode, events[..k], encode(events[k]) + [NEWLINE] + rest);
    Middle(Encoded(encode, events[..k]), encode(events[k]), rest);
    BadLineStops(encode, decode, Encoded(encode, events), events[..k], |Encoded(encode, events[..k])|,
        encode(events[k]));
  }

  /**
   A record cut short hides nothing before it: the reader acknowledges every earlier record and
   stops at the torn one with a corruption.  What is appended onto the same line is acknowledged
   exactly when the joined line fits and happens to unmarshal.
   */
  lemma TornRecordHidesNothing<E(!new)>(encode: E -> seq<byte>, decode: seq<byte> -> Decoded<E>, events: seq<E>,
          torn: seq<byte>, e: E)
    requires Codec(encode, decode)
    requires forall i :: 0 <= i < |events| ==> Fits(encode, events[i])
    requires torn != [] && NEWLINE !in torn
    ensures var out := ReadAudit(Patient(decode), Encoded(encode, events) + torn, 0);
            out.events == events && out.offset == |Encoded(encode, events)| && out.stop.Corrupt?
    ensures var joined, good := torn + encode(e), Encoded(encode, events);
            var out := ReadAudit(Patient(decode), good + (joined + [NEWLINE]), 0);
            if |joined| <= MAX_RECORD && decode(joined).Event?
            then out == Outcome(events + [decode(joined).event], |good| + |joined| + 1, EndOfFile)
            else out.events == events && out.offset == |good| && out.stop.Corrupt?
  {
    var good, joined := Encoded(encode, events), torn + encode(e);
    RecordedBefore(encode, events, torn);
    UnterminatedTail(good, torn);
    TornTailStops(encode, decode, good + torn, events, |good|);
    assert joined + [NEWLINE] + [] == joined + [NEWLINE];
    RecordedBefore(encode, events, joined + [NEWLINE]);
    Middle(good, joined, []);
    if |joined| <= MAX_RECORD && decode(joined).Event? {
      GoodLineIsTaken(encode, decode, good + (joined + [NEWLINE]), events, |good|, joined);
    } else {
      BadLineStops(encode, decode, good + (joined + [NEWLINE]), events, |good|, joined);
    }
  }

  /** A last line that fits and unmarshals is acknowledged, whoever wrote it. */
  lemma GoodLineIsTaken<E(!new)>(encode: E -> seq<byte>, decode: seq<byte> -> Decoded<E>, file: seq<byte>,
          events: seq<E>, end: nat, record: seq<byte>)
    requires Codec(encode, decode) && Recorded(encode, file, 0, events, end) && HasLine(file, end, record)
    requires forall i :: 0 <= i < |events| ==> Fits(encode, events[i])
    requires NEWLINE !in record && |record| <= MAX_RECORD && decode(record).Event? && |file| == end + |record| + 1
    ensures ReadAudit(Patient(decode), file, 0) == Outcome(events + [decode(record).event], |file|, EndOfFile)
  {
    var judge, last, all := Judging(Patient(decode)), Ending(false), ReadAudit(Patient(decode), file, 0);
    RecordedLine(file, end, record);
    RecordedReadsBack(encode, decode, file, events, end);
    MidwayTakes(judge, last, file, all, events, end, |events|, end + |record|, decode(record).event);
    MidwayEnds(judge, last, file, all, events + [decode(record).event], |file|, |events| + 1);
  }

  lemma TornTailStops<E(!new)>(encode: E -> seq<byte>, decode: seq<byte> -> Decoded<E>, file: seq<byte>,
          events: seq<E>, end: nat)
    requires Codec(encode, decode) && Recorded(encode, file, 0, events, end)
    requires forall i :: 0 <= i < |events| ==> Fits(encode, events[i])
    requires end < |file| && LineEnd(file, end) == |file|
    ensures var out := ReadAudit(Patient(decode), file, 0);
            out.events == events && out.offset == end && out.stop.Corrupt?
  {
    var verdict := Examine(Patient(decode), file[end..|file|], false, end, |events|);
    RecordedThenStops(encode, decode, file, events, end, |file|, verdict.stop);
  }

  lemma UnterminatedTail(good: seq<byte>, torn: seq<byte>)
    requires NEWLINE !in torn
    ensures LineEnd(good + torn, |good|) == |good + torn|
  {
    var file := good + torn;
    assert forall i :: |good| <= i < |file| ==> file[i] == torn[i - |good|];
  }
}

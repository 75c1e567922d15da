/**
 The writer of the audit file (internal/policy/audit.go) and what its calls leave on disk: the journal
 that the push protocol reasons about is what a reader of the bytes sees.
 */
module AuditJournal {
  import opened AuditHistory
  import opened AuditStream
  import opened Bytes
  import Protocol = PushProtocol
  import Status = PushStatus

  type Record = Status.AuditEvent
  type Encoding = Record -> seq<byte>

  /** How a call that put `written` of its `length` bytes in the file ended. */
  function Ended(length: nat, written: nat, synced: bool): Protocol.Write {
    if written == 0 then Protocol.Lost
    else if written < length then Protocol.Torn
    else if synced then Protocol.Written
    else Protocol.Kept
  }

  // ---------------------------------------------------------------------
  // What is behind a torn record

  /** What a call leaves that is cut short before its newline. */
  ghost predicate Scrap(encode: Encoding, p: seq<byte>) {
    p != [] && exists e :: p <= encode(e)
  }

  function Flat(ps: seq<seq<byte>>): seq<byte> {
    if ps == [] then [] else Flat(ps[..|ps| - 1]) + ps[|ps| - 1]
  }

  /** Scraps one after the other on one line. */
  ghost predicate Scraps(encode: Encoding, t: seq<byte>) {
    exists ps :: Pieces(encode, ps) && t == Flat(ps)
  }

  ghost predicate Pieces(encode: Encoding, ps: seq<seq<byte>>) {
    ps != [] && forall i :: 0 <= i < |ps| ==> Scrap(encode, ps[i])
  }

  /** A record joined to scraps before it on the line never unmarshals. */
  ghost predicate Unjoinable(encode: Encoding, decode: seq<byte> -> Decoded<Record>) {
    forall t, e :: Scraps(encode, t) ==> !decode(t + encode(e)).Event?
  }

  lemma OneScrap(encode: Encoding, p: seq<byte>)
    requires Scrap(encode, p)
    ensures Scraps(encode, p)
  {
    assert [p][..0] == [] && Flat([]) == [];
    assert Flat([p]) == [] + p == p;
    assert Pieces(encode, [p]);
  }

  lemma MoreScraps(encode: Encoding, t: seq<byte>, p: seq<byte>)
    requires Scraps(encode, t) && Scrap(encode, p)
    ensures Scraps(encode, t + p)
  {
    var ps :| Pieces(encode, ps) && t == Flat(ps);
    assert (ps + [p])[..|ps|] == ps;
    assert Flat(ps + [p]) == t + p;
    assert Pieces(encode, ps + [p]);
  }

  lemma {:induction false} PiecesHaveNoNewline(encode: Encoding, decode: seq<byte> -> Decoded<Record>,
          ps: seq<seq<byte>>)
    requires Codec(encode, decode) && forall i :: 0 <= i < |ps| ==> Scrap(encode, ps[i])
    ensures NEWLINE !in Flat(ps) && (ps != [] ==> Flat(ps) != [])
  {
    if ps == [] {
    } else {
      var p := ps[|ps| - 1];
      PiecesHaveNoNewline(encode, decode, ps[..|ps| - 1]);
      assert Scrap(encode, p);
      var e :| p <= encode(e);
      assert NEWLINE !in encode(e);
    }
  }

  lemma ScrapsHaveNoNewline(encode: Encoding, decode: seq<byte> -> Decoded<Record>, t: seq<byte>)
    requires Codec(encode, decode) && Scraps(encode, t)
    ensures t != [] && NEWLINE !in t
  {
    var ps :| Pieces(encode, ps) && t == Flat(ps);
    PiecesHaveNoNewline(encode, decode, ps);
  }

  /**
   What follows the readable records of a damaged file: scraps, ended by a joined record and anything
   after it, or not ended.
   */
  ghost predicate Broken(encode: Encoding, tail: seq<byte>) {
    Scraps(encode, tail) || exists t, e, rest :: Scraps(encode, t) && tail == t + encode(e) + [NEWLINE] + rest
  }

  ghost predicate TailOf(encode: Encoding, j: Status.Journal, tail: seq<byte>) {
    if j.damaged then Broken(encode, tail) else tail == []
  }

  /** The file holds the journal's readable records, and behind them damage if the journal says so. */
  ghost predicate Tied(encode: Encoding, file: seq<byte>, j: Status.Journal) {
    exists tail :: TiedBy(encode, file, j, tail)
  }

  ghost predicate TiedBy(encode: Encoding, file: seq<byte>, j: Status.Journal, tail: seq<byte>) {
    file == Encoded(encode, j.records) + tail && TailOf(encode, j, tail)
  }

  // ---------------------------------------------------------------------
  // One call

  lemma EncodedOneMore(encode: Encoding, events: seq<Record>, e: Record)
    ensures Encoded(encode, events + [e]) == Encoded(encode, events) + (encode(e) + [NEWLINE])
  {
    EncodedSplit(encode, events + [e], |events|);
    assert (events + [e])[..|events|] == events && (events + [e])[|events| + 1..] == [];
    assert encode(e) + [NEWLINE] + [] == encode(e) + [NEWLINE];
  }

  lemma BrokenGrows(encode: Encoding, tail: seq<byte>, e: Record, more: seq<byte>)
    requires Broken(encode, tail) && (Scrap(encode, more) || more == encode(e) + [NEWLINE])
    ensures Broken(encode, tail + more)
  {
    if Scraps(encode, tail) {
      if Scrap(encode, more) {
        MoreScraps(encode, tail, more);
      } else {
        assert tail + more == tail + encode(e) + [NEWLINE] + [];
      }
    } else {
      var t, x, rest :| Scraps(encode, t) && tail == t + encode(x) + [NEWLINE] + rest;
      assert tail + more == t + encode(x) + [NEWLINE] + (rest + more);
    }
  }

  lemma TailGrows(encode: Encoding, j: Status.Journal, tail: seq<byte>, e: Record, written: nat)
    requires TailOf(encode, j, tail) && 0 < written <= |encode(e)| + 1 && (written == |encode(e)| + 1 ==> j.damaged)
    ensures Broken(encode, tail + (encode(e) + [NEWLINE])[..written])
  {
    var line := encode(e) + [NEWLINE];
    var part := line[..written];
    if written < |line| {
      assert part == encode(e)[..written];
      assert Scrap(encode, part);
    } else {
      assert part == line;
    }
    if j.damaged {
      BrokenGrows(encode, tail, e, part);
    } else {
      OneScrap(encode, part);
      assert tail + part == part;
    }
  }

  lemma WholeLineTied(encode: Encoding, file: seq<byte>, j: Status.Journal, e: Record)
    requires TiedBy(encode, file, j, []) && !j.damaged
    ensures TiedBy(encode, file + (encode(e) + [NEWLINE]), j.(records := j.records + [e]), [])
  {
    EncodedOneMore(encode, j.records, e);
    var good := Encoded(encode, j.records);
    assert good + [] == good;
    assert Encoded(encode, j.records + [e]) + [] == Encoded(encode, j.records + [e]);
  }

  lemma Reassociate(a: seq<byte>, b: seq<byte>, c: seq<byte>)
    ensures a + b + c == a + (b + c)
  {
  }

  /** Whatever part of its line a call manages to write, the file stays tied to the journal. */
  lemma RecordKeepsTied(encode: Encoding, file: seq<byte>, j: Status.Journal, e: Record, written: nat, synced: bool)
    requires Tied(encode, file, j) && written <= |encode(e)| + 1
    ensures var line := encode(e) + [NEWLINE];
            Tied(encode, file + line[..written], Protocol.Append(j, e, Ended(|line|, written, synced)))
  {
    var line := encode(e) + [NEWLINE];
    var j' := Protocol.Append(j, e, Ended(|line|, written, synced));
    var tail :| TiedBy(encode, file, j, tail);
    if written == 0 {
      assert file + line[..0] == file;
      assert TiedBy(encode, file, j', tail);
    } else if written == |line| && !j.damaged {
      assert line[..written] == line;
      WholeLineTied(encode, file, j, e);
      assert TiedBy(encode, file + line, j', []);
    } else {
      TailGrows(encode, j, tail, e, written);
      Reassociate(Encoded(encode, j.records), tail, line[..written]);
      assert TiedBy(encode, file + line[..written], j', tail + line[..written]);
    }
  }

  // ---------------------------------------------------------------------
  // What a reader sees

  /** A file tied to a journal reads as that journal. */
  predicate ReadsAs(out: Outcome<Record>, j: Status.Journal) {
    out.events == j.records && (out.stop == EndOfFile <==> !j.damaged)
  }

  lemma BrokenTailStops(encode: Encoding, decode: seq<byte> -> Decoded<Record>, events: seq<Record>, tail: seq<byte>)
    requires Codec(encode, decode) && Unjoinable(encode, decode) && Broken(encode, tail)
    requires forall i :: 0 <= i < |events| ==> Fits(encode, events[i])
    ensures var out := ReadAudit(Patient(decode), Encoded(encode, events) + tail, 0);
            out.events == events && out.stop.Corrupt?
  {
    var good := Encoded(encode, events);
    RecordedBefore(encode, events, tail);
    if Scraps(encode, tail) {
      ScrapsHaveNoNewline(encode, decode, tail);
      UnterminatedTail(good, tail);
      TornTailStops(encode, decode, good + tail, events, |good|);
    } else {
      var t, e, rest :| Scraps(encode, t) && tail == t + encode(e) + [NEWLINE] + rest;
      ScrapsHaveNoNewline(encode, decode, t);
      Middle(good, t + encode(e), rest);
      BadLineStops(encode, decode, good + tail, events, |good|, t + encode(e));
    }
  }

  lemma FittingFileReadsBack(encode: Encoding, decode: seq<byte> -> Decoded<Record>, file: seq<byte>, j: Status.Journal)
    requires Codec(encode, decode) && Unjoinable(encode, decode) && Tied(encode, file, j)
    requires forall i :: 0 <= i < |j.records| ==> Fits(encode, j.records[i])
    ensures ReadsAs(ReadAudit(Patient(decode), file, 0), j)
  {
    var tail :| TiedBy(encode, file, j, tail);
    if j.damaged {
      BrokenTailStops(encode, decode, j.records, tail);
    } else {
      assert file == Encoded(encode, j.records);
      LogReadsBackIff(encode, decode, j.records);
    }
  }

  /** The first records of a file that holds more, and the line after them. */
  lemma {:induction false} RecordedPrefix(encode: Encoding, file: seq<byte>, at: nat, events: seq<Record>, end: nat,
          k: nat)
    returns (mid: nat)
    requires Recorded(encode, file, at, events, end) && k < |events|
    ensures Recorded(encode, file, at, events[..k], mid) && HasLine(file, mid, encode(events[k]))
    decreases k
  {
    if k == 0 {
      mid := at;
    } else {
      mid := RecordedPrefix(encode, file, at + |encode(events[0])| + 1, events[1..], end, k - 1);
      assert events[..k][1..] == events[1..][..k - 1];
    }
  }

  lemma UnfitFileStops(encode: Encoding, decode: seq<byte> -> Decoded<Record>, events: seq<Record>, tail: seq<byte>)
    requires Codec(encode, decode) && !(forall i :: 0 <= i < |events| ==> Fits(encode, events[i]))
    ensures ReadAudit(Patient(decode), Encoded(encode, events) + tail, 0).events == events[..FirstUnfit(encode, events)]
  {
    var k, file := FirstUnfit(encode, events), Encoded(encode, events) + tail;
    RecordedBefore(encode, events, tail);
    var mid := RecordedPrefix(encode, file, 0, events, |Encoded(encode, events)|, k);
    BadLineStops(encode, decode, file, events[..k], mid, encode(events[k]));
  }

  /** The file reads as its journal exactly when no readable record exceeds the reader's limit. */
  lemma FileReadsAsJournalIff(encode: Encoding, decode: seq<byte> -> Decoded<Record>, file: seq<byte>,
          j: Status.Journal)
    requires Codec(encode, decode) && Unjoinable(encode, decode) && Tied(encode, file, j)
    ensures ReadsAs(ReadAudit(Patient(decode), file, 0), j) <==>
              forall i :: 0 <= i < |j.records| ==> Fits(encode, j.records[i])
  {
    if forall i :: 0 <= i < |j.records| ==> Fits(encode, j.records[i]) {
      FittingFileReadsBack(encode, decode, file, j);
    } else {
      var tail :| TiedBy(encode, file, j, tail);
      UnfitFileStops(encode, decode, j.records, tail);
    }
  }

  // ---------------------------------------------------------------------
  // Any calls

  datatype Call = Call(event: Record, written: nat, synced: bool)

  ghost predicate Possible(encode: Encoding, calls: seq<Call>) {
    forall i :: 0 <= i < |calls| ==> calls[i].written <= |encode(calls[i].event)| + 1
  }

  /** The bytes these calls leave. */
  function FileOf(encode: Encoding, calls: seq<Call>): seq<byte> {
    if calls == [] then []
    else
      var c := calls[|calls| - 1];
      var line := encode(c.event) + [NEWLINE];
      FileOf(encode, calls[..|calls| - 1]) + if c.written <= |line| then line[..c.written] else line
  }

  /** The journal the push protocol makes of them. */
  function JournalOf(encode: Encoding, calls: seq<Call>): Status.Journal {
    if calls == [] then Status.Journal([], false, [])
    else
      var c := calls[|calls| - 1];
      Protocol.Append(JournalOf(encode, calls[..|calls| - 1]), c.event,
          Ended(|encode(c.event)| + 1, c.written, c.synced))
  }

  lemma {:induction false} CallsKeepTied(encode: Encoding, calls: seq<Call>)
    requires Possible(encode, calls)
    ensures Tied(encode, FileOf(encode, calls), JournalOf(encode, calls))
  {
    if calls == [] {
      assert TiedBy(encode, [], Status.Journal([], false, []), []);
    } else {
      var n := |calls| - 1;
      CallsKeepTied(encode, calls[..n]);
      var c := calls[n];
      RecordKeepsTied(encode, FileOf(encode, calls[..n]), JournalOf(encode, calls[..n]), c.event, c.written, c.synced);
    }
  }

  /**
   For any calls with any outcomes, the file reads as the journal of the push protocol: its readable
   records, and the end of the file exactly when it is undamaged, as long as those records fit.
   */
  lemma EveryFileReadsAsItsJournal(encode: Encoding, decode: seq<byte> -> Decoded<Record>, calls: seq<Call>)
    requires Codec(encode, decode) && Unjoinable(encode, decode) && Possible(encode, calls)
    ensures var j := JournalOf(encode, calls);
            ReadsAs(ReadAudit(Patient(decode), FileOf(encode, calls), 0), j)
            <==> forall i :: 0 <= i < |j.records| ==> Fits(encode, j.records[i])
  {
    CallsKeepTied(encode, calls);
    FileReadsAsJournalIff(encode, decode, FileOf(encode, calls), JournalOf(encode, calls));
  }

  /** So a push status computed from the bytes is the status of the journal. */
  lemma StatusOfBytes(encode: Encoding, decode: seq<byte> -> Decoded<Record>, calls: seq<Call>, fm: Status.Formats,
          environment: string, id: string, active: set<string>)
    requires Codec(encode, decode) && Unjoinable(encode, decode) && Possible(encode, calls)
    requires var j := JournalOf(encode, calls); forall i :: 0 <= i < |j.records| ==> Fits(encode, j.records[i])
    ensures var out := ReadAudit(Patient(decode), FileOf(encode, calls), 0);
            Status.StatusOf(fm, Status.Journal(out.events, out.stop != EndOfFile, []), environment, id, active)
            == Status.StatusOf(fm, JournalOf(encode, calls), environment, id, active)
  {
    EveryFileReadsAsItsJournal(encode, decode, calls);
  }

  // ---------------------------------------------------------------------
  // The writer

  /** The audit file under its writer's mutex, with the journal its calls amount to. */
  class JSONLAudit {
    const encode: Encoding
    var file: seq<byte>
    ghost var journal: Status.Journal

    ghost predicate Valid()
      reads this
    {
      Tied(encode, file, journal)
    }

    constructor (encode: Encoding)
      ensures Valid() && this.encode == encode && file == [] && journal == Status.Journal([], false, [])
    {
      this.encode, file, journal := encode, [], Status.Journal([], false, []);
      new;
      assert TiedBy(encode, [], Status.Journal([], false, []), []);
    }

    /**
     `Record`: `written` bytes of the line reach the file, and the sync may fail; only a whole, synced
     line is a success.
     */
    method Record(event: Record, written: nat, synced: bool) returns (ok: bool)
      requires Valid() && written <= |encode(event)| + 1
      modifies this
      ensures Valid()
      ensures journal == Protocol.Append(old(journal), event, Ended(|encode(event)| + 1, written, synced))
      ensures ok <==> Ended(|encode(event)| + 1, written, synced) == Protocol.Written
    {
      var line := encode(event) + [NEWLINE];
      RecordKeepsTied(encode, file, journal, event, written, synced);
      file := file + line[..written];
      ok := written == |line| && synced;
      journal := Protocol.Append(journal, event, Ended(|line|, written, synced));
    }
  }
}

/** The progress line of a repository operation (internal/cli/repository.go): `repositoryProgressWriter`. */
module Progress {
  import opened Bytes
  import opened Wrappers

  const CR: byte := 13
  const LF: byte := 10
  const COLON: byte := 58

  /** Carriage return, then the terminal's erase-line sequence. */
  const ERASE: seq<byte> := [13, 27, 91, 50, 75]

  /** The first position of a byte, or the length when there is none. */
  function Find(s: seq<byte>, b: byte): (n: nat)
    ensures n <= |s| && (n < |s| ==> s[n] == b) && forall i :: 0 <= i < n ==> s[i] != b
  {
    if s == [] || s[0] == b then 0 else 1 + Find(s[1..], b)
  }

  function TrimCR(line: seq<byte>): seq<byte> {
    if line != [] && line[|line| - 1] == CR then line[..|line| - 1] else line
  }

  function StageOf(line: seq<byte>): seq<byte> {
    line[..Find(line, COLON)]
  }

  /**
   The line on the terminal: whether there is one and its stage, what reached the output, and how many
   writes it was given.
   */
  datatype Screen = Screen(active: bool, stage: seq<byte>, out: seq<byte>, writes: nat)

  datatype Shown = Shown(screen: Screen, ok: bool)

  /** Whether the output takes its n-th write. */
  type Sink = nat -> bool

  function Put(sink: Sink, s: Screen, text: seq<byte>): Shown {
    if sink(s.writes) then Shown(s.(out := s.out + text, writes := s.writes + 1), true)
    else Shown(s.(writes := s.writes + 1), false)
  }

  function Show(sink: Sink, s: Screen, line: seq<byte>): Shown {
    var shown := Put(sink, s, ERASE + line);
    if shown.ok then Shown(shown.screen.(active := true, stage := StageOf(line)), true) else shown
  }

  /** `render` */
  function Render(sink: Sink): (Screen, seq<byte>) -> Shown {
    (s: Screen, line: seq<byte>) =>
      if line == [] then Shown(s, true)
      else if s.active && StageOf(line) != s.stage then
        var broken := Put(sink, s, [LF]);
        if !broken.ok then broken else Show(sink, broken.screen.(active := false), line)
      else Show(sink, s, line)
  }

  datatype Writer = Writer(terminal: bool, pending: seq<byte>, screen: Screen)

  function New(terminal: bool): Writer {
    Writer(terminal, [], Screen(false, [], [], 0))
  }

  datatype Drained = Drained(pending: seq<byte>, shown: Shown)

  /** The loop of `Write`: the complete lines that are pending are rendered, up to the first failure. */
  function Drain(render: (Screen, seq<byte>) -> Shown, pending: seq<byte>, s: Screen): Drained
    decreases |pending|
  {
    var end := Find(pending, LF);
    if end == |pending| then Drained(pending, Shown(s, true))
    else
      var shown := render(s, TrimCR(pending[..end]));
      if shown.ok then Drain(render, pending[end + 1..], shown.screen) else Drained(pending[end + 1..], shown)
  }

  datatype Outcome = Outcome(w: Writer, ok: bool)

  /** `Write` on a terminal. */
  function WriteLines(render: (Screen, seq<byte>) -> Shown, w: Writer, p: seq<byte>): Outcome {
    var d := Drain(render, w.pending + p, w.screen);
    Outcome(w.(pending := d.pending, screen := d.shown.screen), d.shown.ok)
  }

  function Write(sink: Sink, w: Writer, p: seq<byte>): Outcome {
    if w.terminal then WriteLines(Render(sink), w, p)
    else
      var put := Put(sink, w.screen, p);
      Outcome(w.(screen := put.screen), put.ok)
  }

  /** The last line of `Finish` leaves the cursor on a line of its own. */
  function Leave(sink: Sink, s: Screen): Shown {
    if s.active then Put(sink, s.(active := false), [LF]) else Shown(s, true)
  }

  function Finish(sink: Sink, w: Writer): Outcome {
    if !w.terminal then Outcome(w, true)
    else
      var last := if w.pending == [] then Shown(w.screen, true) else Render(sink)(w.screen, TrimCR(w.pending));
      var left := if last.ok then Leave(sink, last.screen) else last;
      Outcome(w.(pending := [], screen := left.screen), left.ok)
  }

  // ---------------------------------------------------------------------
  // The writer

  class RepositoryProgressWriter {
    const sink: Sink
    const terminal: bool
    var active: bool
    var stage: seq<byte>
    var pending: seq<byte>
    var out: seq<byte>
    var writes: nat

    ghost function OnScreen(): Screen
      reads this
    {
      Screen(active, stage, out, writes)
    }

    ghost function State(): Writer
      reads this
    {
      Writer(terminal, pending, OnScreen())
    }

    constructor (sink: Sink, terminal: bool)
      ensures this.sink == sink && State() == New(terminal)
    {
      this.sink, this.terminal := sink, terminal;
      active, stage, pending, out, writes := false, [], [], [], 0;
    }

    method PutText(text: seq<byte>) returns (ok: bool)
      modifies this`out, this`writes
      ensures Shown(OnScreen(), ok) == Put(sink, old(OnScreen()), text)
    {
      ok := sink(writes);
      if ok {
        out := out + text;
      }
      writes := writes + 1;
    }

    method RenderLine(line: seq<byte>) returns (ok: bool)
      modifies this`active, this`stage, this`out, this`writes
      ensures Shown(OnScreen(), ok) == Render(sink)(old(OnScreen()), line)
    {
      if line == [] {
        return true;
      }
      var lineStage := StageOf(line);
      if active && lineStage != stage {
        ok := PutText([LF]);
        if !ok {
          return;
        }
        active := false;
      }
      ok := PutText(ERASE + line);
      if !ok {
        return;
      }
      active := true;
      stage := lineStage;
    }

    method WriteChunk(p: seq<byte>) returns (ok: bool)
      modifies this
      ensures Outcome(State(), ok) == Write(sink, old(State()), p)
    {
      if !terminal {
        ok := PutText(p);
        return;
      }
      pending := pending + p;
      ghost var drained := Drain(Render(sink), pending, OnScreen());
      while true
        invariant Drain(Render(sink), pending, OnScreen()) == drained
        decreases |pending|
      {
        var end := Find(pending, LF);
        if end == |pending| {
          return true;
        }
        var line := TrimCR(pending[..end]);
        pending := pending[end + 1..];
        ok := RenderLine(line);
        if !ok {
          return;
        }
      }
    }

    method Close() returns (ok: bool)
      modifies this
      ensures Outcome(State(), ok) == Finish(sink, old(State()))
    {
      if !terminal {
        return true;
      }
      if pending != [] {
        var line := TrimCR(pending);
        pending := [];
        ok := RenderLine(line);
        if !ok {
          return;
        }
      }
      if active {
        active := false;
        ok := PutText([LF]);
        return;
      }
      ok := true;
    }
  }

  // ---------------------------------------------------------------------
  // Chunks

  function WriteAll(sink: Sink, w: Writer, chunks: seq<seq<byte>>): Writer
    decreases |chunks|
  {
    if chunks == [] then w else WriteAll(sink, Write(sink, w, chunks[0]).w, chunks[1..])
  }

  function Flat(chunks: seq<seq<byte>>): seq<byte> {
    if chunks == [] then [] else chunks[0] + Flat(chunks[1..])
  }

  ghost predicate Takes(sink: Sink) {
    forall n :: sink(n)
  }

  ghost predicate Succeeds(render: (Screen, seq<byte>) -> Shown) {
    forall s, line :: render(s, line).ok
  }

  lemma RenderSucceeds(sink: Sink)
    requires Takes(sink)
    ensures Succeeds(Render(sink))
  {
  }

  lemma {:induction false} FindInLonger(p: seq<byte>, q: seq<byte>)
    requires Find(p, LF) < |p|
    ensures Find(p + q, LF) == Find(p, LF)
  {
    assert (p + q)[0] == p[0];
    if p[0] == LF {
    } else {
      assert (p + q)[1..] == p[1..] + q;
      FindInLonger(p[1..], q);
    }
  }

  /** A complete line is found and cut off the same, whatever follows. */
  lemma LineInLonger(p: seq<byte>, q: seq<byte>)
    requires Find(p, LF) < |p|
    ensures var n := Find(p, LF); Find(p + q, LF) == n && (p + q)[..n] == p[..n] && (p + q)[n + 1..] == p[n + 1..] + q
  {
    var n := Find(p, LF);
    FindInLonger(p, q);
    assert (p + q)[..n] == p[..n];
    assert (p + q)[n + 1..] == p[n + 1..] + q;
  }

  lemma DrainOne(render: (Screen, seq<byte>) -> Shown, p: seq<byte>, s: Screen)
    requires Succeeds(render) && Find(p, LF) < |p|
    ensures var n := Find(p, LF); Drain(render, p, s) == Drain(render, p[n + 1..], render(s, TrimCR(p[..n])).screen)
  {
  }

  lemma DrainNone(render: (Screen, seq<byte>) -> Shown, p: seq<byte>, s: Screen)
    requires Find(p, LF) == |p|
    ensures Drain(render, p, s) == Drained(p, Shown(s, true)) && LF !in p
  {
  }

  /** What was drained is all that was complete, and draining it with more comes to `whole`. */
  predicate DrainsOn(render: (Screen, seq<byte>) -> Shown, d: Drained, q: seq<byte>, whole: Drained) {
    d.shown.ok && LF !in d.pending && Drain(render, d.pending + q, d.shown.screen) == whole
  }

  /** Draining what is pending first, and again with more, gives the same as draining all of it. */
  lemma {:induction false} DrainTwice(render: (Screen, seq<byte>) -> Shown, p: seq<byte>, s: Screen, q: seq<byte>)
    requires Succeeds(render)
    ensures DrainsOn(render, Drain(render, p, s), q, Drain(render, p + q, s))
    decreases |p|
  {
    var n := Find(p, LF);
    if n == |p| {
      DrainNone(render, p, s);
    } else {
      LineInLonger(p, q);
      DrainOne(render, p, s);
      DrainOne(render, p + q, s);
      DrainTwice(render, p[n + 1..], render(s, TrimCR(p[..n])).screen, q);
    }
  }

  lemma WriteNothing(render: (Screen, seq<byte>) -> Shown, w: Writer)
    requires LF !in w.pending
    ensures WriteLines(render, w, []).w == w
  {
    assert w.pending + [] == w.pending;
  }

  lemma WriteTwice(render: (Screen, seq<byte>) -> Shown, w: Writer, p: seq<byte>, q: seq<byte>)
    requires Succeeds(render)
    ensures var next := WriteLines(render, w, p).w;
            LF !in next.pending && WriteLines(render, next, q).w == WriteLines(render, w, p + q).w
  {
    DrainTwice(render, w.pending + p, w.screen, q);
    assert w.pending + p + q == w.pending + (p + q);
  }

  /** On a terminal, writes one after the other leave exactly what one write of it all leaves. */
  lemma {:induction false} TerminalChunks(sink: Sink, w: Writer, chunks: seq<seq<byte>>)
    requires Takes(sink) && w.terminal && LF !in w.pending
    ensures WriteAll(sink, w, chunks) == Write(sink, w, Flat(chunks)).w
    decreases |chunks|
  {
    if chunks == [] {
      WriteNothing(Render(sink), w);
    } else {
      RenderSucceeds(sink);
      WriteTwice(Render(sink), w, chunks[0], Flat(chunks[1..]));
      TerminalChunks(sink, Write(sink, w, chunks[0]).w, chunks[1..]);
    }
  }

  /** Elsewhere the bytes pass through. */
  lemma {:induction false} PlainChunks(sink: Sink, w: Writer, chunks: seq<seq<byte>>)
    requires Takes(sink) && !w.terminal
    ensures !WriteAll(sink, w, chunks).terminal && WriteAll(sink, w, chunks).screen.out == w.screen.out + Flat(chunks)
    decreases |chunks|
  {
    if chunks == [] {
      assert w.screen.out + [] == w.screen.out;
    } else {
      PlainChunks(sink, Write(sink, w, chunks[0]).w, chunks[1..]);
      assert w.screen.out + chunks[0] + Flat(chunks[1..]) == w.screen.out + Flat(chunks);
    }
  }

  /** When no write fails, the output after `Finish` depends on the bytes and not on how they were cut into writes. */
  lemma ChunkingDoesNotMatter(sink: Sink, terminal: bool, chunks: seq<seq<byte>>, chunks': seq<seq<byte>>)
    requires Takes(sink) && Flat(chunks) == Flat(chunks')
    ensures Finish(sink, WriteAll(sink, New(terminal), chunks)).w.screen.out ==
            Finish(sink, WriteAll(sink, New(terminal), chunks')).w.screen.out
    ensures !terminal ==> Finish(sink, WriteAll(sink, New(terminal), chunks)).w.screen.out == Flat(chunks)
  {
    if terminal {
      TerminalChunks(sink, New(terminal), chunks);
      TerminalChunks(sink, New(terminal), chunks');
    } else {
      PlainChunks(sink, New(terminal), chunks);
      PlainChunks(sink, New(terminal), chunks');
    }
  }
}

/** The content ingestor's line splitter: a session's terminal output arrives in arbitrary chunks
    (already stripped of escape sequences) and is cut into numbered lines, which reach the store
    in batches.  internal/server/ingest/content.go */
module LineSplitter {
  newtype Byte = x: int | 0 <= x < 256

  const NEWLINE: Byte := 10
  const RETURN: Byte := 13
  const BATCH_FLUSH_SIZE := 100

  type Bytes = seq<Byte>

  datatype ContentLine = ContentLine(number: nat, content: Bytes)

  // ---------------------------------------------------------------------------------------------
  // The reference: what the lines of a text are, with no mention of chunks or batches
  // ---------------------------------------------------------------------------------------------

  /** The pieces between newlines; a text with n newlines has n + 1 of them. */
  function Fields(s: Bytes): (fs: seq<Bytes>)
    ensures fs != []
  {
    if s == [] then [[]]
    else
      var rest := Fields(s[1..]);
      if s[0] == NEWLINE then [[]] + rest else [[s[0]] + rest[0]] + rest[1..]
  }

  function Glue(fs: seq<Bytes>): (s: Bytes)
    requires fs != []
  {
    if |fs| == 1 then fs[0] else fs[0] + [NEWLINE] + Glue(fs[1..])
  }

  predicate FreeOfNewlines(fs: seq<Bytes>) {
    forall i :: 0 <= i < |fs| ==> NEWLINE !in fs[i]
  }

  function Complete(s: Bytes): seq<Bytes> { var fs := Fields(s); fs[..|fs| - 1] }

  function Rest(s: Bytes): Bytes { var fs := Fields(s); fs[|fs| - 1] }

  function TrimReturns(s: Bytes): (r: Bytes)
    ensures r <= s && (r != [] ==> r[|r| - 1] != RETURN)
    ensures forall i :: |r| <= i < |s| ==> s[i] == RETURN
  {
    if s != [] && s[|s| - 1] == RETURN then TrimReturns(s[..|s| - 1]) else s
  }

  /** Lines numbered 1..n. */
  function Numbered(fs: seq<Bytes>): (ls: seq<ContentLine>)
    ensures |ls| == |fs|
  {
    seq(|fs|, i requires 0 <= i < |fs| => ContentLine(i + 1, TrimReturns(fs[i])))
  }

  lemma NumberedAppend(fs: seq<Bytes>, f: Bytes)
    ensures Numbered(fs + [f]) == Numbered(fs) + [ContentLine(|fs| + 1, TrimReturns(f))]
  {
    var a, b := Numbered(fs + [f]), Numbered(fs) + [ContentLine(|fs| + 1, TrimReturns(f))];
    forall i | 0 <= i < |a|
      ensures a[i] == b[i]
    {
      assert (fs + [f])[i] == if i < |fs| then fs[i] else f;
    }
  }

  /** All lines of a text: an unterminated last line counts unless it is empty. */
  function AllLines(s: Bytes): seq<ContentLine> {
    Numbered(if Rest(s) == [] then Complete(s) else Fields(s))
  }

  // The fields of a text are the only newline-free pieces that glue back to it.

  lemma {:induction false} FieldsGlue(s: Bytes)
    ensures Glue(Fields(s)) == s && FreeOfNewlines(Fields(s))
  {
    if s != [] {
      FieldsGlue(s[1..]);
      var rest, fs := Fields(s[1..]), Fields(s);
      assert s == [s[0]] + s[1..];
      if s[0] == NEWLINE {
        assert fs[1..] == rest;
      } else if |rest| > 1 {
        assert fs[1..] == rest[1..];
      }
      assert forall i :: 1 <= i < |rest| ==> NEWLINE !in rest[i];
    }
  }

  lemma {:induction false} GlueFields(fs: seq<Bytes>)
    requires fs != [] && FreeOfNewlines(fs)
    ensures Fields(Glue(fs)) == fs
  {
    if |fs| == 1 {
      NoNewline(fs[0]);
    } else {
      GlueFields(fs[1..]);
      FirstField(fs[0], Glue(fs[1..]));
      assert fs == [fs[0]] + fs[1..];
    }
  }

  lemma {:induction false} NoNewline(s: Bytes)
    requires NEWLINE !in s
    ensures Fields(s) == [s]
  {
    if s != [] {
      NoNewline(s[1..]);
      assert s == [s[0]] + s[1..];
    }
  }

  lemma {:induction false} FirstField(line: Bytes, rest: Bytes)
    requires NEWLINE !in line
    ensures Fields(line + [NEWLINE] + rest) == [line] + Fields(rest)
  {
    var s := line + [NEWLINE] + rest;
    if line == [] {
      assert s[1..] == rest;
    } else {
      FirstField(line[1..], rest);
      assert s[1..] == line[1..] + [NEWLINE] + rest;
      assert line == [line[0]] + line[1..];
    }
  }

  /** Splitting may resume from the last field: what came before it is final. */
  lemma {:induction false} Resume(s: Bytes, more: Bytes)
    ensures Fields(s + more) == Complete(s) + Fields(Rest(s) + more)
    decreases |s|, 1
  {
    if s == [] {
      assert s + more == more && Rest(s) + more == more;
    } else {
      ResumeLater(s[0], s[1..], more);
      assert s == [s[0]] + s[1..];
    }
  }

  lemma {:induction false} ResumeLater(b: Byte, tail: Bytes, more: Bytes)
    ensures var s := [b] + tail; Fields(s + more) == Complete(s) + Fields(Rest(s) + more)
    decreases |tail| + 1, 0
  {
    hide Fields;
    Resume(tail, more);
    assert [b] + tail + more == [b] + (tail + more);
    Push(b, tail + more);
    Push(b, tail);
    ResumePushed(b, Fields(tail), more);
  }

  /** One more byte in front of a text whose fields are `fs`. */
  function Pushed(b: Byte, fs: seq<Bytes>): (r: seq<Bytes>)
    requires fs != []
    ensures r != []
  {
    if b == NEWLINE then [[]] + fs else [[b] + fs[0]] + fs[1..]
  }

  lemma Push(b: Byte, s: Bytes)
    ensures Fields([b] + s) == Pushed(b, Fields(s))
  {
    assert ([b] + s)[1..] == s;
  }

  lemma ResumePushed(b: Byte, fs: seq<Bytes>, more: Bytes)
    requires fs != []
    ensures
      var gs := Pushed(b, fs);
      Pushed(b, fs[..|fs| - 1] + Fields(fs[|fs| - 1] + more)) == gs[..|gs| - 1] + Fields(gs[|gs| - 1] + more)
  {
    hide Fields;
    var n := |fs| - 1;
    if n > 0 || b == NEWLINE {
      PushedOnto(b, fs[..n], fs[n], Fields(fs[n] + more));
      assert fs == fs[..n] + [fs[n]];
    } else {
      assert [b] + fs[0] + more == [b] + (fs[0] + more);
      Push(b, fs[0] + more);
      assert fs == [fs[0]] && fs[..0] + Fields(fs[0] + more) == Fields(fs[0] + more);
    }
  }

  /** What is put in front of the first piece leaves the last one alone, if there are two. */
  lemma PushedOnto(b: Byte, init: seq<Bytes>, last: Bytes, more: seq<Bytes>)
    requires (init != [] || b == NEWLINE) && more != []
    ensures var gs := Pushed(b, init + [last]); gs[|gs| - 1] == last && Pushed(b, init + more) == gs[..|gs| - 1] + more
  {
    if b != NEWLINE {
      assert (init + more)[1..] == init[1..] + more && (init + [last])[1..] == init[1..] + [last];
    }
  }

  // ---------------------------------------------------------------------------------------------
  // The buffer of one session
  // ---------------------------------------------------------------------------------------------

  method IndexNewline(s: Bytes) returns (idx: int)
    ensures -1 <= idx < |s|
    ensures idx < 0 <==> NEWLINE !in s
    ensures idx >= 0 ==> s[idx] == NEWLINE && NEWLINE !in s[..idx]
  {
    idx := 0;
    while idx < |s|
      invariant 0 <= idx <= |s|
      invariant NEWLINE !in s[..idx]
    {
      if s[idx] == NEWLINE { return; }
      idx := idx + 1;
    }
    assert s[..idx] == s;
    idx := -1;
  }

  class LineBuffer {
    var lineCount: nat
    var partial: Bytes
    var batch: seq<ContentLine>
    /** Every byte ingested and every line given to the store, in order. */
    ghost var received: Bytes
    ghost var handed: seq<ContentLine>

    ghost predicate Valid()
      reads this
    {
      && partial == Rest(received)
      && handed + batch == Numbered(Complete(received))
      && lineCount == |Complete(received)|
    }

    constructor ()
      ensures Valid() && received == [] && handed == []
    {
      lineCount, partial, batch := 0, [], [];
      received, handed := [], [];
    }

    lemma HandedIsPrefix()
      requires Valid()
      ensures handed <= Numbered(Complete(received))
    {
    }

    /** Takes the next chunk.  At most one batch, returned for writing, leaves the buffer. */
    method Ingest(stripped: Bytes) returns (toFlush: seq<ContentLine>)
      requires Valid()
      modifies this
      ensures Valid() && received == old(received) + stripped
      ensures handed == old(handed) + toFlush
      ensures stripped != [] ==> |batch| < 100
      ensures toFlush != [] ==> |toFlush| >= 100 && batch == []
    {
      hide Numbered, TrimReturns, Fields;
      toFlush := [];
      if |stripped| == 0 {
        assert received + stripped == received;
        return;
      }
      var combined := partial + stripped;
      ghost var done := Complete(received);
      ghost var whole := received + stripped;
      Resume(received, stripped);
      partial := [];
      var idx := IndexNewline(combined);
      while idx >= 0
        invariant -1 <= idx < |combined|
        invariant idx < 0 <==> NEWLINE !in combined
        invariant idx >= 0 ==> combined[idx] == NEWLINE && NEWLINE !in combined[..idx]
        invariant Fields(whole) == done + Fields(combined)
        invariant handed + batch == Numbered(done)
        invariant lineCount == |done|
        invariant partial == [] && handed == old(handed) && received == old(received)
        decreases |combined|
      {
        var line, tail := combined[..idx], combined[idx + 1..];
        assert combined == line + [NEWLINE] + tail;
        FirstField(line, tail);
        NumberedAppend(done, line);
        done := done + [line];
        combined := tail;
        lineCount := lineCount + 1;
        batch := batch + [ContentLine(lineCount, TrimReturns(line))];
        idx := IndexNewline(combined);
      }
      NoNewline(combined);
      partial := combined;
      received := whole;
      assert Complete(whole) == done;
      if |batch| >= BATCH_FLUSH_SIZE {
        toFlush := batch;
        batch := [];
        handed := handed + toFlush;
      }
    }

    /** The periodic flush; closing the ingestor does the same to every buffer. */
    method Tick() returns (toFlush: seq<ContentLine>)
      requires Valid()
      modifies this
      ensures Valid() && received == old(received) && partial == old(partial)
      ensures handed == old(handed) + toFlush == Numbered(Complete(received))
    {
      toFlush := batch;
      batch := [];
      handed := handed + toFlush;
    }

    /** The end of the session: the buffer is dropped afterwards, so only what reached the store
        matters. */
    method FlushSession() returns (toFlush: seq<ContentLine>, total: nat)
      requires Valid()
      modifies this
      ensures received == old(received)
      ensures handed == old(handed) + toFlush == AllLines(received)
      ensures total == |handed|
    {
      hide Fields, TrimReturns;
      if |partial| > 0 {
        lineCount := lineCount + 1;
        batch := batch + [ContentLine(lineCount, TrimReturns(partial))];
        partial := [];
        NumberedAppend(Complete(received), Rest(received));
        assert Fields(received) == Complete(received) + [Rest(received)];
      }
      toFlush := batch;
      batch := [];
      total := lineCount;
      handed := handed + toFlush;
    }
  }

  // ---------------------------------------------------------------------------------------------
  // Whole sessions
  // ---------------------------------------------------------------------------------------------

  /** What can happen to a session's buffer.  FlushSession drops the buffer, so output that comes
      later starts a new one. */
  datatype Op = Chunk(data: Bytes) | FlushTick | EndSession

  /** The text since the session last ended. */
  function Pending(ops: seq<Op>): Bytes {
    if ops == [] then []
    else match ops[|ops| - 1]
      case Chunk(data) => Pending(ops[..|ops| - 1]) + data
      case FlushTick => Pending(ops[..|ops| - 1])
      case EndSession => []
  }

  /** What the store must hold for the texts that have ended. */
  function Ended(ops: seq<Op>): seq<ContentLine> {
    if ops == [] then []
    else
      var before := ops[..|ops| - 1];
      Ended(before) + if ops[|ops| - 1].EndSession? then AllLines(Pending(before)) else []
  }

  /** Every chunking and every schedule of ticks: each ended text is stored as exactly its lines,
      and of the text in progress a prefix of its complete lines. */
  method RunSession(ops: seq<Op>) returns (stored: seq<ContentLine>)
    ensures Ended(ops) <= stored <= Ended(ops) + Numbered(Complete(Pending(ops)))
    ensures ops != [] && ops[|ops| - 1].EndSession? ==> stored == Ended(ops)
    ensures ops != [] && ops[|ops| - 1].FlushTick? ==> stored == Ended(ops) + Numbered(Complete(Pending(ops)))
  {
    hide *;
    stored := [];
    NothingYet();
    var buf := new LineBuffer();
    for i := 0 to |ops|
      invariant fresh(buf) && buf.Valid() && buf.received == Pending(ops[..i])
      invariant stored == Ended(ops[..i]) + buf.handed
      invariant i > 0 && ops[i - 1].EndSession? ==> buf.handed == []
      invariant i > 0 && ops[i - 1].FlushTick? ==> buf.handed == Numbered(Complete(buf.received))
    {
      OneMore(ops, i);
      var batch;
      buf, batch := Perform(buf, ops[i]);
      stored := stored + batch;
    }
    buf.HandedIsPrefix();
    assert ops[..|ops|] == ops;
  }

  /** One thing that happens to a session's buffer; the end of the session leaves a new one. */
  method Perform(buf: LineBuffer, op: Op) returns (next: LineBuffer, batch: seq<ContentLine>)
    requires buf.Valid()
    modifies buf
    ensures next.Valid() && (next == buf || fresh(next))
    ensures op.Chunk? ==> next.received == old(buf.received) + op.data && next.handed == old(buf.handed) + batch
    ensures op.FlushTick? ==> next.received == old(buf.received) && next.handed == old(buf.handed) + batch == Numbered(Complete(next.received))
    ensures op.EndSession? ==> next.received == [] && next.handed == [] && old(buf.handed) + batch == AllLines(old(buf.received))
  {
    hide *;
    next := buf;
    match op
    case Chunk(data) => batch := buf.Ingest(data);
    case FlushTick => batch := buf.Tick();
    case EndSession =>
      var total;
      batch, total := buf.FlushSession();
      next := new LineBuffer();
  }

  lemma NothingYet()
    ensures Pending([]) == [] && Ended([]) == []
  {
  }

  lemma OneMore(ops: seq<Op>, i: nat)
    requires i < |ops|
    ensures
      match ops[i]
      case Chunk(data) => Pending(ops[..i + 1]) == Pending(ops[..i]) + data && Ended(ops[..i + 1]) == Ended(ops[..i])
      case FlushTick => Pending(ops[..i + 1]) == Pending(ops[..i]) && Ended(ops[..i + 1]) == Ended(ops[..i])
      case EndSession => Pending(ops[..i + 1]) == [] && Ended(ops[..i + 1]) == Ended(ops[..i]) + AllLines(Pending(ops[..i]))
  {
    hide AllLines;
    assert ops[..i + 1][..i] == ops[..i];
  }

  /** A tick, or closing the ingestor, stores the whole text exactly if the text is empty or ends in
      a newline; otherwise its last line is missing. */
  lemma TickStoresAllIff(s: Bytes)
    ensures Numbered(Complete(s)) == AllLines(s) <==> (s == [] || s[|s| - 1] == NEWLINE)
  {
    RestEmptyIff(s);
    if Rest(s) != [] {
      assert |AllLines(s)| == |Complete(s)| + 1;
    }
  }

  lemma {:induction false} RestEmptyIff(s: Bytes)
    ensures Rest(s) == [] <==> (s == [] || s[|s| - 1] == NEWLINE)
  {
    if s != [] {
      RestEmptyIff(s[1..]);
      assert s == [s[0]] + s[1..];
      Push(s[0], s[1..]);
      hide Fields;
      if |s| == 1 { NoNewline(s[1..]); }
    }
  }

  // ---------------------------------------------------------------------------------------------
  // What the lines are, byte by byte
  // ---------------------------------------------------------------------------------------------

  /** A text has as many lines as line feeds, and one more if something follows the last one. */
  lemma LinesCount(s: Bytes)
    ensures |Fields(s)| == multiset(s)[10] + 1
    ensures |AllLines(s)| == multiset(s)[10] + if s != [] && s[|s| - 1] != 10 then 1 else 0
  {
    FieldsCount(s);
    RestEmptyIff(s);
  }

  lemma {:induction false} FieldsCount(s: Bytes)
    ensures |Fields(s)| == multiset(s)[10] + 1
  {
    if s != [] {
      FieldsCount(s[1..]);
      assert s == [s[0]] + s[1..];
    }
  }

  /** Lines are numbered from 1, and line k is what the k-th piece leaves when the carriage returns at
      its end are cut off. */
  lemma LineIs(s: Bytes, k: nat)
    requires k < |AllLines(s)|
    ensures k < |Fields(s)| && AllLines(s)[k].number == k + 1
    ensures
      var piece, content := Fields(s)[k], AllLines(s)[k].content;
      && content <= piece
      && (content != [] ==> content[|content| - 1] != 13)
      && forall i :: |content| <= i < |piece| ==> piece[i] == 13
  {
    hide Fields;
  }
}

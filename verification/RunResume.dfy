/** Resuming against the server's event log: whatever is cut off, the reader's
    id-bearing events are a prefix of the log. */
module RunResume {
  import opened Seqs
  import opened JsText
  import opened EventStream
  import opened RunEvents

  /** A stored run event; the stream sends its payload on one line. */
  datatype Row = Row(id: nat, payload: string)

  datatype Frame = Event(row: Row) | Notice(payload: string) | Ping

  predicate OneLine(payload: string) {
    Trimmed(payload) && '\n' !in payload
  }

  ghost predicate ServerLog(log: seq<Row>) {
    && (forall i :: 0 <= i < |log| ==> log[i].id >= 1 && OneLine(log[i].payload))
    && (forall i, j :: 0 <= i < j < |log| ==> log[i].id < log[j].id)
  }

  /** The rows a connection opened with `?after=` may send, in order. */
  function Replay(log: seq<Row>, after: real): seq<Row> {
    var from := if after > 0.0 then after.Floor else 0;
    Filter(log, (row: Row) => row.id > from)
  }

  function FrameBlock(f: Frame): string {
    match f
    case Event(row) => "id: " + Decimal(row.id) + "\n" + ("data: " + row.payload)
    case Notice(payload) => "data: " + payload
    case Ping => ": ping"
  }

  function FrameBlocks(frames: seq<Frame>): seq<string> {
    Map(FrameBlock, frames)
  }

  function Rows(frames: seq<Frame>): seq<Row> {
    if frames == [] then []
    else if frames[0].Event? then [frames[0].row] + Rows(frames[1..])
    else Rows(frames[1..])
  }

  ghost predicate WellFormed(frames: seq<Frame>) {
    forall f :: f in frames ==> (f.Event? ==> OneLine(f.row.payload)) && (f.Notice? ==> OneLine(f.payload))
  }

  /** `Number` reads back the decimal digits the server prints. */
  ghost predicate ReadsDecimals(wire: Wire) {
    forall n: nat :: wire.toNumber(Decimal(n)) == Some(n as real)
  }

  function Entries(rows: seq<Row>): seq<Entry> {
    Map((row: Row) => Entry(row.id as real, row.payload), rows)
  }

  function Payloads(entries: seq<Entry>): seq<string> {
    Map((entry: Entry) => entry.payload, entries)
  }

  /** The reader has consumed exactly the first rows of the log, each once and in
      order, and remembers the id of the last one. */
  ghost predicate Synced(v: View, log: seq<Row>) {
    var n := |v.consumed|;
    && n <= |log|
    && v.consumed == Entries(log[..n])
    && v.lastEventId == (if n == 0 then 0.0 else log[n - 1].id as real)
  }

  // ---------------------------------------------------------------- frames as blocks

  lemma {:induction false} NoNewlineNoBlank(s: string)
    requires '\n' !in s
    ensures !HasBlank(s)
  {
    if |s| >= 2 {
      NoNewlineNoBlank(s[1..]);
    }
  }

  lemma {:induction false} TwoLinesAreABlock(a: string, b: string)
    requires '\n' !in a && '\n' !in b && a != [] && b != []
    ensures IsBlock(a + "\n" + b)
  {
    var s := a + "\n" + b;
    assert s[|s| - 1] == b[|b| - 1];
    if |a| == 1 {
      assert s[1..] == "\n" + b;
      assert s[1..][1..] == b;
      NoNewlineNoBlank(b);
      assert b[0] in b && a[0] in a;
    } else {
      TwoLinesAreABlock(a[1..], b);
      assert s[1..] == a[1..] + "\n" + b;
      assert a[0] in a;
    }
  }

  lemma PrefixedLine(prefix: string, text: string)
    requires prefix == "data: " || prefix == "id: "
    requires Trimmed(text)
    ensures Trim((prefix + text)[|prefix| - 1..]) == text
  {
    assert (prefix + text)[|prefix| - 1..] == " " + text;
    TrimPadded(text);
  }

  /** An id line and a data line make one block, in which each is found. */
  lemma IdAndDataLines(idLine: string, dataLine: string)
    requires '\n' !in idLine && '\n' !in dataLine
    requires StartsWith(idLine, "id:") && StartsWith(dataLine, "data:")
    ensures IsBlock(idLine + "\n" + dataLine)
    ensures var lines := SplitOn(idLine + "\n" + dataLine, '\n');
            LineWith(lines, "id:") == Some(idLine) && LineWith(lines, "data:") == Some(dataLine)
  {
    TwoLinesAreABlock(idLine, dataLine);
    SplitOnCut(idLine, dataLine, '\n');
    SplitOnNone(dataLine, '\n');
    var lines := [idLine, dataLine];
    assert idLine[0] == "id:"[0];
    assert !StartsWith(idLine, "data:");
    assert lines[1..] == [dataLine];
  }

  lemma DigitsAreTrimmed(n: nat)
    ensures Trimmed(Decimal(n)) && '\n' !in Decimal(n)
  {
    DecimalDigits(n);
    var digits := Decimal(n);
    assert digits[0] in digits && digits[|digits| - 1] in digits;
  }

  lemma EventBlock(wire: Wire, row: Row)
    requires OneLine(row.payload) && ReadsDecimals(wire)
    ensures var block := FrameBlock(Event(row));
            IsBlock(block) && Payload(block) == Some(row.payload) && EventId(wire, block) == Some(row.id as real)
  {
    var digits := Decimal(row.id);
    var idLine, dataLine := "id: " + digits, "data: " + row.payload;
    DigitsAreTrimmed(row.id);
    assert idLine[..3] == "id:" && dataLine[..5] == "data:";
    IdAndDataLines(idLine, dataLine);
    PrefixedLine("id: ", digits);
    PrefixedLine("data: ", row.payload);
  }

  lemma NoticeBlock(wire: Wire, payload: string)
    requires OneLine(payload)
    ensures var block := FrameBlock(Notice(payload));
            IsBlock(block) && Payload(block) == Some(payload) && EventId(wire, block) == None
  {
    var line := "data: " + payload;
    NoNewlineNoBlank(line);
    SplitOnNone(line, '\n');
    assert line[..5] == "data:" && line[0] == 'd';
    assert !StartsWith(line, "id:");
    assert LineWith([line], "id:") == None;
    PrefixedLine("data: ", payload);
  }

  lemma PingBlock()
    ensures IsBlock(FrameBlock(Ping)) && Payload(FrameBlock(Ping)) == None
  {
    var line := ": ping";
    NoNewlineNoBlank(line);
    SplitOnNone(line, '\n');
    assert line[0] == ':';
  }

  // ---------------------------------------------------------------- one session

  lemma {:induction false} ReplayIsSuffix(log: seq<Row>, n: nat, after: int)
    requires ServerLog(log) && n <= |log|
    requires after == if n == 0 then 0 else log[n - 1].id
    ensures Filter(log, (row: Row) => row.id > after) == log[n..]
  {
    var later := (row: Row) => row.id > after;
    FilterAppend(log[..n], log[n..], later);
    assert log == log[..n] + log[n..];
    FilterNone(log[..n], later);
    FilterAll(log[n..], later);
  }

  /** A block with the next row's id and payload keeps the reader in step. */
  lemma IdentifiedStep(wire: Wire, v: View, block: string, payload: string, id: real)
    requires Payload(block) == Some(payload) && EventId(wire, block) == Some(id)
    ensures Step(wire, v, block).lastEventId == if id > v.lastEventId then id else v.lastEventId
    ensures Step(wire, v, block).consumed == v.consumed + [Entry(id, payload)]
  {
  }

  lemma EntriesNext(rows: seq<Row>, row: Row)
    ensures Entries(rows + [row]) == Entries(rows) + [Entry(row.id as real, row.payload)]
    ensures Entries([row]) == [Entry(row.id as real, row.payload)]
  {
  }

  lemma NextRowKeepsSync(wire: Wire, v: View, log: seq<Row>, block: string)
    requires ServerLog(log) && Synced(v, log) && |v.consumed| < |log|
    requires Payload(block) == Some(log[|v.consumed|].payload)
    requires EventId(wire, block) == Some(log[|v.consumed|].id as real)
    ensures var next := Step(wire, v, block);
            Synced(next, log) && v.lastEventId <= next.lastEventId
            && next.consumed == v.consumed + Entries([log[|v.consumed|]])
  {
    var n := |v.consumed|;
    var row := log[n];
    IdentifiedStep(wire, v, block, row.payload, row.id as real);
    assert log[..n + 1] == log[..n] + [row];
    EntriesNext(log[..n], row);
    assert n > 0 ==> log[n - 1].id < row.id;
  }

  lemma StepKeepsSync(wire: Wire, v: View, log: seq<Row>, f: Frame)
    requires ServerLog(log) && Synced(v, log) && ReadsDecimals(wire)
    requires WellFormed([f])
    requires f.Event? ==> |v.consumed| < |log| && f.row == log[|v.consumed|]
    ensures var next := Step(wire, v, FrameBlock(f));
            Synced(next, log) && v.lastEventId <= next.lastEventId
            && next.consumed == v.consumed + (if f.Event? then Entries([f.row]) else [])
  {
    assert f in [f];
    match f
    case Ping =>
      PingBlock();
    case Notice(payload) =>
      NoticeBlock(wire, payload);
    case Event(row) =>
      EventBlock(wire, row);
      NextRowKeepsSync(wire, v, log, FrameBlock(f));
  }

  lemma {:induction false} FramesKeepSync(wire: Wire, v: View, log: seq<Row>, frames: seq<Frame>)
    requires ServerLog(log) && Synced(v, log) && ReadsDecimals(wire)
    requires WellFormed(frames)
    requires Rows(frames) <= log[|v.consumed|..]
    ensures var next := Steps(wire, v, UpToDone(wire, FrameBlocks(frames)));
            Synced(next, log) && v.lastEventId <= next.lastEventId && v.consumed <= next.consumed
    decreases |frames|
  {
    if frames != [] {
      var f, rest := frames[0], frames[1..];
      var next := Step(wire, v, FrameBlock(f));
      if f.Event? {
        assert log[|v.consumed|..][0] == Rows(frames)[0] == f.row;
      }
      StepKeepsSync(wire, v, log, f);
      assert FrameBlocks(frames) == [FrameBlock(f)] + FrameBlocks(rest);
      if Stops(wire, FrameBlock(f)) {
        assert UpToDone(wire, FrameBlocks(frames)) == [FrameBlock(f)];
      } else {
        assert Rows(rest) <= log[|next.consumed|..] by {
          if f.Event? {
            assert Rows(rest) == Rows(frames)[1..];
            assert log[|v.consumed|..][1..] == log[|next.consumed|..];
          }
        }
        FramesKeepSync(wire, next, log, rest);
        assert UpToDone(wire, FrameBlocks(frames))[1..] == UpToDone(wire, FrameBlocks(rest));
      }
    }
  }

  /** However the connection is cut, what arrives whole is a prefix of the frames. */
  lemma CutIsPrefix(frames: seq<Frame>, text: string) returns (n: nat)
    requires WellFormed(frames)
    requires text <= Render(FrameBlocks(frames), "")
    ensures n <= |frames| && Blocks(text) == FrameBlocks(frames[..n])
  {
    var whole := Render(FrameBlocks(frames), "");
    var blocks := FrameBlocks(frames);
    forall b | b in blocks
      ensures IsBlock(b)
    {
      var i :| 0 <= i < |blocks| && blocks[i] == b;
      assert frames[i] in frames;
      var wire := Wire((s: string) => None, (s: string) => false);
      match frames[i]
      case Event(row) =>
        EventBlockShape(row);
      case Notice(payload) =>
        NoticeBlock(wire, payload);
      case Ping =>
        PingBlock();
    }
    SplitUnique(blocks, "");
    SplitResume(text, whole[|text|..]);
    assert text + whole[|text|..] == whole;
    n := |Blocks(text)|;
    assert Blocks(text) == blocks[..n];
  }

  lemma EventBlockShape(row: Row)
    requires OneLine(row.payload)
    ensures IsBlock(FrameBlock(Event(row)))
  {
    DecimalDigits(row.id);
    assert forall c :: c in Decimal(row.id) ==> c != '\n';
    TwoLinesAreABlock("id: " + Decimal(row.id), "data: " + row.payload);
  }

  lemma {:induction false} RowsPrefix(frames: seq<Frame>, n: nat)
    requires n <= |frames|
    ensures Rows(frames[..n]) <= Rows(frames)
  {
    if n > 0 {
      RowsPrefix(frames[1..], n - 1);
      assert frames[..n][1..] == frames[1..][..n - 1];
    }
  }

  /** One connection: the server's log at that time, the frames it sends and the
      chunks that reached the reader before the connection ended or dropped. */
  datatype Session = Session(log: seq<Row>, frames: seq<Frame>, chunks: seq<string>)

  /** The server answers `?after=` with the log rows after it, in order, mixed
      with pings and id-less notices; any prefix of the text may arrive. */
  ghost predicate Answers(s: Session, after: real) {
    && ServerLog(s.log)
    && WellFormed(s.frames)
    && Rows(s.frames) <= Replay(s.log, after)
    && Flatten(s.chunks) <= Render(FrameBlocks(s.frames), "")
  }

  function SessionBlocks(s: Session): seq<string> {
    Blocks(Flatten(s.chunks))
  }

  /** The reader's state after a session's blocks, up to the first "done". */
  function AfterSession(wire: Wire, v: View, s: Session): View {
    Steps(wire, v, UpToDone(wire, SessionBlocks(s)))
  }

  lemma SessionKeepsSync(wire: Wire, v: View, s: Session)
    requires Synced(v, s.log) && ReadsDecimals(wire) && Answers(s, v.lastEventId)
    ensures var next := AfterSession(wire, v, s);
            Synced(next, s.log) && v.lastEventId <= next.lastEventId && v.consumed <= next.consumed
  {
    var n := CutIsPrefix(s.frames, Flatten(s.chunks));
    var kept := |v.consumed|;
    ReplayIsSuffix(s.log, kept, if kept == 0 then 0 else s.log[kept - 1].id);
    RowsPrefix(s.frames, n);
    FramesKeepSync(wire, v, s.log, s.frames[..n]);
  }

  // ---------------------------------------------------------------- whole runs

  /** The log only grows between sessions, and each session answers the id the
      reader asks for. */
  ghost predicate Legal(wire: Wire, v: View, log: seq<Row>, sessions: seq<Session>)
    decreases |sessions|
  {
    sessions == [] || v.stopped ||
    (var s := sessions[0];
     log <= s.log && Answers(s, v.lastEventId) && Legal(wire, AfterSession(wire, v, s), s.log, sessions[1..]))
  }

  function AfterSessions(wire: Wire, v: View, sessions: seq<Session>): View
    decreases |sessions|
  {
    if sessions == [] || v.stopped then v
    else AfterSessions(wire, AfterSession(wire, v, sessions[0]), sessions[1..])
  }

  function LastLog(wire: Wire, v: View, log: seq<Row>, sessions: seq<Session>): seq<Row>
    decreases |sessions|
  {
    if sessions == [] || v.stopped then log
    else LastLog(wire, AfterSession(wire, v, sessions[0]), sessions[0].log, sessions[1..])
  }

  lemma SyncedGrows(v: View, log: seq<Row>, more: seq<Row>)
    requires Synced(v, log) && log <= more
    ensures Synced(v, more)
  {
    assert more[..|v.consumed|] == log[..|v.consumed|];
  }

  /** Whatever is cut or dropped, the id-bearing events consumed up to the first
      "done" are a prefix of the server's log: none lost, none repeated, in order. */
  lemma {:induction false} ResumeNeverLosesEvents(wire: Wire, v: View, log: seq<Row>, sessions: seq<Session>)
    requires Synced(v, log) && ReadsDecimals(wire) && Legal(wire, v, log, sessions)
    ensures var final := AfterSessions(wire, v, sessions);
            Synced(final, LastLog(wire, v, log, sessions))
            && v.consumed <= final.consumed && v.lastEventId <= final.lastEventId
    decreases |sessions|
  {
    if sessions != [] && !v.stopped {
      var s := sessions[0];
      SyncedGrows(v, log, s.log);
      SessionKeepsSync(wire, v, s);
      ResumeNeverLosesEvents(wire, AfterSession(wire, v, s), s.log, sessions[1..]);
    }
  }

  function Bodies(sessions: seq<Session>): seq<Response> {
    Map((s: Session) => Body(s.chunks), sessions)
  }

  lemma {:induction false} StepsMonotonic(wire: Wire, v: View, blocks: seq<string>)
    ensures var next := Steps(wire, v, blocks);
            v.consumed <= next.consumed && v.lastEventId <= next.lastEventId && (v.stopped ==> next.stopped)
    ensures Steps(wire, v, blocks).stopped <==> v.stopped || !NoDone(wire, blocks)
    decreases |blocks|
  {
    if blocks != [] {
      StepsMonotonic(wire, Step(wire, v, blocks[0]), blocks[1..]);
      assert blocks[0] in blocks;
      assert NoDone(wire, blocks) <==> !Stops(wire, blocks[0]) && NoDone(wire, blocks[1..]) by {
        assert forall b :: b in blocks <==> b == blocks[0] || b in blocks[1..];
      }
    }
  }

  /** Blocks after the first "done" only add to what the blocks up to it gave. */
  lemma BeyondDone(wire: Wire, v: View, blocks: seq<string>)
    ensures var read, upTo := Steps(wire, v, blocks), Steps(wire, v, UpToDone(wire, blocks));
            (!upTo.stopped ==> read == upTo)
            && read.stopped == upTo.stopped && upTo.consumed <= read.consumed
  {
    var upTo := UpToDone(wire, blocks);
    UpToDoneWhole(wire, blocks);
    StepsAppend(wire, v, upTo, blocks[|upTo|..]);
    assert blocks == upTo + blocks[|upTo|..];
    StepsMonotonic(wire, v, upTo);
    StepsMonotonic(wire, Steps(wire, v, upTo), blocks[|upTo|..]);
    if NoDone(wire, blocks) {
      UpToDoneAll(wire, blocks);
    } else {
      StepsMonotonic(wire, v, blocks);
    }
  }

  /** The reader agrees with the up-to-"done" account of a session, and once it
      has seen "done" it only adds to it. */
  lemma ReaderSession(wire: Wire, v: View, s: Session)
    ensures var read, upTo := Steps(wire, v, Processed(wire, "", s.chunks)), AfterSession(wire, v, s);
            (!upTo.stopped ==> read == upTo)
            && read.stopped == upTo.stopped && upTo.consumed <= read.consumed
  {
    var processed := Processed(wire, "", s.chunks);
    assert "" + Flatten(s.chunks) == Flatten(s.chunks);
    ChunksUpToDone(wire, "", s.chunks);
    BeyondDone(wire, v, processed);
  }

  /** The reader's real state follows `AfterSessions`; it differs only by blocks
      taken after the first "done". */
  lemma {:induction false} ReaderFollowsSessions(wire: Wire, v: View, sessions: seq<Session>)
    ensures var read, upTo := Reader(wire, v, Bodies(sessions)), AfterSessions(wire, v, sessions);
            (!upTo.stopped ==> read == upTo)
            && read.stopped == upTo.stopped && upTo.consumed <= read.consumed
    decreases |sessions|
  {
    if sessions != [] && !v.stopped {
      var s := sessions[0];
      ReaderSession(wire, v, s);
      assert Bodies(sessions)[0] == Body(s.chunks);
      assert Bodies(sessions)[1..] == Bodies(sessions[1..]);
      var next := Steps(wire, v, Processed(wire, "", s.chunks));
      if !next.stopped {
        ReaderFollowsSessions(wire, next, sessions[1..]);
      }
    }
  }

  // ---------------------------------------------------------------- the event list

  function FramePayload(f: Frame): Option<string> {
    match f
    case Event(row) => Some(row.payload)
    case Notice(payload) => Some(payload)
    case Ping => None
  }

  predicate EndsRun(wire: Wire, f: Frame) {
    FramePayload(f).Some? && wire.isDone(FramePayload(f).value)
  }

  /** The frames up to and including the first "done". */
  function TakenFrames(wire: Wire, frames: seq<Frame>): seq<Frame> {
    if frames == [] then []
    else if EndsRun(wire, frames[0]) then [frames[0]]
    else [frames[0]] + TakenFrames(wire, frames[1..])
  }

  /** The payloads the view lists: all but "done", with or without an id. */
  function Shown(wire: Wire, frames: seq<Frame>): seq<string> {
    if frames == [] then []
    else
      var payload := FramePayload(frames[0]);
      (if payload.Some? && !wire.isDone(payload.value) then [payload.value] else []) + Shown(wire, frames[1..])
  }

  /** `next` is `v` with the events of `frames` added. */
  ghost predicate Extended(wire: Wire, v: View, next: View, frames: seq<Frame>) {
    && next.events == LastN(v.events + Shown(wire, frames), EVENT_WINDOW)
    && next.consumed == v.consumed + Entries(Rows(frames))
  }

  function FrameId(f: Frame): Option<real> {
    if f.Event? then Some(f.row.id as real) else None
  }

  /** The payload and the id the reader finds in a frame's block. */
  lemma FrameParts(wire: Wire, f: Frame)
    requires ReadsDecimals(wire) && WellFormed([f])
    ensures Payload(FrameBlock(f)) == FramePayload(f)
    ensures FramePayload(f).Some? ==> EventId(wire, FrameBlock(f)) == FrameId(f)
  {
    assert f in [f];
    match f
    case Ping => PingBlock();
    case Notice(payload) => NoticeBlock(wire, payload);
    case Event(row) => EventBlock(wire, row);
  }

  lemma OneFrameShown(wire: Wire, f: Frame)
    ensures Shown(wire, [f])
         == if FramePayload(f).Some? && !wire.isDone(FramePayload(f).value) then [FramePayload(f).value] else []
    ensures Entries(Rows([f])) == if f.Event? then [Entry(f.row.id as real, f.row.payload)] else []
  {
    assert [f][1..] == [];
    assert Shown(wire, []) == [] && Rows([]) == [];
  }

  lemma OneFrameExtends(wire: Wire, v: View, f: Frame)
    requires |v.events| <= EVENT_WINDOW && ReadsDecimals(wire) && WellFormed([f])
    ensures Extended(wire, v, Step(wire, v, FrameBlock(f)), [f])
    ensures Stops(wire, FrameBlock(f)) <==> EndsRun(wire, f)
  {
    FrameParts(wire, f);
    OneFrameShown(wire, f);
    if FramePayload(f).Some? {
      PayloadStep(wire, v, FrameBlock(f), FramePayload(f).value, FrameId(f));
    } else {
      assert Step(wire, v, FrameBlock(f)) == v;
    }
  }

  /** What a block with a payload adds to the view. */
  lemma PayloadStep(wire: Wire, v: View, block: string, payload: string, id: Option<real>)
    requires |v.events| <= EVENT_WINDOW && Payload(block) == Some(payload) && EventId(wire, block) == id
    ensures var next := Step(wire, v, block);
            && next.events == LastN(v.events + (if wire.isDone(payload) then [] else [payload]), EVENT_WINDOW)
            && next.consumed == v.consumed + (if id.Some? then [Entry(id.value, payload)] else [])
  {
  }

  lemma WindowTwice(start: seq<string>, a: seq<string>, b: seq<string>)
    ensures LastN(LastN(start + a, EVENT_WINDOW) + b, EVENT_WINDOW) == LastN(start + (a + b), EVENT_WINDOW)
  {
    LastNAppend(start + a, b, EVENT_WINDOW);
    assert start + a + b == start + (a + b);
  }

  lemma EntriesAppend(start: seq<Entry>, a: seq<Row>, b: seq<Row>)
    ensures start + Entries(a) + Entries(b) == start + Entries(a + b)
  {
  }

  lemma {:induction false} ShownAppend(wire: Wire, a: seq<Frame>, b: seq<Frame>)
    ensures Shown(wire, a + b) == Shown(wire, a) + Shown(wire, b) && Rows(a + b) == Rows(a) + Rows(b)
    decreases |a|
  {
    if a == [] {
      assert a + b == b;
    } else {
      ShownAppend(wire, a[1..], b);
      assert (a + b)[0] == a[0] && (a + b)[1..] == a[1..] + b;
      var shown, rows := Shown(wire, [a[0]]), Rows([a[0]]);
      assert [a[0]][1..] == [];
      assert shown + (Shown(wire, a[1..]) + Shown(wire, b)) == shown + Shown(wire, a[1..]) + Shown(wire, b);
      assert rows + (Rows(a[1..]) + Rows(b)) == rows + Rows(a[1..]) + Rows(b);
    }
  }

  lemma ExtendedTwice(wire: Wire, v: View, next: View, last: View, a: seq<Frame>, b: seq<Frame>)
    requires Extended(wire, v, next, a) && Extended(wire, next, last, b)
    ensures Extended(wire, v, last, a + b)
  {
    ShownAppend(wire, a, b);
    WindowTwice(v.events, Shown(wire, a), Shown(wire, b));
    EntriesAppend(v.consumed, Rows(a), Rows(b));
  }

  lemma {:induction false} FramesExtend(wire: Wire, v: View, frames: seq<Frame>)
    requires |v.events| <= EVENT_WINDOW && ReadsDecimals(wire) && WellFormed(frames)
    ensures Extended(wire, v, Steps(wire, v, UpToDone(wire, FrameBlocks(frames))), TakenFrames(wire, frames))
    decreases |frames|
  {
    if frames == [] {
      assert v.events + [] == v.events && v.consumed + [] == v.consumed;
    } else {
      var f, rest := frames[0], frames[1..];
      var next := Step(wire, v, FrameBlock(f));
      assert f in frames && forall g :: g in rest ==> g in frames;
      OneFrameExtends(wire, v, f);
      assert FrameBlocks(frames) == [FrameBlock(f)] + FrameBlocks(rest);
      if EndsRun(wire, f) {
        assert UpToDone(wire, FrameBlocks(frames)) == [FrameBlock(f)];
        assert Steps(wire, next, []) == next;
      } else {
        assert UpToDone(wire, FrameBlocks(frames))[1..] == UpToDone(wire, FrameBlocks(rest));
        FramesExtend(wire, next, rest);
        ExtendedTwice(wire, v, next, Steps(wire, next, UpToDone(wire, FrameBlocks(rest))), [f],
          TakenFrames(wire, rest));
      }
    }
  }

  /** The frames a session delivered whole, up to the first "done". */
  function Arrived(wire: Wire, s: Session): seq<Frame> {
    TakenFrames(wire, FirstN(s.frames, |SessionBlocks(s)|))
  }

  /** The frames taken over all sessions. */
  function AllArrived(wire: Wire, v: View, sessions: seq<Session>): seq<Frame>
    decreases |sessions|
  {
    if sessions == [] || v.stopped then []
    else Arrived(wire, sessions[0]) + AllArrived(wire, AfterSession(wire, v, sessions[0]), sessions[1..])
  }

  lemma SessionExtends(wire: Wire, v: View, s: Session)
    requires |v.events| <= EVENT_WINDOW && ReadsDecimals(wire) && Answers(s, v.lastEventId)
    ensures Extended(wire, v, AfterSession(wire, v, s), Arrived(wire, s))
  {
    var n := CutIsPrefix(s.frames, Flatten(s.chunks));
    assert |FrameBlocks(s.frames[..n])| == n;
    assert FirstN(s.frames, n) == s.frames[..n];
    assert forall f :: f in s.frames[..n] ==> f in s.frames;
    FramesExtend(wire, v, s.frames[..n]);
  }

  /** Over any sequence of connections the event list is the last 200 payloads of the
      frames taken, "done" apart, and the id-bearing ones among them are what was
      consumed. */
  lemma {:induction false} SessionsKeepWindow(wire: Wire, v: View, log: seq<Row>, sessions: seq<Session>)
    requires |v.events| <= EVENT_WINDOW && ReadsDecimals(wire) && Legal(wire, v, log, sessions)
    ensures Extended(wire, v, AfterSessions(wire, v, sessions), AllArrived(wire, v, sessions))
    decreases |sessions|
  {
    if sessions == [] || v.stopped {
      assert v.events + [] == v.events && v.consumed + [] == v.consumed;
    } else {
      var s := sessions[0];
      var next := AfterSession(wire, v, s);
      SessionExtends(wire, v, s);
      SessionsKeepWindow(wire, next, s.log, sessions[1..]);
      ExtendedTwice(wire, v, next, AfterSessions(wire, next, sessions[1..]), Arrived(wire, s),
        AllArrived(wire, next, sessions[1..]));
    }
  }

  const FRESH_VIEW := View(0.0, [], false, [])

  lemma EntriesInjective(a: seq<Row>, b: seq<Row>)
    requires Entries(a) == Entries(b)
    ensures a == b
  {
    forall i | 0 <= i < |a|
      ensures a[i] == b[i]
    {
      assert Entries(a)[i] == Entries(b)[i];
      assert a[i].id as real == b[i].id as real;
    }
  }

  /** A fresh run view, read until now without a "done", holds a prefix of the
      server's log, whatever notices came between, and lists the last 200 payloads of
      the frames taken, of which exactly the rows of that prefix carry an id. */
  lemma RunViewShowsLogPrefix(wire: Wire, sessions: seq<Session>)
    requires ReadsDecimals(wire) && Legal(wire, FRESH_VIEW, [], sessions)
    ensures var read, log := Reader(wire, FRESH_VIEW, Bodies(sessions)), LastLog(wire, FRESH_VIEW, [], sessions);
            var taken := AllArrived(wire, FRESH_VIEW, sessions);
            !read.stopped ==>
              Synced(read, log) && Rows(taken) == log[..|read.consumed|]
              && read.events == LastN(Shown(wire, taken), 200)
  {
    assert Synced(FRESH_VIEW, []);
    ResumeNeverLosesEvents(wire, FRESH_VIEW, [], sessions);
    SessionsKeepWindow(wire, FRESH_VIEW, [], sessions);
    ReaderFollowsSessions(wire, FRESH_VIEW, sessions);
    var read, log := Reader(wire, FRESH_VIEW, Bodies(sessions)), LastLog(wire, FRESH_VIEW, [], sessions);
    var taken := AllArrived(wire, FRESH_VIEW, sessions);
    if !read.stopped {
      assert FRESH_VIEW.events + Shown(wire, taken) == Shown(wire, taken);
      assert FRESH_VIEW.consumed + Entries(Rows(taken)) == Entries(Rows(taken));
      EntriesInjective(Rows(taken), log[..|read.consumed|]);
    }
  }

  /** Where every notice says "done" and no stored event does, the payloads listed are
      those of the rows. */
  lemma {:induction false} ShownWithoutNotices(wire: Wire, frames: seq<Frame>)
    requires forall f :: f in frames ==> (EndsRun(wire, f) <==> f.Notice?)
    ensures Shown(wire, frames) == Payloads(Entries(Rows(frames)))
  {
    if frames == [] {
      assert Payloads(Entries([])) == [];
    } else {
      var f, rest := frames[0], frames[1..];
      assert f in frames;
      ShownWithoutNotices(wire, rest);
      if f.Event? {
        assert Payloads(Entries([f.row] + Rows(rest))) == [f.row.payload] + Payloads(Entries(Rows(rest)));
      }
    }
  }
}

/** The automated-run view's event reader: chunked reading, resumption after a
    dropped connection, and the server log it replays. */
module RunEvents {
  import opened Seqs
  import opened JsText
  import opened EventStream

  const EVENT_WINDOW: nat := 200

  /** What the reader asks of the host: `Number(text)` when it is finite, and
      whether a payload is JSON whose `type` is "done". */
  datatype Wire = Wire(toNumber: string -> Option<real>, isDone: string -> bool)

  datatype Entry = Entry(id: real, payload: string)

  /** The reader's state. `consumed` lists the id-bearing events in the order
      they were taken from the stream. */
  datatype View = View(lastEventId: real, events: seq<string>, stopped: bool, consumed: seq<Entry>)

  // ---------------------------------------------------------------- one block

  function LineWith(lines: seq<string>, prefix: string): Option<string> {
    if lines == [] then None
    else if StartsWith(lines[0], prefix) then Some(lines[0])
    else LineWith(lines[1..], prefix)
  }

  /** The first line with a prefix is the one that counts. */
  lemma {:induction false} FirstLineWith(lines: seq<string>, prefix: string, i: nat)
    requires i <= |lines| && forall j :: 0 <= j < i ==> !(prefix <= lines[j])
    ensures i == |lines| ==> LineWith(lines, prefix) == None
    ensures i < |lines| && prefix <= lines[i] ==> LineWith(lines, prefix) == Some(lines[i])
  {
    if i > 0 {
      assert forall j :: 0 <= j < i - 1 ==> lines[1..][j] == lines[j + 1];
      FirstLineWith(lines[1..], prefix, i - 1);
    }
  }

  function Payload(block: string): Option<string> {
    var line := LineWith(SplitOn(block, '\n'), "data:");
    if line.Some? && |line.value| >= 5 then Some(Trim(line.value[5..])) else None
  }

  function EventId(wire: Wire, block: string): Option<real> {
    var line := LineWith(SplitOn(block, '\n'), "id:");
    if line.Some? && |line.value| >= 3 then wire.toNumber(Trim(line.value[3..])) else None
  }

  predicate Stops(wire: Wire, block: string) {
    Payload(block).Some? && wire.isDone(Payload(block).value)
  }

  function Step(wire: Wire, v: View, block: string): View {
    match Payload(block)
    case None => v
    case Some(payload) =>
      var id := EventId(wire, block);
      var seen := v.(
        lastEventId := if id.Some? && id.value > v.lastEventId then id.value else v.lastEventId,
        consumed := if id.Some? then v.consumed + [Entry(id.value, payload)] else v.consumed);
      if wire.isDone(payload) then seen.(stopped := true)
      else seen.(events := LastN(v.events + [payload], EVENT_WINDOW))
  }

  function Steps(wire: Wire, v: View, blocks: seq<string>): View
    decreases |blocks|
  {
    if blocks == [] then v else Steps(wire, Step(wire, v, blocks[0]), blocks[1..])
  }

  lemma {:induction false} StepsAppend(wire: Wire, v: View, a: seq<string>, b: seq<string>)
    ensures Steps(wire, v, a + b) == Steps(wire, Steps(wire, v, a), b)
    decreases |a|
  {
    if a == [] {
      assert a + b == b;
    } else {
      StepsAppend(wire, Step(wire, v, a[0]), a[1..], b);
      assert (a + b)[1..] == a[1..] + b;
    }
  }

  // ---------------------------------------------------------------- one connection

  /** The blocks up to and including the first "done" block. */
  function UpToDone(wire: Wire, blocks: seq<string>): seq<string> {
    if blocks == [] then []
    else if Stops(wire, blocks[0]) then [blocks[0]]
    else [blocks[0]] + UpToDone(wire, blocks[1..])
  }

  /** The blocks one connection processes: in each chunk, the blocks it completes
      up to the first "done" among them. */
  function Processed(wire: Wire, buffer: string, chunks: seq<string>): seq<string>
    decreases |chunks|
  {
    if chunks == [] then []
    else
      var text := buffer + chunks[0];
      UpToDone(wire, Blocks(text)) + Processed(wire, Rest(text), chunks[1..])
  }

  lemma ProcessedNext(wire: Wire, v: View, buffer: string, chunks: seq<string>, i: nat)
    requires i < |chunks|
    ensures var text := buffer + chunks[i];
            var after := Steps(wire, v, UpToDone(wire, Blocks(text)));
            Steps(wire, v, Processed(wire, buffer, chunks[i..]))
              == Steps(wire, after, Processed(wire, Rest(text), chunks[i + 1..]))
  {
    var text := buffer + chunks[i];
    assert chunks[i..][1..] == chunks[i + 1..];
    StepsAppend(wire, v, UpToDone(wire, Blocks(text)), Processed(wire, Rest(text), chunks[i + 1..]));
  }

  predicate NoDone(wire: Wire, blocks: seq<string>) {
    forall b :: b in blocks ==> !Stops(wire, b)
  }

  /** A "done" block that is not the last one. */
  predicate EarlyDone(wire: Wire, blocks: seq<string>) {
    exists i :: 0 <= i < |blocks| - 1 && Stops(wire, blocks[i])
  }

  lemma {:induction false} UpToDoneAppend(wire: Wire, a: seq<string>, b: seq<string>)
    ensures NoDone(wire, a) ==> UpToDone(wire, a + b) == a + UpToDone(wire, b)
    ensures !NoDone(wire, a) ==> UpToDone(wire, a + b) == UpToDone(wire, a)
  {
    if a == [] {
      assert a + b == b;
    } else {
      UpToDoneAppend(wire, a[1..], b);
      assert (a + b)[1..] == a[1..] + b;
      assert a == [a[0]] + a[1..];
    }
  }

  lemma UpToDoneAll(wire: Wire, blocks: seq<string>)
    requires NoDone(wire, blocks)
    ensures UpToDone(wire, blocks) == blocks
  {
    UpToDoneAppend(wire, blocks, []);
    assert blocks + [] == blocks;
  }

  lemma {:induction false} UpToDoneWhole(wire: Wire, blocks: seq<string>)
    ensures UpToDone(wire, blocks) == blocks <==> !EarlyDone(wire, blocks)
    ensures UpToDone(wire, blocks) <= blocks
    ensures NoDone(wire, UpToDone(wire, blocks)) <==> NoDone(wire, blocks)
  {
    if blocks != [] {
      var tail := blocks[1..];
      UpToDoneWhole(wire, tail);
      assert blocks == [blocks[0]] + tail;
      if Stops(wire, blocks[0]) {
        assert blocks[0] in UpToDone(wire, blocks);
      } else {
        if EarlyDone(wire, blocks) {
          var i :| 0 <= i < |blocks| - 1 && Stops(wire, blocks[i]);
          assert Stops(wire, tail[i - 1]);
        }
        if EarlyDone(wire, tail) {
          var i :| 0 <= i < |tail| - 1 && Stops(wire, tail[i]);
          assert Stops(wire, blocks[i + 1]);
        }
      }
    }
  }

  /** Up to the first "done" the cuts between chunks do not matter. */
  lemma {:induction false} ChunksUpToDone(wire: Wire, buffer: string, chunks: seq<string>)
    requires Blocks(buffer) == [] && Rest(buffer) == buffer
    ensures UpToDone(wire, Processed(wire, buffer, chunks)) == UpToDone(wire, Blocks(buffer + Flatten(chunks)))
    decreases |chunks|
  {
    if chunks == [] {
      assert buffer + Flatten(chunks) == buffer;
    } else {
      var text := buffer + chunks[0];
      RestIsUnfinished(text);
      ChunksUpToDone(wire, Rest(text), chunks[1..]);
      BlocksOfChunks(buffer, chunks);
      UpToDonePieces(wire, Blocks(text), Processed(wire, Rest(text), chunks[1..]),
        Blocks(Rest(text) + Flatten(chunks[1..])));
    }
  }

  lemma UpToDonePieces(wire: Wire, here: seq<string>, processed: seq<string>, pending: seq<string>)
    requires UpToDone(wire, processed) == UpToDone(wire, pending)
    ensures UpToDone(wire, UpToDone(wire, here) + processed) == UpToDone(wire, here + pending)
  {
    UpToDoneAppend(wire, here, pending);
    UpToDoneAppend(wire, UpToDone(wire, here), processed);
    UpToDoneWhole(wire, here);
    if NoDone(wire, here) {
      UpToDoneAll(wire, here);
    } else {
      UpToDoneTwice(wire, here);
    }
  }

  lemma {:induction false} UpToDoneTwice(wire: Wire, blocks: seq<string>)
    ensures UpToDone(wire, UpToDone(wire, blocks)) == UpToDone(wire, blocks)
  {
    if blocks != [] && !Stops(wire, blocks[0]) {
      UpToDoneTwice(wire, blocks[1..]);
      assert UpToDone(wire, blocks)[1..] == UpToDone(wire, blocks[1..]);
    }
  }

  lemma {:induction false} ChunksWithoutEarlyDone(wire: Wire, buffer: string, chunks: seq<string>)
    requires Blocks(buffer) == [] && Rest(buffer) == buffer
    requires !EarlyDone(wire, Blocks(buffer + Flatten(chunks)))
    ensures Processed(wire, buffer, chunks) == Blocks(buffer + Flatten(chunks))
    decreases |chunks|
  {
    if chunks == [] {
      assert buffer + Flatten(chunks) == buffer;
    } else {
      var text := buffer + chunks[0];
      var later := Flatten(chunks[1..]);
      RestIsUnfinished(text);
      BlocksOfChunks(buffer, chunks);
      var here, rest := Blocks(text), Blocks(Rest(text) + later);
      assert !EarlyDone(wire, here) by {
        assert forall i :: 0 <= i < |here| ==> (here + rest)[i] == here[i];
      }
      assert !EarlyDone(wire, rest) by {
        assert forall i :: 0 <= i < |rest| ==> (here + rest)[|here| + i] == rest[i];
      }
      ChunksWithoutEarlyDone(wire, Rest(text), chunks[1..]);
      UpToDoneWhole(wire, here);
    }
  }

  lemma ProcessedWhole(wire: Wire, text: string)
    ensures Processed(wire, "", [text]) == UpToDone(wire, Blocks(text))
  {
    assert "" + text == text;
    assert Processed(wire, Rest(text), [text][1..]) == [];
  }

  ghost predicate ChunkingIrrelevant(wire: Wire, text: string) {
    forall chunks: seq<string> :: Flatten(chunks) == text ==> Processed(wire, "", chunks) == Blocks(text)
  }

  /** Every way of cutting the text is read as the same complete blocks exactly
      when no "done" block is followed by another block. */
  lemma ChunkIndependence(wire: Wire, text: string)
    ensures ChunkingIrrelevant(wire, text) <==> !EarlyDone(wire, Blocks(text))
  {
    if EarlyDone(wire, Blocks(text)) {
      var whole := [text];
      assert Flatten(whole) == text;
      ProcessedWhole(wire, text);
      UpToDoneWhole(wire, Blocks(text));
    } else {
      forall chunks: seq<string> | Flatten(chunks) == text
        ensures Processed(wire, "", chunks) == Blocks(text)
      {
        assert "" + Flatten(chunks) == text;
        ChunksWithoutEarlyDone(wire, "", chunks);
      }
    }
  }

  /** The reader does not stop reading at "done": a later block is skipped when
      it arrives in the same chunk and processed when it arrives in the next. */
  lemma ReadingContinuesAfterDone(wire: Wire, last: string, later: string)
    requires IsBlock(last) && IsBlock(later)
    requires Stops(wire, last) && !Stops(wire, later)
    ensures Processed(wire, "", [last + "\n\n" + (later + "\n\n")]) == [last]
    ensures Processed(wire, "", [last + "\n\n", later + "\n\n"]) == [last, later]
  {
    OneBlock(last);
    OneBlock(later);
    SplitHead(last, later + "\n\n");
    var first, second := last + "\n\n", later + "\n\n";
    ProcessedWhole(wire, first + second);
    assert Blocks(first + second) == [last, later];
    ProcessedWhole(wire, second);
    assert "" + first == first;
    assert [first, second][1..] == [second];
  }

  lemma OneBlock(block: string)
    requires IsBlock(block)
    ensures Split(block + "\n\n") == [block, ""]
  {
    SplitHead(block, "");
    SplitTail("");
    assert block + "\n\n" + "" == block + "\n\n";
  }

  // ---------------------------------------------------------------- the reader

  datatype Response = Refused | Body(chunks: seq<string>)

  /** What the reconnect loop does against the given responses. */
  function Reader(wire: Wire, v: View, responses: seq<Response>): View
    decreases |responses|
  {
    if responses == [] || v.stopped || responses[0].Refused? then v
    else Reader(wire, Steps(wire, v, Processed(wire, "", responses[0].chunks)), responses[1..])
  }

  class RunView {
    var lastEventId: real
    var events: seq<string>
    var stopped: bool
    ghost var consumed: seq<Entry>

    ghost function State(): View
      reads this
    {
      View(lastEventId, events, stopped, consumed)
    }

    constructor ()
      ensures State() == View(0.0, [], false, [])
    {
      lastEventId, events, stopped, consumed := 0.0, [], false, [];
    }

    /** The `for` over one chunk's blocks, left by `break` at "done". */
    method ConsumeBlocks(wire: Wire, blocks: seq<string>)
      modifies this
      ensures State() == Steps(wire, old(State()), UpToDone(wire, blocks))
    {
      var i := 0;
      while i < |blocks|
        invariant 0 <= i <= |blocks|
        invariant NoDone(wire, blocks[..i])
        invariant State() == Steps(wire, old(State()), blocks[..i])
      {
        var block := blocks[i];
        StepsAppend(wire, old(State()), blocks[..i], [block]);
        assert blocks[..i + 1] == blocks[..i] + [block];
        UpToDoneAppend(wire, blocks[..i], blocks[i..]);
        assert blocks == blocks[..i] + blocks[i..];
        i := i + 1;
        var lines := SplitOn(block, '\n');
        var idLine := LineWith(lines, "id:");
        var dataLine := LineWith(lines, "data:");
        if dataLine.None? || |dataLine.value| < 5 {
          assert Step(wire, State(), block) == State();
          continue;
        }
        var payload := Trim(dataLine.value[5..]);
        if idLine.Some? && |idLine.value| >= 3 {
          var id := wire.toNumber(Trim(idLine.value[3..]));
          if id.Some? && id.value > lastEventId {
            lastEventId := id.value;
          }
          consumed := if id.Some? then consumed + [Entry(id.value, payload)] else consumed;
        }
        if wire.isDone(payload) {
          stopped := true;
          return;
        }
        events := LastN(events + [payload], EVENT_WINDOW);
      }
      assert blocks[..i] == blocks;
      UpToDoneAll(wire, blocks);
    }

    /** One connection: refill the buffer, split it, keep the unfinished tail. */
    method ReadConnection(wire: Wire, chunks: seq<string>)
      modifies this
      ensures State() == Steps(wire, old(State()), Processed(wire, "", chunks))
    {
      var buffer := "";
      var i := 0;
      assert chunks[0..] == chunks;
      while i < |chunks|
        invariant 0 <= i <= |chunks|
        invariant Steps(wire, State(), Processed(wire, buffer, chunks[i..]))
                    == Steps(wire, old(State()), Processed(wire, "", chunks))
      {
        ProcessedNext(wire, State(), buffer, chunks, i);
        buffer := buffer + chunks[i];
        var pieces := Split(buffer);
        var blocks := pieces[..|pieces| - 1];
        buffer := pieces[|pieces| - 1];
        ConsumeBlocks(wire, blocks);
        i := i + 1;
      }
    }

    /** The reconnect loop: a dropped connection starts over with an empty
        buffer, a refused one or a "done" ends it. */
    method Connect(wire: Wire, responses: seq<Response>)
      modifies this
      ensures State() == Reader(wire, old(State()), responses)
    {
      var i := 0;
      while !stopped && i < |responses|
        invariant 0 <= i <= |responses|
        invariant Reader(wire, old(State()), responses) == Reader(wire, State(), responses[i..])
      {
        if responses[i].Refused? {
          return;
        }
        ReadConnection(wire, responses[i].chunks);
        assert responses[i..][1..] == responses[i + 1..];
        i := i + 1;
      }
    }
  }
}

/** The block splitter both event-stream readers are built on: `split("\n\n")`
    applied to a buffer that is refilled chunk by chunk. */
module EventStream {
  import opened Seqs

  /** `text.split("\n\n")`, scanning left to right without overlaps. */
  function Split(text: string): (pieces: seq<string>)
    ensures |pieces| >= 1
  {
    if |text| < 2 then [text]
    else if text[0] == '\n' && text[1] == '\n' then [""] + Split(text[2..])
    else
      var rest := Split(text[1..]);
      [[text[0]] + rest[0]] + rest[1..]
  }

  /** The complete blocks of a buffer: every piece but the last. */
  function Blocks(text: string): seq<string> {
    var pieces := Split(text);
    pieces[..|pieces| - 1]
  }

  /** What `pop()` leaves in the buffer. */
  function Rest(text: string): string {
    var pieces := Split(text);
    pieces[|pieces| - 1]
  }

  predicate HasBlank(s: string) {
    |s| >= 2 && ((s[0] == '\n' && s[1] == '\n') || HasBlank(s[1..]))
  }

  /** A block as a blank-line separator can end it: no blank line inside, and
      no newline that would have matched one position earlier. */
  predicate IsBlock(s: string) {
    !HasBlank(s) && (s != [] ==> s[|s| - 1] != '\n')
  }

  /** The text whose complete blocks are `blocks` and whose unfinished tail is `rest`. */
  function Render(blocks: seq<string>, rest: string): string {
    if blocks == [] then rest else blocks[0] + "\n\n" + Render(blocks[1..], rest)
  }

  lemma {:induction false} SplitHead(block: string, rest: string)
    requires IsBlock(block)
    ensures Split(block + "\n\n" + rest) == [block] + Split(rest)
  {
    var text := block + "\n\n" + rest;
    if block == [] {
      assert text[2..] == rest;
    } else {
      assert text[1..] == block[1..] + "\n\n" + rest;
      SplitHead(block[1..], rest);
      assert [block[0]] + block[1..] == block;
    }
  }

  lemma {:induction false} SplitTail(rest: string)
    requires !HasBlank(rest)
    ensures Split(rest) == [rest]
  {
    if |rest| >= 2 {
      SplitTail(rest[1..]);
      assert [rest[0]] + rest[1..] == rest;
    }
  }

  /** Putting the pieces back together gives the text. */
  lemma {:induction false} RenderSplit(text: string)
    ensures Render(Blocks(text), Rest(text)) == text
  {
    if |text| < 2 {
    } else if text[0] == '\n' && text[1] == '\n' {
      RenderSplit(text[2..]);
      assert Blocks(text) == [""] + Blocks(text[2..]);
      assert "\n\n" + text[2..] == text;
    } else {
      var tail := text[1..];
      RenderSplit(tail);
      var blocks := Blocks(tail);
      assert text == [text[0]] + tail;
      if blocks == [] {
        assert Blocks(text) == [] && Rest(text) == [text[0]] + Rest(tail);
      } else {
        assert Blocks(text) == [[text[0]] + blocks[0]] + blocks[1..] && Rest(text) == Rest(tail);
        RenderGrows(text[0], blocks, Rest(tail));
      }
    }
  }

  lemma RenderGrows(c: char, blocks: seq<string>, rest: string)
    requires blocks != []
    ensures Render([[c] + blocks[0]] + blocks[1..], rest) == [c] + Render(blocks, rest)
  {
    var grown := [[c] + blocks[0]] + blocks[1..];
    assert grown[1..] == blocks[1..];
    assert [c] + blocks[0] + "\n\n" == [c] + (blocks[0] + "\n\n");
  }

  lemma {:induction false} BlocksAreBlocks(text: string)
    ensures forall b :: b in Blocks(text) ==> IsBlock(b)
  {
    if |text| < 2 {
    } else if text[0] == '\n' && text[1] == '\n' {
      BlocksAreBlocks(text[2..]);
      assert Blocks(text) == [""] + Blocks(text[2..]);
    } else {
      BlocksAreBlocks(text[1..]);
      var blocks := Blocks(text[1..]);
      if blocks != [] {
        assert Blocks(text) == [[text[0]] + blocks[0]] + blocks[1..];
        BlockGrows(text, blocks[0]);
      }
    }
  }

  lemma BlockGrows(text: string, block: string)
    requires |text| >= 2 && !(text[0] == '\n' && text[1] == '\n')
    requires block in Blocks(text[1..]) && Blocks(text[1..])[0] == block && IsBlock(block)
    ensures IsBlock([text[0]] + block)
  {
    var tail := text[1..];
    RenderSplit(tail);
    assert tail == block + ("\n\n" + Render(Blocks(tail)[1..], Rest(tail)));
    assert text[1] == tail[0];
    assert ([text[0]] + block)[1..] == block;
  }

  lemma {:induction false} RestHasNoBlank(text: string)
    ensures !HasBlank(Rest(text))
  {
    if |text| < 2 {
    } else if text[0] == '\n' && text[1] == '\n' {
      RestHasNoBlank(text[2..]);
    } else {
      RestHasNoBlank(text[1..]);
      if |Split(text[1..])| == 1 {
        RenderSplit(text[1..]);
        assert Rest(text) == text;
      }
    }
  }

  lemma {:induction false} SplitUnique(blocks: seq<string>, rest: string)
    requires forall b :: b in blocks ==> IsBlock(b)
    requires !HasBlank(rest)
    ensures Blocks(Render(blocks, rest)) == blocks && Rest(Render(blocks, rest)) == rest
  {
    if blocks == [] {
      SplitTail(rest);
    } else {
      SplitUnique(blocks[1..], rest);
      SplitHead(blocks[0], Render(blocks[1..], rest));
    }
  }

  /** Refilling a buffer after `pop()` splits the whole text: nothing depends on
      where the cut between `a` and `b` fell. */
  lemma {:induction false} SplitResume(a: string, b: string)
    ensures Blocks(a + b) == Blocks(a) + Blocks(Rest(a) + b)
    ensures Rest(a + b) == Rest(Rest(a) + b)
  {
    RenderSplit(a);
    RenderSplit(Rest(a) + b);
    BlocksAreBlocks(a);
    BlocksAreBlocks(Rest(a) + b);
    RestHasNoBlank(Rest(a) + b);
    var blocks, more := Blocks(a), Blocks(Rest(a) + b);
    var tail := Rest(Rest(a) + b);
    RenderAppend(blocks, more, Rest(a), b, tail);
    SplitUnique(blocks + more, tail);
  }

  lemma {:induction false} RenderAppend(blocks: seq<string>, more: seq<string>, rest: string, b: string, tail: string)
    requires Render(more, tail) == rest + b
    ensures Render(blocks + more, tail) == Render(blocks, rest) + b
  {
    if blocks == [] {
      assert blocks + more == more;
    } else {
      RenderAppend(blocks[1..], more, rest, b, tail);
      assert (blocks + more)[1..] == blocks[1..] + more;
    }
  }

  lemma RestIsUnfinished(text: string)
    ensures Blocks(Rest(text)) == [] && Rest(Rest(text)) == Rest(text)
  {
    RestHasNoBlank(text);
    SplitTail(Rest(text));
  }

  lemma BlocksOfChunks(buffer: string, chunks: seq<string>)
    requires chunks != []
    ensures var text := buffer + chunks[0];
            Blocks(buffer + Flatten(chunks)) == Blocks(text) + Blocks(Rest(text) + Flatten(chunks[1..]))
  {
    var text := buffer + chunks[0];
    FlattenShift(buffer, chunks);
    SplitResume(text, Flatten(chunks[1..]));
  }

  lemma FlattenShift(buffer: string, chunks: seq<string>)
    requires chunks != []
    ensures buffer + Flatten(chunks) == buffer + chunks[0] + Flatten(chunks[1..])
  {
  }

  /** The blocks a reader completes while it refills its buffer chunk by chunk. */
  function Completed(buffer: string, chunks: seq<string>): seq<string>
    decreases |chunks|
  {
    if chunks == [] then []
    else
      var text := buffer + chunks[0];
      Blocks(text) + Completed(Rest(text), chunks[1..])
  }

  /** A reader that never stops early completes exactly the blocks of the whole
      text, however the text was cut. */
  lemma {:induction false} CompletedIsChunkIndependent(buffer: string, chunks: seq<string>)
    requires Blocks(buffer) == [] && Rest(buffer) == buffer
    ensures Completed(buffer, chunks) == Blocks(buffer + Flatten(chunks))
    decreases |chunks|
  {
    if chunks == [] {
      assert buffer + Flatten(chunks) == buffer;
    } else {
      BlocksOfChunks(buffer, chunks);
      RestIsUnfinished(buffer + chunks[0]);
      CompletedIsChunkIndependent(Rest(buffer + chunks[0]), chunks[1..]);
    }
  }

  lemma ChunkIndependence(chunks: seq<string>)
    ensures Completed("", chunks) == Blocks(Flatten(chunks))
  {
    CompletedIsChunkIndependent("", chunks);
    assert "" + Flatten(chunks) == Flatten(chunks);
  }

  lemma CompletedStep(buffer: string, chunks: seq<string>, i: nat)
    requires i < |chunks|
    ensures Completed(buffer, chunks[i..])
         == Blocks(buffer + chunks[i]) + Completed(Rest(buffer + chunks[i]), chunks[i + 1..])
  {
    assert chunks[i..][1..] == chunks[i + 1..];
  }
}

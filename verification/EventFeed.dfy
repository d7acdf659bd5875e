/** The tester's event feed: a polled list and a stream merged into one bounded,
    duplicate-free list, and a bounded list of network entries. */
module EventFeed {
  import opened Seqs
  import opened EventStream
  import RunEvents

  const EVENT_LIMIT: nat := 500
  const NETWORK_LIMIT: nat := 200

  /** The metadata fields a network entry copies; a text field is the value's
      string form, a number field is present only when the value is a number. */
  datatype Metadata = Metadata(
    verb: Option<string>, url: Option<string>, status: Option<real>,
    resourceType: Option<string>, duration: Option<real>)

  datatype Event = Event(id: string, kind: string, timestamp: real, metadata: Option<Metadata>)

  datatype NetworkEntry = NetworkEntry(
    id: string, timestamp: real, verb: string, url: string, status: Option<real>,
    resourceType: string, duration: real)

  function Or<T>(o: Option<T>, default: T): T {
    if o.Some? then o.value else default
  }

  predicate IsNetwork(e: Event) {
    e.kind == "network" && e.metadata.Some?
  }

  function EntryOf(e: Event): NetworkEntry
    requires IsNetwork(e)
  {
    var m := e.metadata.value;
    NetworkEntry(e.id, e.timestamp, Or(m.verb, "GET"), Or(m.url, ""), m.status,
                 Or(m.resourceType, "network"), Or(m.duration, 0.0))
  }

  /** A network event is one of that kind with metadata; its entry holds the event's id
      and time and, field by field, the metadata or what stands in for it. */
  lemma EntryFields(e: Event)
    ensures IsNetwork(e) <==> e.kind == "network" && e.metadata != None
    ensures IsNetwork(e) ==>
              var entry, m := EntryOf(e), e.metadata.value;
              && entry.id == e.id && entry.timestamp == e.timestamp && entry.status == m.status
              && (if m.verb == None then entry.verb == "GET" else m.verb == Some(entry.verb))
              && (if m.url == None then entry.url == "" else m.url == Some(entry.url))
              && (if m.resourceType == None then entry.resourceType == "network"
                  else m.resourceType == Some(entry.resourceType))
              && (if m.duration == None then entry.duration == 0.0 else m.duration == Some(entry.duration))
  {
  }

  // ---------------------------------------------------------------- events

  function EventId(): Event -> string {
    (e: Event) => e.id
  }

  /** The events delivered, without repeats. */
  ghost function Unique(s: seq<Event>): seq<Event> {
    Dedupe(EventId(), {}, s)
  }

  ghost function Ids(s: seq<Event>): set<string> {
    Keys(EventId(), s)
  }

  // ---------------------------------------------------------------- network entries

  predicate HasId(list: seq<NetworkEntry>, id: string) {
    exists i :: 0 <= i < |list| && list[i].id == id
  }

  /** One `setNetwork` update. */
  function AddNetwork(list: seq<NetworkEntry>, e: Event): seq<NetworkEntry> {
    if !IsNetwork(e) || HasId(list, e.id) then list
    else LastN(list + [EntryOf(e)], NETWORK_LIMIT)
  }

  function AddAllNetwork(list: seq<NetworkEntry>, s: seq<Event>): seq<NetworkEntry>
    decreases |s|
  {
    if s == [] then list else AddAllNetwork(AddNetwork(list, s[0]), s[1..])
  }

  lemma {:induction false} NetworkStaysDistinct(list: seq<NetworkEntry>, s: seq<Event>)
    requires |list| <= 200 && forall i, j :: 0 <= i < j < |list| ==> list[i].id != list[j].id
    ensures |AddAllNetwork(list, s)| <= 200
    ensures forall i, j :: 0 <= i < j < |AddAllNetwork(list, s)| ==>
              AddAllNetwork(list, s)[i].id != AddAllNetwork(list, s)[j].id
    decreases |s|
  {
    if s != [] {
      NetworkStaysDistinct(AddNetwork(list, s[0]), s[1..]);
    }
  }

  lemma {:induction false} AddAllAppend(list: seq<NetworkEntry>, a: seq<Event>, b: seq<Event>)
    ensures AddAllNetwork(list, a + b) == AddAllNetwork(AddAllNetwork(list, a), b)
    decreases |a|
  {
    if a == [] {
      assert a + b == b;
    } else {
      AddAllAppend(AddNetwork(list, a[0]), a[1..], b);
      assert (a + b)[1..] == a[1..] + b;
    }
  }

  /** Every network entry ever listed, in order of first appearance. */
  function History(all: seq<NetworkEntry>, e: Event): seq<NetworkEntry> {
    if !IsNetwork(e) || HasId(all, e.id) then all else all + [EntryOf(e)]
  }

  function FullHistory(s: seq<Event>): seq<NetworkEntry>
    decreases |s|
  {
    if s == [] then [] else History(FullHistory(s[..|s| - 1]), s[|s| - 1])
  }

  /** `e` was listed before and has been evicted since. */
  predicate ComesBack(all: seq<NetworkEntry>, e: Event) {
    IsNetwork(e) && HasId(all, e.id) && !HasId(LastN(all, NETWORK_LIMIT), e.id)
  }

  lemma NetworkStepExactly(all: seq<NetworkEntry>, e: Event)
    ensures AddNetwork(LastN(all, NETWORK_LIMIT), e) == LastN(History(all, e), NETWORK_LIMIT) <==> !ComesBack(all, e)
  {
    var shown := LastN(all, NETWORK_LIMIT);
    if IsNetwork(e) {
      LastNAppend(all, [EntryOf(e)], NETWORK_LIMIT);
      if HasId(shown, e.id) {
        var i :| 0 <= i < |shown| && shown[i].id == e.id;
        assert all[|all| - |shown| + i].id == e.id;
        assert HasId(all, e.id);
      } else if HasId(all, e.id) {
        var added := AddNetwork(shown, e);
        assert added[|added| - 1].id == e.id;
        assert HasId(added, e.id);
      }
    }
  }

  /** After the first `n` deliveries the network list is the window of its history. */
  predicate WindowAt(s: seq<Event>, n: nat)
    requires n <= |s|
  {
    AddAllNetwork([], s[..n]) == LastN(FullHistory(s[..n]), 200)
  }

  lemma WindowStep(s: seq<Event>, n: nat)
    requires n < |s| && WindowAt(s, n)
    ensures WindowAt(s, n + 1) <==> !ComesBack(FullHistory(s[..n]), s[n])
  {
    assert s[..n + 1] == s[..n] + [s[n]];
    AddAllAppend([], s[..n], [s[n]]);
    NetworkStepExactly(FullHistory(s[..n]), s[n]);
  }

  /** Unlike the event list, the network list remembers only what it still shows.
      It stays the last 200 of its history exactly as long as no evicted entry is
      delivered again. */
  lemma NetworkWindowExactly(s: seq<Event>)
    ensures (forall n :: 0 <= n <= |s| ==> WindowAt(s, n))
       <==> (forall n :: 0 <= n < |s| ==> !ComesBack(FullHistory(s[..n]), s[n]))
  {
    if forall n :: 0 <= n < |s| ==> !ComesBack(FullHistory(s[..n]), s[n]) {
      var k := 0;
      while k < |s|
        invariant 0 <= k <= |s|
        invariant forall n :: 0 <= n <= k ==> WindowAt(s, n)
      {
        WindowStep(s, k);
        k := k + 1;
      }
    }
    if forall n :: 0 <= n <= |s| ==> WindowAt(s, n) {
      forall n | 0 <= n < |s|
        ensures !ComesBack(FullHistory(s[..n]), s[n])
      {
        assert WindowAt(s, n) && WindowAt(s, n + 1);
        WindowStep(s, n);
      }
    }
  }

  function Numbered(i: nat): Event {
    Event(seq(i, _ => 'x'), "network", 0.0, Some(Metadata(None, None, None, None, None)))
  }

  function Requests(n: nat): seq<Event> {
    seq(n, i requires 0 <= i < n => Numbered(i))
  }

  lemma {:induction false} RequestHistory(n: nat)
    ensures var all := FullHistory(Requests(n));
            |all| == n && forall i :: 0 <= i < n ==> all[i] == EntryOf(Numbered(i)) && |all[i].id| == i
  {
    if n > 0 {
      RequestHistory(n - 1);
      assert Requests(n)[..n - 1] == Requests(n - 1);
      var before := FullHistory(Requests(n - 1));
      assert |EntryOf(Numbered(n - 1)).id| == n - 1;
      assert !HasId(before, Numbered(n - 1).id);
      assert FullHistory(Requests(n)) == before + [EntryOf(Numbered(n - 1))];
    }
  }

  lemma RequestWindow(n: nat)
    ensures AddAllNetwork([], Requests(n)) == LastN(FullHistory(Requests(n)), NETWORK_LIMIT)
  {
    var s := Requests(n);
    forall k | 0 <= k < n
      ensures !ComesBack(FullHistory(s[..k]), s[k])
    {
      RequestHistory(k);
      assert s[..k] == Requests(k) && |s[k].id| == k;
    }
    NetworkWindowExactly(s);
    assert WindowAt(s, n) && s[..n] == s;
  }

  /** It does happen: after more than 200 requests the first one is off the list, and
      polled again it is back on it. */
  lemma EvictedRequestComesBack(n: nat)
    requires n > 200
    ensures var list := AddAllNetwork([], Requests(n));
            !HasId(list, Numbered(0).id) && ComesBack(FullHistory(Requests(n)), Numbered(0))
    ensures HasId(AddAllNetwork([], Requests(n) + [Numbered(0)]), Numbered(0).id)
  {
    RequestWindow(n);
    RequestHistory(n);
    var all := FullHistory(Requests(n));
    var list := AddAllNetwork([], Requests(n));
    assert all[0].id == Numbered(0).id;
    assert |Numbered(0).id| == 0;
    assert forall i :: 0 <= i < 200 ==> list[i] == all[n - 200 + i];
    AddAllAppend([], Requests(n), [Numbered(0)]);
    AddsOne(list, Numbered(0));
  }

  lemma AddsOne(list: seq<NetworkEntry>, e: Event)
    requires IsNetwork(e)
    ensures AddAllNetwork(list, [e]) == AddNetwork(list, e) && HasId(AddNetwork(list, e), e.id)
  {
    var next := AddNetwork(list, e);
    assert [e][1..] == [] && AddAllNetwork(next, []) == next;
    if !HasId(list, e.id) {
      assert next[|next| - 1].id == e.id;
    }
  }

  // ---------------------------------------------------------------- the feed

  lemma AddToUnique(sofar: seq<Event>, next: seq<Event>, e: Event)
    requires LastN(next, EVENT_LIMIT) == LastN(Unique(sofar), EVENT_LIMIT)
    ensures Ids(sofar + [e]) == Ids(sofar) + {e.id}
    ensures LastN(if e.id in Ids(sofar) then next else next + [e], EVENT_LIMIT)
              == LastN(Unique(sofar + [e]), EVENT_LIMIT)
  {
    DedupeOne(EventId(), sofar, e);
    LastNAppend(next, [e], EVENT_LIMIT);
    LastNAppend(Unique(sofar), [e], EVENT_LIMIT);
    if e.id in Ids(sofar) {
      assert Unique(sofar) + [] == Unique(sofar);
    }
  }

  class Feed {
    var seen: set<string>
    var events: seq<Event>
    var network: seq<NetworkEntry>
    /** Everything handed to the feed so far, in order. */
    ghost var delivered: seq<Event>

    ghost predicate Valid()
      reads this
    {
      && seen == Ids(delivered)
      && events == LastN(Unique(delivered), EVENT_LIMIT)
      && network == AddAllNetwork([], delivered)
    }

    constructor ()
      ensures Valid() && delivered == []
    {
      seen, events, network, delivered := {}, [], [], [];
    }

    method AddEvents(incoming: seq<Event>)
      requires Valid()
      modifies this
      ensures Valid() && delivered == old(delivered) + incoming
    {
      MergeEvents(incoming);
      MergeNetwork(incoming);
      delivered := delivered + incoming;
    }

    /** The `setEvents` update. */
    method MergeEvents(incoming: seq<Event>)
      requires Valid()
      modifies this`seen, this`events
      ensures seen == Ids(delivered + incoming)
      ensures events == LastN(Unique(delivered + incoming), 500)
    {
      var next := events;
      ghost var sofar := delivered;
      var i := 0;
      while i < |incoming|
        invariant 0 <= i <= |incoming|
        invariant sofar == delivered + incoming[..i]
        invariant seen == Ids(sofar)
        invariant LastN(next, EVENT_LIMIT) == LastN(Unique(sofar), EVENT_LIMIT)
      {
        var event := incoming[i];
        AddToUnique(sofar, next, event);
        sofar := sofar + [event];
        i := i + 1;
        if event.id in seen {
          continue;
        }
        seen := seen + {event.id};
        next := next + [event];
      }
      assert sofar == delivered + incoming;
      events := LastN(next, EVENT_LIMIT);
    }

    /** The `setNetwork` updates. */
    method MergeNetwork(incoming: seq<Event>)
      requires network == AddAllNetwork([], delivered)
      modifies this`network
      ensures network == AddAllNetwork([], delivered + incoming)
    {
      AddAllAppend([], delivered, incoming);
      var i := 0;
      assert incoming[0..] == incoming;
      while i < |incoming|
        invariant 0 <= i <= |incoming|
        invariant AddAllNetwork(network, incoming[i..]) == AddAllNetwork(old(network), incoming)
      {
        var event := incoming[i];
        assert incoming[i..][1..] == incoming[i + 1..];
        i := i + 1;
        if event.kind != "network" || event.metadata.None? {
          continue;
        }
        if !HasId(network, event.id) {
          network := LastN(network + [EntryOf(event)], NETWORK_LIMIT);
        }
      }
    }

    /** The stream reader: every complete block with a readable event is added. */
    method ReadStream(parse: string -> Option<Event>, chunks: seq<string>)
      requires Valid()
      modifies this
      ensures Valid() && delivered == Deliver(parse, old(delivered), Completed("", chunks))
    {
      var buffer := "";
      var i := 0;
      assert chunks[0..] == chunks;
      while i < |chunks|
        invariant 0 <= i <= |chunks|
        invariant Valid()
        invariant Deliver(parse, delivered, Completed(buffer, chunks[i..]))
                    == Deliver(parse, old(delivered), Completed("", chunks))
      {
        ReadStep(parse, delivered, buffer, chunks, i);
        buffer := ReadChunk(parse, buffer + chunks[i]);
        i := i + 1;
      }
    }

    method ReadChunk(parse: string -> Option<Event>, buffer: string) returns (rest: string)
      requires Valid()
      modifies this
      ensures Valid() && delivered == Deliver(parse, old(delivered), Blocks(buffer))
      ensures rest == Rest(buffer)
    {
      var pieces := Split(buffer);
      rest := pieces[|pieces| - 1];
      AddBlocks(parse, pieces[..|pieces| - 1]);
    }

    method AddBlocks(parse: string -> Option<Event>, blocks: seq<string>)
      requires Valid()
      modifies this
      ensures Valid() && delivered == Deliver(parse, old(delivered), blocks)
    {
      var i := 0;
      assert blocks[0..] == blocks;
      while i < |blocks|
        invariant 0 <= i <= |blocks|
        invariant Valid() && Deliver(parse, delivered, blocks[i..]) == Deliver(parse, old(delivered), blocks)
      {
        assert blocks[i..][1..] == blocks[i + 1..];
        var payload := RunEvents.Payload(blocks[i]);
        if payload.Some? {
          var event := parse(payload.value);
          if event.Some? {
            AddEvents([event.value]);
          }
        }
        assert delivered + [] == delivered;
        i := i + 1;
      }
    }
  }

  /** The readable event of a block, if it has one. */
  function EventIn(parse: string -> Option<Event>): string -> seq<Event> {
    (block: string) =>
      var payload := RunEvents.Payload(block);
      if payload.Some? && parse(payload.value).Some? then [parse(payload.value).value] else []
  }

  function Gather(events: string -> seq<Event>, sofar: seq<Event>, blocks: seq<string>): seq<Event>
    decreases |blocks|
  {
    if blocks == [] then sofar else Gather(events, sofar + events(blocks[0]), blocks[1..])
  }

  /** `delivered` followed by the events of `blocks`. */
  function Deliver(parse: string -> Option<Event>, delivered: seq<Event>, blocks: seq<string>): seq<Event> {
    Gather(EventIn(parse), delivered, blocks)
  }

  lemma {:induction false} GatherAppend(events: string -> seq<Event>, sofar: seq<Event>, a: seq<string>, b: seq<string>)
    ensures Gather(events, sofar, a + b) == Gather(events, Gather(events, sofar, a), b)
    decreases |a|
  {
    if a == [] {
      assert a + b == b;
    } else {
      GatherAppend(events, sofar + events(a[0]), a[1..], b);
      assert (a + b)[1..] == a[1..] + b;
    }
  }

  lemma ReadStep(parse: string -> Option<Event>, delivered: seq<Event>, buffer: string, chunks: seq<string>, i: nat)
    requires i < |chunks|
    ensures Deliver(parse, delivered, Completed(buffer, chunks[i..]))
         == Deliver(parse, Deliver(parse, delivered, Blocks(buffer + chunks[i])),
                    Completed(Rest(buffer + chunks[i]), chunks[i + 1..]))
  {
    CompletedStep(buffer, chunks, i);
    GatherAppend(EventIn(parse), delivered, Blocks(buffer + chunks[i]),
      Completed(Rest(buffer + chunks[i]), chunks[i + 1..]));
  }

  /** What the stream delivers depends on its whole text, not on the chunks. */
  lemma StreamIsChunkIndependent(parse: string -> Option<Event>, delivered: seq<Event>, chunks: seq<string>)
    ensures Deliver(parse, delivered, Completed("", chunks)) == Deliver(parse, delivered, Blocks(Flatten(chunks)))
  {
    ChunkIndependence(chunks);
  }

  /** What the event list is a window of: of each id delivered the first event, in the
      order of those first arrivals, and nothing else. */
  lemma ListsFirstArrivals(delivered: seq<Event>, e: Event)
    ensures Unique(delivered) == FirstOccurrences(EventId(), delivered)
    ensures e in Unique(delivered)
       <==> exists i :: 0 <= i < |delivered| && delivered[i] == e && forall j :: 0 <= j < i ==> delivered[j].id != e.id
  {
    DedupeIsFirsts(EventId(), delivered);
    DedupeKeepsFirsts(EventId(), delivered, e);
    if i :| 0 <= i < |delivered| && delivered[i] == e && forall j :: 0 <= j < i ==> delivered[j].id != e.id {
      assert IsFirst(EventId(), delivered, i);
    }
  }

  /** However the deliveries are batched and interleaved, an event that has left
      the list never returns to it. */
  lemma EvictedNeverReturns(delivered: seq<Event>, more: seq<Event>, e: Event)
    requires e in Unique(delivered) && e !in LastN(Unique(delivered), EVENT_LIMIT)
    ensures forall d :: d in LastN(Unique(delivered + more), EVENT_LIMIT) ==> d.id != e.id
  {
    var was, now := Unique(delivered), Unique(delivered + more);
    DedupeAppend(EventId(), {}, delivered, more);
    DedupeDistinct(EventId(), delivered + more);
    var i :| 0 <= i < |was| && was[i] == e;
    var window := LastN(was, EVENT_LIMIT);
    assert forall k :: |was| - |window| <= k < |was| ==> was[k] == window[k - (|was| - |window|)];
    assert now[i] == e;
    var shown := LastN(now, EVENT_LIMIT);
    forall d | d in shown
      ensures d.id != e.id
    {
      var k :| 0 <= k < |shown| && shown[k] == d;
      assert now[|now| - EVENT_LIMIT + k] == d;
    }
  }
}

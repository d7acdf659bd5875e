/** The unified timeline of an interactive session. */
module Timeline {
  import opened Seqs
  import opened JsText
  import opened Sorting

  datatype SessionEvent = SessionEvent(seqNo: nat, level: string, message: string, timestamp: real)

  datatype ConsoleEntry = ConsoleEntry(id: string, timestamp: real, level: string, source: string, message: string)

  datatype NetworkEntry = NetworkEntry(id: string, timestamp: real, verb: string, url: string, status: Option<nat>)

  datatype Kind = Session | Console | Network

  datatype Item = Item(id: string, timestamp: real, kind: Kind, severity: string, source: string, message: string)

  // ---------------------------------------------------------------- items

  function SessionItem(e: SessionEvent): Item {
    Item("s-" + Decimal(e.seqNo), e.timestamp, Session, e.level, "session", e.message)
  }

  function ConsoleItem(classify: string -> string): ConsoleEntry -> Item {
    (e: ConsoleEntry) =>
      Item("c-" + e.id, e.timestamp, Console, if e.level in {"warning", "error"} then e.level else "info",
           classify(e.source), e.message)
  }

  function NetworkItem(e: NetworkEntry): Item {
    Item("n-" + e.id, e.timestamp, Network,
         if e.status.Some? && e.status.value >= 400 then "warning" else "info", "network",
         e.verb + " " + e.url + " \U{2192} " + (if e.status.Some? then Decimal(e.status.value) else "pending"))
  }

  function Time(): Item -> real {
    (x: Item) => x.timestamp
  }

  /** All items, in the order they are pushed. */
  function Pushed(classify: string -> string, events: seq<SessionEvent>, console: seq<ConsoleEntry>,
                  network: seq<NetworkEntry>): seq<Item> {
    Map(SessionItem, events) + Map(ConsoleItem(classify), console) + Map(NetworkItem, network)
  }

  method BuildTimeline(classify: string -> string, events: seq<SessionEvent>, console: seq<ConsoleEntry>,
                       network: seq<NetworkEntry>)
    returns (items: seq<Item>)
    ensures items == Sort(ByKey(Time()), Pushed(classify, events, console, network))
  {
    items := [];
    for i := 0 to |events|
      invariant items == Map(SessionItem, events[..i])
    {
      items := items + [SessionItem(events[i])];
    }
    assert events[..|events|] == events;
    for i := 0 to |console|
      invariant items == Map(SessionItem, events) + Map(ConsoleItem(classify), console[..i])
    {
      items := items + [ConsoleItem(classify)(console[i])];
    }
    assert console[..|console|] == console;
    for i := 0 to |network|
      invariant items == Map(SessionItem, events) + Map(ConsoleItem(classify), console) + Map(NetworkItem, network[..i])
    {
      items := items + [NetworkItem(network[i])];
    }
    assert network[..|network|] == network;
    items := Sort(ByKey(Time()), items);
  }

  // ---------------------------------------------------------------- what the timeline shows

  function Rank(): Item -> int {
    (x: Item) => if x.kind.Session? then 0 else if x.kind.Console? then 1 else 2
  }

  function IsKind(kind: Kind): Item -> bool {
    (x: Item) => x.kind == kind
  }

  /** The timeline is the one arrangement of the items that is in time order and
      keeps the pushed order among equal times. */
  lemma TimelineIsStableSort(items: seq<Item>, timeline: seq<Item>)
    ensures timeline == Sort(ByKey(Time()), items) <==> Sorted(Time(), timeline) && KeepsTies(Time(), timeline, items)
    ensures timeline == Sort(ByKey(Time()), items) ==> multiset(timeline) == multiset(items)
  {
    var sorted := Sort(ByKey(Time()), items);
    SortSorts(Time(), items);
    SortKeepsTies(Time(), items);
    SortPermutes(ByKey(Time()), items);
    if Sorted(Time(), timeline) && KeepsTies(Time(), timeline, items) {
      assert forall k: real ::
               Filter(timeline, KeyIs(Time(), k)) == Filter(items, KeyIs(Time(), k))
                 == Filter(sorted, KeyIs(Time(), k));
      SortIsUnique(Time(), timeline, sorted);
    }
  }

  /** Item `x` shows the session event. */
  predicate ShowsSession(x: Item, e: SessionEvent) {
    && x.kind == Session && x.timestamp == e.timestamp && x.message == e.message && x.severity == e.level
    && x.source == "session" && x.id == "s-" + Decimal(e.seqNo)
  }

  /** Item `x` shows the console entry: a warning or an error as such, anything else as
      information. */
  predicate ShowsConsole(classify: string -> string, x: Item, e: ConsoleEntry) {
    && x.kind == Console && x.timestamp == e.timestamp && x.message == e.message && x.id == "c-" + e.id
    && x.source == classify(e.source)
    && (e.level == "warning" || e.level == "error" ==> x.severity == e.level)
    && (e.level != "warning" && e.level != "error" ==> x.severity == "info")
  }

  /** Item `x` shows the request: a warning exactly from status 400 on, "pending" without
      a status. */
  predicate ShowsNetwork(x: Item, e: NetworkEntry) {
    && x.kind == Network && x.timestamp == e.timestamp && x.id == "n-" + e.id && x.source == "network"
    && (x.severity == "warning" || x.severity == "info")
    && match e.status
       case None => x.severity == "info" && x.message == e.verb + " " + e.url + " → pending"
       case Some(status) =>
         (x.severity == "warning" <==> status >= 400) && x.message == e.verb + " " + e.url + " → " + Decimal(status)
  }

  /** One item for every entry, in the order of the sources: with the timeline being the
      stable sort of these, everything is shown once, at its own time. */
  lemma ShowsEveryEntry(classify: string -> string, events: seq<SessionEvent>, console: seq<ConsoleEntry>,
                        network: seq<NetworkEntry>)
    ensures var items, n, m := Pushed(classify, events, console, network), |events|, |events| + |console|;
            && |items| == m + |network|
            && (forall i :: 0 <= i < n ==> ShowsSession(items[i], events[i]))
            && (forall i :: n <= i < m ==> ShowsConsole(classify, items[i], console[i - n]))
            && (forall i :: m <= i < |items| ==> ShowsNetwork(items[i], network[i - m]))
  {
    var items, n, m := Pushed(classify, events, console, network), |events|, |events| + |console|;
    assert forall i :: 0 <= i < n ==> items[i] == SessionItem(events[i]);
    assert forall i :: n <= i < m ==> items[i] == ConsoleItem(classify)(console[i - n]);
    forall i | m <= i < |items|
      ensures ShowsNetwork(items[i], network[i - m])
    {
      RequestShown(network[i - m]);
    }
  }

  lemma RequestShown(e: NetworkEntry)
    ensures ShowsNetwork(NetworkItem(e), e)
  {
    assert " \U{2192} " == " → ";
    assert " → " + "pending" == " → pending";
    assert e.verb + " " + e.url + (" → " + "pending") == e.verb + " " + e.url + " → " + "pending";
  }

  lemma {:induction false} FilteredKind(s: seq<Item>, p: Item -> bool, kind: Kind, x: Item)
    requires forall y :: y in s ==> y.kind == kind
    requires x in Filter(s, p)
    ensures x.kind == kind
  {
    FilterMember(s, p, x);
  }

  lemma PushedKinds(classify: string -> string, events: seq<SessionEvent>, console: seq<ConsoleEntry>,
                    network: seq<NetworkEntry>)
    ensures forall x :: x in Map(SessionItem, events) ==> x.kind == Session
    ensures forall x :: x in Map(ConsoleItem(classify), console) ==> x.kind == Console
    ensures forall x :: x in Map(NetworkItem, network) ==> x.kind == Network
  {
    forall x | x in Map(SessionItem, events)
      ensures x.kind == Session
    {
      MapMember(SessionItem, events, x);
    }
    forall x | x in Map(NetworkItem, network)
      ensures x.kind == Network
    {
      MapMember(NetworkItem, network, x);
    }
  }

  /** At equal times: session before console before network. */
  lemma TiesOrderBySource(classify: string -> string, events: seq<SessionEvent>, console: seq<ConsoleEntry>,
                          network: seq<NetworkEntry>,
                          i: nat, j: nat)
    requires var items := Sort(ByKey(Time()), Pushed(classify, events, console, network));
             i < j < |items| && items[i].timestamp == items[j].timestamp
    ensures var items := Sort(ByKey(Time()), Pushed(classify, events, console, network));
            Rank()(items[i]) <= Rank()(items[j])
  {
    var a, b, c := Map(SessionItem, events), Map(ConsoleItem(classify), console), Map(NetworkItem, network);
    var items := Sort(ByKey(Time()), a + b + c);
    var p := KeyIs(Time(), items[i].timestamp);
    SortKeepsTies(Time(), a + b + c);
    FilterAppend(a + b, c, p);
    FilterAppend(a, b, p);
    PushedKinds(classify, events, console, network);
    TiedRanks(a, b, c, p);
    assert Filter(items, p) == Filter(a, p) + Filter(b, p) + Filter(c, p);
    RankInFilter(items, p, Rank(), i, j);
  }

  lemma TiedRanks(a: seq<Item>, b: seq<Item>, c: seq<Item>, p: Item -> bool)
    requires forall x :: x in a ==> x.kind == Session
    requires forall x :: x in b ==> x.kind == Console
    requires forall x :: x in c ==> x.kind == Network
    ensures var tied := Filter(a, p) + Filter(b, p) + Filter(c, p);
            forall i, j :: 0 <= i < j < |tied| ==> Rank()(tied[i]) <= Rank()(tied[j])
  {
    forall x | x in Filter(a, p)
      ensures x.kind == Session
    {
      FilteredKind(a, p, Session, x);
    }
    forall x | x in Filter(b, p)
      ensures x.kind == Console
    {
      FilteredKind(b, p, Console, x);
    }
    forall x | x in Filter(c, p)
      ensures x.kind == Network
    {
      FilteredKind(c, p, Network, x);
    }
  }

  /** Every source stands in the timeline as its own sort, and so unchanged when it
      was in time order already. */
  lemma SourcesKeepTheirOrder(classify: string -> string, events: seq<SessionEvent>, console: seq<ConsoleEntry>,
                              network: seq<NetworkEntry>)
    ensures var items := Sort(ByKey(Time()), Pushed(classify, events, console, network));
            && Filter(items, IsKind(Session)) == Sort(ByKey(Time()), Map(SessionItem, events))
            && Filter(items, IsKind(Console)) == Sort(ByKey(Time()), Map(ConsoleItem(classify), console))
            && Filter(items, IsKind(Network)) == Sort(ByKey(Time()), Map(NetworkItem, network))
    ensures var items := Sort(ByKey(Time()), Pushed(classify, events, console, network));
            && (Sorted(Time(), Map(SessionItem, events)) ==> Filter(items, IsKind(Session)) == Map(SessionItem, events))
            && (Sorted(Time(), Map(ConsoleItem(classify), console)) ==>
                 Filter(items, IsKind(Console)) == Map(ConsoleItem(classify), console))
            && (Sorted(Time(), Map(NetworkItem, network)) ==>
                 Filter(items, IsKind(Network)) == Map(NetworkItem, network))
  {
    var a, b, c := Map(SessionItem, events), Map(ConsoleItem(classify), console), Map(NetworkItem, network);
    PushedKinds(classify, events, console, network);
    OneKind(a, b, c, Session);
    OneKind(a, b, c, Console);
    OneKind(a, b, c, Network);
    OwnOrder(a, b, c, Session, a);
    OwnOrder(a, b, c, Console, b);
    OwnOrder(a, b, c, Network, c);
  }

  lemma OneKind(a: seq<Item>, b: seq<Item>, c: seq<Item>, kind: Kind)
    requires forall x :: x in a ==> x.kind == Session
    requires forall x :: x in b ==> x.kind == Console
    requires forall x :: x in c ==> x.kind == Network
    ensures Filter(a + b + c, IsKind(kind)) == if kind.Session? then a else if kind.Console? then b else c
  {
    var p := IsKind(kind);
    FilterAppend(a + b, c, p);
    FilterAppend(a, b, p);
    if kind.Session? {
      FilterAll(a, p);
      FilterNone(b, p);
      FilterNone(c, p);
    } else if kind.Console? {
      FilterNone(a, p);
      FilterAll(b, p);
      FilterNone(c, p);
    } else {
      FilterNone(a, p);
      FilterNone(b, p);
      FilterAll(c, p);
    }
  }

  lemma OwnOrder(a: seq<Item>, b: seq<Item>, c: seq<Item>, kind: Kind, own: seq<Item>)
    requires Filter(a + b + c, IsKind(kind)) == own
    ensures Filter(Sort(ByKey(Time()), a + b + c), IsKind(kind)) == Sort(ByKey(Time()), own)
    ensures Sorted(Time(), own) ==> Sort(ByKey(Time()), own) == own
  {
    SortFilter(Time(), a + b + c, IsKind(kind));
    if Sorted(Time(), own) {
      SortOfSorted(Time(), own);
    }
  }
}

/** One AI request: an atomic step up to the provider call, and an atomic step
    from its reply on. Any number of requests may be suspended in between. */
module Service {
  import opened Seqs
  import opened JsText
  import opened Json
  import opened AIErrors
  import opened AIContext
  import opened AIOutput
  import opened ContextSource
  import opened ContextBuild
  import opened Quota
  import G = Gate

  datatype Ask = Ask(user: string, feature: Feature, source: Source, focus: Focus, target: Option<string>)

  /** Configuration, and the pure parts of the pipeline as functions. */
  datatype Settings = Settings(
    enabled: bool, limits: G.Limits, maxResponse: nat, retain: bool, plan: string -> Plan,
    build: Ask -> Result<Context, BuildError>,
    parse: string -> Result<Json, string>,
    validate: (Feature, Json, Context) -> Result<Output, string>,
    hash: Context -> string)

  datatype Key = Key(user: string, feature: Feature, resourceKind: string, resourceId: string, target: Option<string>,
                     hash: string)

  datatype Stored = Stored(key: Key, output: Output, expiresAt: int)

  /** A suspended or finished request. `Unsaved` is an answer that was charged for
      and then lost, because storing it failed: the caller gets an error. */
  datatype Phase = Waiting | Refused(code: Code) | Answered(output: Output) | Unsaved(output: Output)

  datatype Call = Call(request: Ask, context: Context, row: nat, slot: nat, phase: Phase)

  /** The stores and the calls so far. The last three fields are history: the
      reservations made here, those whose release could not be written, and those
      consumed here. */
  datatype World = World(
    gate: G.GateState, ledger: Ledger, cache: seq<Stored>, calls: seq<Call>,
    ours: set<nat>, stuck: set<nat>, charged: set<nat>)

  const EMPTY_WORLD := World(G.EMPTY_GATE, EMPTY_LEDGER, [], [], {}, {}, {})

  datatype Started = Failed(code: Code) | Cached(output: Output) | Suspended(index: nat)

  datatype BeginFaults = BeginFaults(lookupThrows: bool, reserveThrows: bool, promptThrows: bool, releaseThrows: bool)

  datatype EndFaults = EndFaults(consumeThrows: bool, insertThrows: bool, releaseThrows: bool)

  datatype Failure = Coded(code: Code) | Aborted | Foreign

  datatype Reply = Threw(failure: Failure) | Returned(text: Option<string>)

  // ---------------------------------------------------------------- lookups

  function CodeOf(e: BuildError): Code {
    match e
    case Coded(code) => code
    case MissingFocus => Unavailable
  }

  function HashOf(s: Settings, c: Context): string {
    s.hash(c.(bytes := 0))
  }

  function KeyOf(s: Settings, r: Ask, c: Context): Key {
    Key(r.user, r.feature, r.source.resourceKind, r.source.resourceId, r.target, HashOf(s, c))
  }

  /** The newest unexpired result under a key. */
  function FindStored(cache: seq<Stored>, key: Key, now: int): (r: Option<Output>)
    ensures r.Some? ==>
              exists i :: 0 <= i < |cache| && cache[i].key == key && cache[i].expiresAt > now
                          && cache[i].output == r.value
                          && forall j :: i < j < |cache| ==> cache[j].key != key || cache[j].expiresAt <= now
    ensures r.None? ==> forall i :: 0 <= i < |cache| ==> cache[i].key != key || cache[i].expiresAt <= now
    decreases |cache|
  {
    if cache == [] then None
    else
      var last := cache[|cache| - 1];
      if last.key == key && last.expiresAt > now then Some(last.output) else FindStored(cache[..|cache| - 1], key, now)
  }

  /** What the provider's reply comes to. */
  function JudgeReply(s: Settings, feature: Feature, c: Context, reply: Reply): Result<Output, Code> {
    match reply
    case Threw(Coded(code)) => Err(code)
    case Threw(Aborted) => Err(Timeout)
    case Threw(Foreign) => Err(Unavailable)
    case Returned(None) => Err(InvalidOutput)
    case Returned(Some(text)) =>
      if Trim(text) == "" || |text| > s.maxResponse then Err(InvalidOutput)
      else
        var parsed := s.parse(text);
        if parsed.Err? then Err(InvalidOutput)
        else
          var output := s.validate(feature, parsed.value, c);
          if output.Err? then Err(InvalidOutput) else Ok(output.value)
  }

  // ---------------------------------------------------------------- the two steps

  /** Giving a reservation back, unless the write fails. */
  function Undo(w: World, row: nat, releaseThrows: bool): World {
    if releaseThrows then w.(stuck := w.stuck + {row}) else w.(ledger := Release(w.ledger, row))
  }

  function Refusal(code: Code, releaseThrows: bool): Code {
    if releaseThrows then Unavailable else code
  }

  /** With the reservation made: a slot, the prompt, the provider call. */
  function Hold(s: Settings, w: World, r: Ask, c: Context, row: nat, f: BeginFaults): (World, Started) {
    var slot := |w.gate.slots|;
    match G.Acquire(w.gate, r.user, s.limits)
    case Err(code) => (Undo(w, row, f.releaseThrows), Failed(Refusal(code, f.releaseThrows)))
    case Ok(gate) =>
      if f.promptThrows then
        (Undo(w, row, f.releaseThrows).(gate := G.Release(gate, slot)), Failed(Unavailable))
      else
        (w.(gate := gate, calls := w.calls + [Call(r, c, row, slot, Waiting)]), Suspended(|w.calls|))
  }

  /** The world with a reservation for the request. */
  function Reserved(w: World, r: Ask): World {
    w.(ledger := Reserve(w.ledger, r.user, AIRequest, r.source.resourceId), ours := w.ours + {|w.ledger.rows|})
  }

  function Enter(s: Settings, w: World, r: Ask, c: Context, f: BeginFaults): (World, Started) {
    var row := |w.ledger.rows|;
    Hold(s, Reserved(w, r), r, c, row, f)
  }

  function Begin(s: Settings, w: World, r: Ask, now: int, f: BeginFaults): (World, Started) {
    if !s.enabled then (w, Failed(NotConfigured))
    else
      match s.build(r)
      case Err(e) => (w, Failed(CodeOf(e)))
      case Ok(c) =>
        var found := if s.retain then FindStored(w.cache, KeyOf(s, r, c), now) else None;
        if s.retain && f.lookupThrows then (w, Failed(Unavailable))
        else if found.Some? then (w, Cached(found.value))
        else if f.reserveThrows then (w, Failed(Unavailable))
        else if !CanUseAI(s.plan(r.user), w.ledger, r.user) then (w, Failed(QuotaExceeded))
        else Enter(s, w, r, c, f)
  }

  function Charge(w: World, row: nat): World {
    w.(ledger := Consume(w.ledger, row), charged := if Settleable(w.ledger, row) then w.charged + {row} else w.charged)
  }

  /** From the reply to the end of the `catch`: stores, and how the call ended. */
  function Conclude(s: Settings, w: World, call: Call, reply: Reply, expiresAt: int, f: EndFaults): (World, Phase) {
    match JudgeReply(s, call.request.feature, call.context, reply)
    case Err(code) => (Undo(w, call.row, f.releaseThrows), Refused(Refusal(code, f.releaseThrows)))
    case Ok(output) =>
      if f.consumeThrows then (Undo(w, call.row, f.releaseThrows), Refused(Unavailable))
      else if !s.retain then (Charge(w, call.row), Answered(output))
      else if f.insertThrows then (Undo(Charge(w, call.row), call.row, f.releaseThrows), Unsaved(output))
      else
        (Charge(w, call.row).(cache := w.cache + [Stored(KeyOf(s, call.request, call.context), output, expiresAt)]),
          Answered(output))
  }

  /** The `finally` releases the slot whatever happened. */
  function Finish(s: Settings, w: World, i: nat, reply: Reply, expiresAt: int, f: EndFaults): World
    requires i < |w.calls| && w.calls[i].slot < |w.gate.slots|
  {
    var call := w.calls[i];
    var (ended, phase) := Conclude(s, w, call, reply, expiresAt, f);
    ended.(gate := G.Release(w.gate, call.slot), calls := w.calls[i := call.(phase := phase)])
  }

  // ---------------------------------------------------------------- runs

  /** A step of this process or of the rest of the system, which reserves for other
      work and settles reservations by resource or by age. */
  datatype Op =
    | Start(request: Ask, now: int, begin: BeginFaults)
    | Resume(index: nat, reply: Reply, expiresAt: int, end: EndFaults)
    | ReserveElsewhere(user: string, kind: Kind, resource: string)
    | ConsumeFor(resource: string)
    | ReleaseFor(resource: string)
    | Sweep(row: nat)
    | Forget(index: nat)

  predicate CanResume(w: World, i: nat) {
    i < |w.calls| && w.calls[i].phase.Waiting? && w.calls[i].slot < |w.gate.slots|
  }

  function Apply(s: Settings, w: World, op: Op): World {
    match op
    case Start(r, now, f) => Begin(s, w, r, now, f).0
    case Resume(i, reply, expiresAt, f) => if CanResume(w, i) then Finish(s, w, i, reply, expiresAt, f) else w
    case ReserveElsewhere(user, kind, resource) =>
      if kind.AIRequest? && !CanUseAI(s.plan(user), w.ledger, user) then w
      else w.(ledger := Reserve(w.ledger, user, kind, resource))
    case ConsumeFor(resource) => w.(ledger := ConsumeForResource(w.ledger, resource))
    case ReleaseFor(resource) => w.(ledger := ReleaseForResource(w.ledger, resource))
    case Sweep(row) => w.(ledger := Release(w.ledger, row))
    case Forget(i) => if i < |w.cache| then w.(cache := w.cache[..i] + w.cache[i + 1..]) else w
  }

  function After(s: Settings, w: World, ops: seq<Op>): World
    decreases |ops|
  {
    if ops == [] then w else After(s, Apply(s, w, ops[0]), ops[1..])
  }
}

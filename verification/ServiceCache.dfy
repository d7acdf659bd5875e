/** What answers cite: the cache agrees with the current context, and nothing cited
    is made up. */
module ServiceCache {
  import opened Seqs
  import opened Json
  import opened AIContext
  import opened AIOutput
  import opened ContextBuild
  import opened ContextGuarantees
  import opened Schema
  import opened Service
  import opened ServiceSafety
  import opened TestSuggestions

  /** No call so far worked on a context that differs from `c`, byte count aside, and
      has its hash. */
  ghost predicate NoCollision(s: Settings, calls: seq<Call>, c: Context) {
    forall i :: 0 <= i < |calls| && HashOf(s, calls[i].context) == HashOf(s, c) ==>
      calls[i].context.(bytes := 0) == c.(bytes := 0)
  }

  /** The same user asked for the same feature about the same target. */
  predicate SameTarget(a: Ask, b: Ask) {
    && a.user == b.user && a.feature == b.feature && a.target == b.target
    && a.source.resourceKind == b.source.resourceKind && a.source.resourceId == b.source.resourceId
  }

  lemma HitIsStored(s: Settings, w: World, r: Ask, now: int, f: BeginFaults) returns (k: nat)
    requires Begin(s, w, r, now, f).1.Cached?
    ensures s.build(r).Ok? && k < |w.cache| && w.cache[k].key == KeyOf(s, r, s.build(r).value)
    ensures w.cache[k].output == Begin(s, w, r, now, f).1.output
  {
    k :| 0 <= k < |w.cache| && w.cache[k].key == KeyOf(s, r, s.build(r).value)
         && w.cache[k].output == Begin(s, w, r, now, f).1.output;
  }

  /** A stored result is the answer of a call of the run, validated in its context. */
  lemma EntryAnswered(s: Settings, w: World, k: nat) returns (i: nat)
    requires Inv(s, w) && k < |w.cache|
    ensures i < |w.calls| && w.calls[i].phase == Answered(w.cache[k].output)
    ensures KeyOf(s, w.calls[i].request, w.calls[i].context) == w.cache[k].key
    ensures Validated(s, w.calls[i].request.feature, w.calls[i].context, w.cache[k].output)
  {
    assert SoundEntry(s, w.calls, w.cache[k]);
    i :| 0 <= i < |w.calls| && AnsweredAs(s, w.calls[i], w.cache[k].key, w.cache[k].output);
    assert SoundCall(s, w.calls[i]);
  }

  /** A hit is the answer of an earlier call of the same user about the same target,
      validated against a context with the current hash; without a collision that
      context is the current one, byte count aside. */
  lemma HitWasValidated(s: Settings, ops: seq<Op>, r: Ask, now: int, f: BeginFaults) returns (i: nat)
    requires Begin(s, After(s, EMPTY_WORLD, ops), r, now, f).1.Cached?
    ensures var w := After(s, EMPTY_WORLD, ops);
            var output := Begin(s, w, r, now, f).1.output;
            && s.build(r).Ok? && i < |w.calls|
            && w.calls[i].phase == Answered(output)
            && SameTarget(w.calls[i].request, r)
            && s.hash(w.calls[i].context.(bytes := 0)) == s.hash(s.build(r).value.(bytes := 0))
            && Validated(s, r.feature, w.calls[i].context, output)
            && (NoCollision(s, w.calls, s.build(r).value) ==>
                 w.calls[i].context.(bytes := 0) == s.build(r).value.(bytes := 0))
  {
    var w := After(s, EMPTY_WORLD, ops);
    InitiallySafe(s);
    EveryRunIsSafe(s, EMPTY_WORLD, ops);
    var k := HitIsStored(s, w, r, now, f);
    i := EntryAnswered(s, w, k);
  }

  /** The deployed pipeline: contexts built to a budget, answers validated against
      them. */
  function Deployed(s: Settings, rules: Rules, measure: Context -> nat, maxBytes: int): Settings {
    s.(build := (r: Ask) => BuildWith(rules.host, measure, r.source, Options(r.feature, maxBytes, r.focus)),
       validate := (feature: Feature, raw: Json, c: Context) =>
         ValidateOutput(rules.host, feature, raw, c, Validator(rules, c.evidenceIndex)))
  }

  lemma ValidatedCites(s: Settings, rules: Rules, measure: Context -> nat, maxBytes: int,
                       feature: Feature, c: Context, output: Output, ref: Ref)
    requires Validated(Deployed(s, rules, measure, maxBytes), feature, c, output) && Cites(output, ref)
    ensures ref in c.evidenceIndex
  {
    var raw: Json :| Deployed(s, rules, measure, maxBytes).validate(feature, raw, c) == Ok(output);
    ValidatorCitesIndex(rules, c.evidenceIndex);
    OutputCitesContext(rules.host, feature, raw, c, Validator(rules, c.evidenceIndex), ref);
  }

  /** Without a collision, whatever a cache hit cites is in the current context, and
      descends from the current request's own records. */
  lemma HitCitesCurrentRecords(s: Settings, rules: Rules, measure: Context -> nat, maxBytes: int, ops: seq<Op>,
                               r: Ask, now: int, f: BeginFaults, c: Context, ref: Ref)
    requires var live := Deployed(s, rules, measure, maxBytes);
             var w := After(live, EMPTY_WORLD, ops);
             && live.build(r) == Ok(c) && NoCollision(live, w.calls, c)
             && Begin(live, w, r, now, f).1.Cached? && Cites(Begin(live, w, r, now, f).1.output, ref)
    ensures ref in c.evidenceIndex && SourceRef(rules.host, r.source, ref)
  {
    var live := Deployed(s, rules, measure, maxBytes);
    var w := After(live, EMPTY_WORLD, ops);
    var i := HitWasValidated(live, ops, r, now, f);
    var was := w.calls[i].context;
    ValidatedCites(s, rules, measure, maxBytes, r.feature, was, Begin(live, w, r, now, f).1.output, ref);
    assert was.(bytes := 0).evidenceIndex == c.(bytes := 0).evidenceIndex;
    NothingInvented(rules.host, measure, r.source, Options(r.feature, maxBytes, r.focus), ref);
  }

  /** The same for an answer delivered by any finished call. */
  lemma AnswerCitesOwnRecords(s: Settings, rules: Rules, measure: Context -> nat, maxBytes: int, ops: seq<Op>, i: nat,
                              ref: Ref)
    requires var w := After(Deployed(s, rules, measure, maxBytes), EMPTY_WORLD, ops);
             i < |w.calls| && w.calls[i].phase.Answered? && Cites(w.calls[i].phase.output, ref)
    ensures var call := After(Deployed(s, rules, measure, maxBytes), EMPTY_WORLD, ops).calls[i];
            ref in call.context.evidenceIndex && SourceRef(rules.host, call.request.source, ref)
  {
    var live := Deployed(s, rules, measure, maxBytes);
    var w := After(live, EMPTY_WORLD, ops);
    InitiallySafe(live);
    EveryRunIsSafe(live, EMPTY_WORLD, ops);
    var call := w.calls[i];
    assert SoundCall(live, call);
    ValidatedCites(s, rules, measure, maxBytes, call.request.feature, call.context, call.phase.output, ref);
    NothingInvented(rules.host, measure, call.request.source,
      Options(call.request.feature, maxBytes, call.request.focus), ref);
  }
}

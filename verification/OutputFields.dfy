/** When an answer is accepted, and which key of the model's reply each of its fields is
    the bounded clean form of. */
module OutputFields {
  import opened Seqs
  import opened Json
  import opened AIContext
  import opened AIOutput
  import opened ContextBuild
  import opened Schema

  // ---------------------------------------------------------------- single fields

  /** Where a violation is reported: at a key of the reply. */
  function Path(key: string): string {
    "$." + key
  }

  function Bounded(s: string, max: nat): string
    requires max >= 1
  {
    if |s| <= max then s else s[..max - 1] + "…"
  }

  /** The text under `key`, white space squeezed and secrets removed. */
  function CleanUnder(h: Host, raw: Json, key: string): string {
    if Field(raw, key).Text? then h.redact(Squash(Field(raw, key).text)) else ""
  }

  /** `out` is the text under `key`: cleaned, not empty, and cut to `max` characters. */
  predicate TextHolds(h: Host, raw: Json, key: string, max: nat, out: string)
    requires max >= 1
  {
    CleanUnder(h, raw, key) != "" && out == Bounded(CleanUnder(h, raw, key), max)
  }

  lemma TextFieldExactly(h: Host, raw: Json, key: string, max: nat, out: string)
    requires max >= 1
    ensures TextField(h, raw, key, max) == Ok(out) <==> TextHolds(h, raw, key, max, out)
    ensures TextField(h, raw, key, max).Err? ==> TextField(h, raw, key, max).error == Path(key)
  {
  }

  predicate ConfidenceHolds(raw: Json, out: string) {
    Field(raw, "confidence") == Text(out) && (out == "high" || out == "medium" || out == "low")
  }

  lemma ConfidenceExactly(raw: Json, out: string)
    ensures ConfidenceField(raw) == Ok(out) <==> ConfidenceHolds(raw, out)
    ensures ConfidenceField(raw).Err? ==> ConfidenceField(raw).error == Path("confidence")
  {
  }

  // ---------------------------------------------------------------- lists of text

  /** Each text cleaned and cut to 400 characters, those that are empty once cleaned
      left out. */
  function UsableOf(h: Host, items: seq<Json>): seq<string> {
    if items == [] then []
    else
      var last := items[|items| - 1];
      var cleaned := if last.Text? then h.redact(Squash(last.text)) else "";
      UsableOf(h, items[..|items| - 1]) + (if cleaned == "" then [] else [Bounded(cleaned, 400)])
  }

  /** The first `n` items are texts, `out` is what is usable of them, and they are all
      the items or enough of them. */
  predicate TakesTexts(h: Host, items: seq<Json>, max: nat, out: seq<string>, n: nat) {
    && n <= |items| && (forall i :: 0 <= i < n ==> items[i].Text?)
    && out == UsableOf(h, items[..n]) && |out| <= max && (n == |items| || |out| == max)
  }

  ghost predicate ListHolds(h: Host, raw: Json, key: string, max: nat, optional: bool, out: seq<string>) {
    match Field(raw, key)
    case Undefined => optional && out == []
    case Null => optional && out == []
    case Array(items) => exists n :: TakesTexts(h, items, max, out, n)
    case _ => false
  }

  lemma {:induction false} UsablePrefixIs(h: Host, items: seq<Json>, i: nat)
    requires i <= |items| && forall k :: 0 <= k < i ==> items[k].Text?
    ensures UsablePrefix(h, items, i) == UsableOf(h, items[..i])
  {
    if i == 0 {
      assert items[..0] == [];
    } else {
      UsablePrefixIs(h, items, i - 1);
      NextText(h, items, i - 1);
      assert items[..i][..i - 1] == items[..i - 1];
    }
  }

  /** Where the loop over the items ends, when it ends well. */
  lemma TextsEnd(h: Host, items: seq<Json>, max: nat, i: nat) returns (n: nat)
    requires max >= 1 && i <= |items| && (forall k :: 0 <= k < i ==> items[k].Text?)
    requires |UsablePrefix(h, items, i)| < max && TextsOf(h, items, max).Some?
    ensures TakesTexts(h, items, max, TextsOf(h, items, max).value, n)
    decreases |items| - i
  {
    UsablePrefixIs(h, items, i);
    if i == |items| {
      StopAtMax(h, items, i, max);
      n := i;
    } else {
      if !items[i].Text? {
        StopAtNonText(h, items, i, max);
      }
      NextText(h, items, i);
      UsablePrefixIs(h, items, i + 1);
      assert forall k :: 0 <= k < i + 1 ==> items[k].Text?;
      if |UsablePrefix(h, items, i + 1)| == max {
        StopAtMax(h, items, i + 1, max);
        n := i + 1;
      } else {
        n := TextsEnd(h, items, max, i + 1);
      }
    }
  }

  lemma TextsExactly(h: Host, items: seq<Json>, max: nat, out: seq<string>)
    requires max >= 1
    ensures TextsOf(h, items, max) == Some(out) <==> exists n :: TakesTexts(h, items, max, out, n)
  {
    if n :| TakesTexts(h, items, max, out, n) {
      UsablePrefixIs(h, items, n);
      StopAtMax(h, items, n, max);
    }
    if TextsOf(h, items, max) == Some(out) {
      assert UsablePrefix(h, items, 0) == [];
      var n := TextsEnd(h, items, max, 0);
    }
  }

  lemma ListFieldExactly(h: Host, raw: Json, key: string, max: nat, optional: bool, out: seq<string>)
    requires max >= 1
    ensures ListField(h, raw, key, max, optional) == Ok(out) <==> ListHolds(h, raw, key, max, optional, out)
    ensures ListField(h, raw, key, max, optional).Err? ==> ListField(h, raw, key, max, optional).error == Path(key)
  {
    if Field(raw, key).Array? {
      TextsExactly(h, Field(raw, key).items, max, out);
    }
  }

  // ---------------------------------------------------------------- evidence

  /** The position of the index entry a citation means: the first of its kind and id. */
  predicate Means(index: seq<Ref>, item: Json, i: nat) {
    && i < |index| && Field(item, "kind") == Text(index[i].kind) && Field(item, "id") == Text(index[i].id)
    && index[i].kind in ["finding", "test", "diagnostic", "file", "event", "network", "report_section", "permission"]
    && forall j :: 0 <= j < i ==> index[j].kind != index[i].kind || index[j].id != index[i].id
  }

  /** A citation resolves to the first index entry of its kind and id, if its kind is one
      of the eight and there is such an entry. */
  lemma CitationResolvesExactly(index: seq<Ref>, item: Json, ref: Ref)
    ensures RefOf(index, item) == Some(ref) <==> exists i: nat :: Means(index, item, i) && index[i] == ref
  {
    if i: nat :| Means(index, item, i) && index[i] == ref {
      FindFirst(index, RefIs(ref.kind, ref.id), i);
    }
    if RefOf(index, item) == Some(ref) {
      var i := FindIsFirst(index, RefIs(Field(item, "kind").text, Field(item, "id").text));
      assert Means(index, item, i) && index[i] == ref;
    }
  }

  /** `out` is, citation by citation, what those that resolve mean. */
  predicate Resolves(index: seq<Ref>, items: seq<Json>, out: seq<Ref>)
    decreases |items|
  {
    if items == [] then out == []
    else if exists i :: 0 <= i < |index| && Means(index, items[0], i) then
      out != [] && (exists i :: 0 <= i < |index| && Means(index, items[0], i) && out[0] == index[i])
      && Resolves(index, items[1..], out[1..])
    else Resolves(index, items[1..], out)
  }

  lemma Meaning(index: seq<Ref>, item: Json)
    ensures RefOf(index, item).Some? <==> exists i :: 0 <= i < |index| && Means(index, item, i)
    ensures forall i :: 0 <= i < |index| && Means(index, item, i) ==> RefOf(index, item) == Some(index[i])
  {
    forall i | 0 <= i < |index| && Means(index, item, i)
      ensures RefOf(index, item) == Some(index[i])
    {
      CitationResolvesExactly(index, item, index[i]);
    }
    if RefOf(index, item).Some? {
      CitationResolvesExactly(index, item, RefOf(index, item).value);
    }
  }

  lemma {:induction false} ResolvedResolves(index: seq<Ref>, items: seq<Json>)
    ensures Resolves(index, items, Resolved(index, items))
    decreases |items|
  {
    if items != [] {
      ResolvedResolves(index, items[1..]);
      Meaning(index, items[0]);
      if RefOf(index, items[0]).Some? {
        var i :| 0 <= i < |index| && Means(index, items[0], i);
        assert Resolved(index, items) == [index[i]] + Resolved(index, items[1..]);
      } else {
        assert Resolved(index, items) == Resolved(index, items[1..]);
      }
    }
  }

  predicate SameCitation(a: Ref, b: Ref) {
    a.kind == b.kind && a.id == b.id
  }

  /** The evidence of an answer: what its citations mean, without repeats, the first
      twelve. */
  ghost predicate EvidenceHolds(index: seq<Ref>, value: Json, out: seq<Ref>) {
    match value
    case Undefined => out == []
    case Null => out == []
    case Array(items) =>
      exists meant, kept :: Resolves(index, items, meant) && FirstOfEach(meant, kept)
                            && out == if |kept| <= 12 then kept else kept[..12]
    case _ => false
  }

  /** `kept` is `s` without the entries that repeat an earlier one's kind and id. */
  predicate FirstOfEach(s: seq<Ref>, kept: seq<Ref>)
    decreases |s|
  {
    if s == [] then kept == []
    else
      var init, last := s[..|s| - 1], s[|s| - 1];
      if exists j :: 0 <= j < |init| && SameCitation(init[j], last) then FirstOfEach(init, kept)
      else kept != [] && kept[|kept| - 1] == last && FirstOfEach(init, kept[..|kept| - 1])
  }

  lemma {:induction false} FirstOccurrencesAre(s: seq<Ref>, kept: seq<Ref>)
    ensures FirstOfEach(s, kept) <==> kept == FirstOccurrences(RefKey(), s)
    decreases |s|
  {
    if s != [] {
      var init, last := s[..|s| - 1], s[|s| - 1];
      assert forall j :: 0 <= j < |init| ==> (SameCitation(init[j], last) <==> RefKey()(s[j]) == RefKey()(last));
      if exists j :: 0 <= j < |init| && SameCitation(init[j], last) {
        FirstOccurrencesAre(init, kept);
      } else if kept != [] {
        FirstOccurrencesAre(init, kept[..|kept| - 1]);
        assert kept == kept[..|kept| - 1] + [kept[|kept| - 1]];
      }
    }
  }

  lemma {:induction false} ResolvesOnce(index: seq<Ref>, items: seq<Json>, out: seq<Ref>)
    requires Resolves(index, items, out)
    ensures out == Resolved(index, items)
    decreases |items|
  {
    if items != [] {
      Meaning(index, items[0]);
      if RefOf(index, items[0]).Some? {
        ResolvesOnce(index, items[1..], out[1..]);
        assert out == [out[0]] + out[1..];
      } else {
        ResolvesOnce(index, items[1..], out);
        assert Resolved(index, items) == Resolved(index, items[1..]);
      }
    }
  }

  lemma EvidenceFieldExactly(value: Json, index: seq<Ref>, path: string, out: seq<Ref>)
    ensures EvidenceField(value, index, path) == Ok(out) <==> EvidenceHolds(index, value, out)
    ensures EvidenceField(value, index, path).Err? ==> EvidenceField(value, index, path).error == path + ".evidence"
  {
    if value.Array? {
      EvidenceTakesFirsts(index, value.items);
      ResolvedResolves(index, value.items);
      var meant := Resolved(index, value.items);
      FirstOccurrencesAre(meant, FirstOccurrences(RefKey(), meant));
      if EvidenceHolds(index, value, out) {
        var m, kept :| Resolves(index, value.items, m) && FirstOfEach(m, kept)
                       && out == if |kept| <= 12 then kept else kept[..12];
        ResolvesOnce(index, value.items, m);
        FirstOccurrencesAre(m, kept);
      }
    }
  }

  // ---------------------------------------------------------------- suggested tests

  ghost predicate HasId(tests: seq<SuggestedTest>, id: string) {
    exists i :: 0 <= i < |tests| && tests[i].id == id
  }

  /** The last refusal is `refusal`, and before it `candidates` led to the rest. */
  ghost predicate RefusesLast(validate: Json -> Verdict, candidates: seq<Json>, tests: seq<SuggestedTest>,
                              rejected: seq<Rejection>, refusal: Rejection)
    decreases |candidates|, 1
  {
    rejected != [] && rejected[|rejected| - 1] == refusal
    && Sorts(validate, candidates, tests, rejected[..|rejected| - 1])
  }

  /** The last test is `t`, with a new id, and before it `candidates` led to the rest. */
  ghost predicate AddsLast(validate: Json -> Verdict, candidates: seq<Json>, tests: seq<SuggestedTest>,
                           rejected: seq<Rejection>, t: SuggestedTest)
    decreases |candidates|, 1
  {
    tests != [] && tests[|tests| - 1] == t && !HasId(tests[..|tests| - 1], t.id)
    && Sorts(validate, candidates, tests[..|tests| - 1], rejected)
  }

  /** Judging every one of `candidates` leads to these tests and these refusals. */
  ghost predicate Sorts(validate: Json -> Verdict, candidates: seq<Json>, tests: seq<SuggestedTest>,
                        rejected: seq<Rejection>)
    decreases |candidates|, 0
  {
    if candidates == [] then tests == [] && rejected == []
    else
      var init, last := candidates[..|candidates| - 1], candidates[|candidates| - 1];
      if !last.Object? then
        RefusesLast(validate, init, tests, rejected, Rejection("Unnamed suggestion", NotAnObject))
      else
        match validate(last)
        case Raises(_) => false
        case Rejected(name, reason) => RefusesLast(validate, init, tests, rejected, Rejection(name, reason))
        case Accepted(t) =>
          || (HasId(tests, t.id) && RefusesLast(validate, init, tests, rejected, Rejection(t.name, DuplicateId)))
          || AddsLast(validate, init, tests, rejected, t)
  }

  /** Judging ends with candidate `n`: they have run out, or it brought the eighth test. */
  ghost predicate SortsTo(validate: Json -> Verdict, candidates: seq<Json>, n: nat, tests: seq<SuggestedTest>,
                          rejected: seq<Rejection>) {
    && n <= |candidates| && Sorts(validate, candidates[..n], tests, rejected)
    && if |tests| < 8 then n == |candidates|
       else n > 0 && |tests| == 8 && Sorts(validate, candidates[..n - 1], tests[..7], rejected)
  }

  /** Judging reaches candidate `n`, which raises. */
  ghost predicate RaisesAt(validate: Json -> Verdict, candidates: seq<Json>, n: nat, path: string) {
    && n < |candidates| && candidates[n].Object? && validate(candidates[n]) == Raises(path)
    && exists tests, rejected :: |tests| < 8 && Sorts(validate, candidates[..n], tests, rejected)
  }

  lemma HasIdIsKey(tests: seq<SuggestedTest>, id: string)
    ensures HasId(tests, id) <==> id in Keys(TestId(), tests)
  {
    if HasId(tests, id) {
      var i :| 0 <= i < |tests| && tests[i].id == id;
      assert TestId()(tests[i]) == id;
    }
    if id in Keys(TestId(), tests) {
      var i :| 0 <= i < |tests| && TestId()(tests[i]) == id;
      assert tests[i].id == id;
    }
  }

  predicate NoneRaises(validate: Json -> Verdict, candidates: seq<Json>) {
    forall i :: 0 <= i < |candidates| ==> !Judge(validate, candidates[i]).Raises?
  }

  /** `candidates` lead to the tests `k` and the refusals `r` and nothing else, or, unless
      `well`, to nothing. */
  ghost predicate SortsOnly(validate: Json -> Verdict, candidates: seq<Json>, well: bool, k: seq<SuggestedTest>,
                            r: seq<Rejection>) {
    forall tests, rejected :: Sorts(validate, candidates, tests, rejected) <==> well && tests == k && rejected == r
  }

  lemma RefusesOnly(validate: Json -> Verdict, init: seq<Json>, well: bool, k: seq<SuggestedTest>, r: seq<Rejection>,
                    refusal: Rejection, tests: seq<SuggestedTest>, rejected: seq<Rejection>)
    requires SortsOnly(validate, init, well, k, r)
    ensures RefusesLast(validate, init, tests, rejected, refusal)
       <==> well && tests == k && rejected == r + [refusal]
  {
    if rejected != [] {
      assert rejected == rejected[..|rejected| - 1] + [rejected[|rejected| - 1]];
    }
  }

  lemma AddsOnly(validate: Json -> Verdict, init: seq<Json>, well: bool, k: seq<SuggestedTest>, r: seq<Rejection>,
                 t: SuggestedTest, tests: seq<SuggestedTest>, rejected: seq<Rejection>)
    requires SortsOnly(validate, init, well, k, r)
    ensures AddsLast(validate, init, tests, rejected, t)
       <==> well && !HasId(k, t.id) && tests == k + [t] && rejected == r
  {
    if tests != [] {
      assert tests == tests[..|tests| - 1] + [tests[|tests| - 1]];
    }
  }

  lemma AcceptsOnly(validate: Json -> Verdict, init: seq<Json>, last: Json, well: bool, k: seq<SuggestedTest>,
                    r: seq<Rejection>)
    requires SortsOnly(validate, init, well, k, r) && last.Object? && validate(last).Accepted?
    ensures var t := validate(last).test;
            SortsOnly(validate, init + [last], well, if HasId(k, t.id) then k else k + [t],
                      if HasId(k, t.id) then r + [Rejection(t.name, DuplicateId)] else r)
  {
    var t := validate(last).test;
    assert (init + [last])[..|init|] == init;
    forall tests, rejected
      ensures Sorts(validate, init + [last], tests, rejected)
         <==> || (HasId(tests, t.id) && RefusesLast(validate, init, tests, rejected, Rejection(t.name, DuplicateId)))
              || AddsLast(validate, init, tests, rejected, t)
    {
    }
    forall tests, rejected
      ensures Sorts(validate, init + [last], tests, rejected)
         <==> well && tests == (if HasId(k, t.id) then k else k + [t])
              && rejected == (if HasId(k, t.id) then r + [Rejection(t.name, DuplicateId)] else r)
    {
      RefusesOnly(validate, init, well, k, r, Rejection(t.name, DuplicateId), tests, rejected);
      AddsOnly(validate, init, well, k, r, t, tests, rejected);
    }
  }

  lemma RejectsOnly(validate: Json -> Verdict, init: seq<Json>, last: Json, well: bool, k: seq<SuggestedTest>,
                    r: seq<Rejection>)
    requires SortsOnly(validate, init, well, k, r) && Judge(validate, last).Rejected?
    ensures var verdict := Judge(validate, last);
            SortsOnly(validate, init + [last], well, k, r + [Rejection(verdict.name, verdict.reason)])
  {
    var refusal := Rejection(Judge(validate, last).name, Judge(validate, last).reason);
    assert (init + [last])[..|init|] == init;
    forall tests, rejected
      ensures Sorts(validate, init + [last], tests, rejected) <==> well && tests == k && rejected == r + [refusal]
    {
      RefusesOnly(validate, init, well, k, r, refusal, tests, rejected);
    }
  }

  lemma {:induction false} SortsExactly(validate: Json -> Verdict, candidates: seq<Json>)
    ensures SortsOnly(validate, candidates, NoneRaises(validate, candidates), Kept(validate, candidates),
                      Refused(validate, candidates))
    decreases |candidates|
  {
    if candidates != [] {
      var n := |candidates| - 1;
      var init, last := candidates[..n], candidates[n];
      assert candidates[..n + 1] == candidates && init + [last] == candidates;
      SortsExactly(validate, init);
      NextCandidate(validate, candidates, n);
      assert NoneRaises(validate, candidates) <==> NoneRaises(validate, init) && !Judge(validate, last).Raises?;
      match Judge(validate, last)
      case Raises(_) =>
      case Rejected(_, _) =>
        RejectsOnly(validate, init, last, NoneRaises(validate, init), Kept(validate, init), Refused(validate, init));
      case Accepted(t) =>
        HasIdIsKey(Kept(validate, init), t.id);
        AcceptsOnly(validate, init, last, NoneRaises(validate, init), Kept(validate, init), Refused(validate, init));
    }
  }

  lemma {:induction false} ConsumedSift(validate: Json -> Verdict, candidates: seq<Json>, n: nat)
    requires n <= |candidates| && Consumed(validate, candidates, n)
    ensures Sift(validate, candidates, 0) == Sift(validate, candidates, n) && NoneRaises(validate, candidates[..n])
  {
    if n > 0 {
      ConsumedSift(validate, candidates, n - 1);
      SiftStep(validate, candidates, n - 1);
      assert forall i :: 0 <= i < n - 1 ==> candidates[..n][i] == candidates[..n - 1][i];
    }
  }

  lemma {:induction false} SortedIsConsumed(validate: Json -> Verdict, candidates: seq<Json>, n: nat)
    requires n <= |candidates| && NoneRaises(validate, candidates[..n])
    requires n > 0 ==> |Kept(validate, candidates[..n - 1])| < SUGGESTED_TESTS
    ensures Consumed(validate, candidates, n)
  {
    if n > 0 {
      assert forall i :: 0 <= i < n ==> candidates[..n][i] == candidates[i];
      assert forall i :: 0 <= i < n - 1 ==> candidates[..n - 1][i] == candidates[..n][i];
      if n > 1 {
        CandidateCounts(validate, candidates, n - 2);
      }
      SortedIsConsumed(validate, candidates, n - 1);
    }
  }

  /** Sorting all of a prefix, in terms of what the loop has by then. */
  lemma PrefixSorts(validate: Json -> Verdict, candidates: seq<Json>, n: nat)
    requires n <= |candidates|
    ensures SortsOnly(validate, candidates[..n], NoneRaises(validate, candidates[..n]),
                      Kept(validate, candidates[..n]), Refused(validate, candidates[..n]))
  {
    SortsExactly(validate, candidates[..n]);
  }

  /** The candidate that brought the eighth test did nothing else. */
  lemma EighthTest(validate: Json -> Verdict, candidates: seq<Json>, n: nat)
    requires n < |candidates| && |Kept(validate, candidates[..n])| < 8 == |Kept(validate, candidates[..n + 1])|
    ensures Kept(validate, candidates[..n + 1])[..7] == Kept(validate, candidates[..n])
    ensures Refused(validate, candidates[..n + 1]) == Refused(validate, candidates[..n])
  {
    NextCandidate(validate, candidates, n);
    assert Refused(validate, candidates[..n]) + [] == Refused(validate, candidates[..n]);
  }

  lemma SiftEnds(validate: Json -> Verdict, candidates: seq<Json>) returns (n: nat)
    requires Sift(validate, candidates, 0).Ok?
    ensures var r := Sift(validate, candidates, 0).value; SortsTo(validate, candidates, n, r.tests, r.rejected)
  {
    n := SiftStops(validate, candidates, 0);
    ConsumedSift(validate, candidates, n);
    ConsumedCounts(validate, candidates, n);
    PrefixSorts(validate, candidates, n);
    if |Kept(validate, candidates[..n])| == 8 {
      assert candidates[..0] == [];
      EighthTest(validate, candidates, n - 1);
      ConsumedSift(validate, candidates, n - 1);
      PrefixSorts(validate, candidates, n - 1);
    }
  }

  lemma SortsToIsKept(validate: Json -> Verdict, candidates: seq<Json>, n: nat, tests: seq<SuggestedTest>,
                      rejected: seq<Rejection>)
    requires SortsTo(validate, candidates, n, tests, rejected)
    ensures n <= |candidates| && NoneRaises(validate, candidates[..n])
    ensures tests == Kept(validate, candidates[..n]) && rejected == Refused(validate, candidates[..n])
    ensures n == |candidates| || |tests| == 8
    ensures n > 0 && |tests| == 8 ==> |Kept(validate, candidates[..n - 1])| == 7
  {
    PrefixSorts(validate, candidates, n);
    if n > 0 {
      PrefixSorts(validate, candidates, n - 1);
    }
  }

  lemma SortsToIsSift(validate: Json -> Verdict, candidates: seq<Json>, n: nat, tests: seq<SuggestedTest>,
                      rejected: seq<Rejection>)
    requires SortsTo(validate, candidates, n, tests, rejected)
    ensures Sift(validate, candidates, 0) == Ok(Sifted(tests, rejected))
  {
    SortsToIsKept(validate, candidates, n, tests, rejected);
    if n > 0 {
      CandidateGrows(validate, candidates, n - 1);
    }
    SortedIsConsumed(validate, candidates, n);
    ConsumedSift(validate, candidates, n);
  }

  lemma CandidateGrows(validate: Json -> Verdict, candidates: seq<Json>, i: nat)
    requires i < |candidates|
    ensures |Kept(validate, candidates[..i])| <= |Kept(validate, candidates[..i + 1])|
  {
    NextCandidate(validate, candidates, i);
  }

  /** Sorting candidates ends well with exactly what judging them up to where it ends
      leads to. */
  lemma SiftExactly(validate: Json -> Verdict, candidates: seq<Json>, tests: seq<SuggestedTest>,
                    rejected: seq<Rejection>)
    ensures Sift(validate, candidates, 0) == Ok(Sifted(tests, rejected))
       <==> exists n :: SortsTo(validate, candidates, n, tests, rejected)
  {
    if n :| SortsTo(validate, candidates, n, tests, rejected) {
      SortsToIsSift(validate, candidates, n, tests, rejected);
    }
    if Sift(validate, candidates, 0) == Ok(Sifted(tests, rejected)) {
      var n := SiftEnds(validate, candidates);
    }
  }

  lemma {:induction false} SiftRaises(validate: Json -> Verdict, candidates: seq<Json>, i: nat) returns (n: nat)
    requires i <= |candidates| && Consumed(validate, candidates, i) && Sift(validate, candidates, i).Err?
    ensures RaisesAt(validate, candidates, n, Sift(validate, candidates, i).error)
    decreases |candidates| - i
  {
    if Judge(validate, candidates[i]).Raises? {
      n := i;
      ConsumedSift(validate, candidates, i);
      PrefixSorts(validate, candidates, i);
      assert Sorts(validate, candidates[..i], Kept(validate, candidates[..i]), Refused(validate, candidates[..i]));
    } else {
      n := SiftRaises(validate, candidates, i + 1);
    }
  }

  /** It ends with a violation exactly when a candidate it reaches raises one. */
  lemma SiftRaisesExactly(validate: Json -> Verdict, candidates: seq<Json>, path: string)
    ensures Sift(validate, candidates, 0) == Err(path) <==> exists n: nat :: RaisesAt(validate, candidates, n, path)
  {
    if n: nat :| RaisesAt(validate, candidates, n, path) {
      PrefixSorts(validate, candidates, n);
      if n > 0 {
        NextCandidate(validate, candidates, n - 1);
      }
      SortedIsConsumed(validate, candidates, n);
      ConsumedSift(validate, candidates, n);
      SiftStep(validate, candidates, n);
    }
    if Sift(validate, candidates, 0) == Err(path) {
      var n := SiftRaises(validate, candidates, 0);
    }
  }

  // ---------------------------------------------------------------- whole answers

  predicate HasText(h: Host, raw: Json, key: string) {
    CleanUnder(h, raw, key) != ""
  }

  ghost predicate HasList(h: Host, raw: Json, key: string, max: nat, optional: bool) {
    exists out :: ListHolds(h, raw, key, max, optional, out)
  }

  predicate HasEvidence(raw: Json) {
    Field(raw, "evidence").Undefined? || Field(raw, "evidence").Null? || Field(raw, "evidence").Array?
  }

  predicate HasConfidence(raw: Json) {
    Field(raw, "confidence") in [Text("high"), Text("medium"), Text("low")]
  }

  /** What of an explanation's keys is missing or malformed, the first in this order. */
  ghost function ExplanationFlaw(h: Host, raw: Json): Option<string> {
    if !HasText(h, raw, "summary") then Some("summary")
    else if !HasText(h, raw, "meaning") then Some("meaning")
    else if !HasText(h, raw, "whyItMatters") then Some("whyItMatters")
    else if !HasText(h, raw, "impact") then Some("impact")
    else if !HasList(h, raw, "likelyCauses", 8, true) then Some("likelyCauses")
    else if !HasList(h, raw, "recommendations", 8, false) then Some("recommendations")
    else if !HasText(h, raw, "nextStep") then Some("nextStep")
    else if !HasEvidence(raw) then Some("evidence")
    else if !HasConfidence(raw) then Some("confidence")
    else if !HasList(h, raw, "caveats", 6, true) then Some("caveats")
    else None
  }

  ghost predicate ExplanationHolds(h: Host, raw: Json, c: Context, o: Output) {
    && o.Explanation?
    && TextHolds(h, raw, "summary", 300, o.summary) && TextHolds(h, raw, "meaning", 1200, o.meaning)
    && TextHolds(h, raw, "whyItMatters", 1200, o.whyItMatters) && TextHolds(h, raw, "impact", 1200, o.impact)
    && ListHolds(h, raw, "likelyCauses", 8, true, o.likelyCauses)
    && ListHolds(h, raw, "recommendations", 8, false, o.recommendations)
    && TextHolds(h, raw, "nextStep", 300, o.nextStep)
    && EvidenceHolds(c.evidenceIndex, Field(raw, "evidence"), o.evidence)
    && ConfidenceHolds(raw, o.confidence) && ListHolds(h, raw, "caveats", 6, true, o.caveats)
  }

  ghost function SummaryFlaw(h: Host, raw: Json): Option<string> {
    if !HasText(h, raw, "headline") then Some("headline")
    else if !HasText(h, raw, "overallAssessment") then Some("overallAssessment")
    else if !HasList(h, raw, "strengths", 8, true) then Some("strengths")
    else if !HasList(h, raw, "risks", 8, true) then Some("risks")
    else if !HasList(h, raw, "priorities", 8, false) then Some("priorities")
    else if !HasEvidence(raw) then Some("evidence")
    else if !HasConfidence(raw) then Some("confidence")
    else if !HasList(h, raw, "caveats", 6, true) then Some("caveats")
    else None
  }

  ghost predicate SummaryHolds(h: Host, raw: Json, c: Context, o: Output) {
    && o.Summary?
    && TextHolds(h, raw, "headline", 300, o.headline)
    && TextHolds(h, raw, "overallAssessment", 2400, o.overallAssessment)
    && ListHolds(h, raw, "strengths", 8, true, o.strengths) && ListHolds(h, raw, "risks", 8, true, o.risks)
    && ListHolds(h, raw, "priorities", 8, false, o.priorities)
    && EvidenceHolds(c.evidenceIndex, Field(raw, "evidence"), o.evidence)
    && ConfidenceHolds(raw, o.confidence) && ListHolds(h, raw, "caveats", 6, true, o.caveats)
  }

  ghost function AnswerFlaw(h: Host, raw: Json): Option<string> {
    if !Field(raw, "outOfScope").Flag? then Some("outOfScope")
    else if !HasText(h, raw, "answer") then Some("answer")
    else if !HasEvidence(raw) then Some("evidence")
    else if !HasConfidence(raw) then Some("confidence")
    else if !HasList(h, raw, "caveats", 6, true) then Some("caveats")
    else None
  }

  ghost predicate AnswerHolds(h: Host, raw: Json, c: Context, o: Output) {
    && o.Answer?
    && Field(raw, "outOfScope") == Flag(o.outOfScope) && TextHolds(h, raw, "answer", 2400, o.answer)
    && EvidenceHolds(c.evidenceIndex, Field(raw, "evidence"), o.evidence)
    && ConfidenceHolds(raw, o.confidence) && ListHolds(h, raw, "caveats", 6, true, o.caveats)
  }

  /** The first sixteen candidates. */
  function Candidates(raw: Json): seq<Json> {
    var items := match Field(raw, "tests") case Array(items) => items case _ => [];
    if |items| <= 16 then items else items[..16]
  }

  ghost predicate SuggestionsHold(h: Host, raw: Json, validate: Json -> Verdict, o: Output) {
    && o.Suggestions?
    && Field(raw, "tests").Array? && (exists n :: SortsTo(validate, Candidates(raw), n, o.tests, o.rejected))
    && TextHolds(h, raw, "summary", 300, o.summary)
    && ConfidenceHolds(raw, o.confidence) && ListHolds(h, raw, "caveats", 6, true, o.caveats)
  }

  ghost predicate SuggestionsFlawed(h: Host, raw: Json, validate: Json -> Verdict, path: string) {
    if !Field(raw, "tests").Array? then path == Path("tests")
    else if exists n: nat, p :: RaisesAt(validate, Candidates(raw), n, p) then
      exists n: nat :: RaisesAt(validate, Candidates(raw), n, path)
    else if !HasText(h, raw, "summary") then path == Path("summary")
    else if !HasConfidence(raw) then path == Path("confidence")
    else !HasList(h, raw, "caveats", 6, true) && path == Path("caveats")
  }

  lemma TextFieldEither(h: Host, raw: Json, key: string, max: nat)
    requires max >= 1
    ensures TextField(h, raw, key, max).Ok? <==> HasText(h, raw, key)
    ensures TextField(h, raw, key, max).Ok? ==> TextHolds(h, raw, key, max, TextField(h, raw, key, max).value)
    ensures TextField(h, raw, key, max).Err? ==> TextField(h, raw, key, max).error == Path(key)
  {
  }

  lemma ListFieldEither(h: Host, raw: Json, key: string, max: nat, optional: bool)
    requires max >= 1
    ensures ListField(h, raw, key, max, optional).Ok? <==> HasList(h, raw, key, max, optional)
    ensures ListField(h, raw, key, max, optional).Ok? ==>
              ListHolds(h, raw, key, max, optional, ListField(h, raw, key, max, optional).value)
    ensures ListField(h, raw, key, max, optional).Err? ==> ListField(h, raw, key, max, optional).error == Path(key)
  {
    var r := ListField(h, raw, key, max, optional);
    if r.Ok? {
      ListFieldExactly(h, raw, key, max, optional, r.value);
      assert ListHolds(h, raw, key, max, optional, r.value);
    }
    if out :| ListHolds(h, raw, key, max, optional, out) {
      ListFieldExactly(h, raw, key, max, optional, out);
    }
  }

  predicate Explains(feature: Feature) {
    feature == ExplainFinding || feature == ExplainTestFailure || feature == AnalyzeRuntimeError
  }

  lemma ExplanationAccepted(h: Host, feature: Feature, raw: Json, c: Context, validate: Json -> Verdict, o: Output)
    requires Explains(feature)
    ensures ValidateOutput(h, feature, raw, c, validate) == Ok(o) <==> ExplanationHolds(h, raw, c, o)
  {
    if o.Explanation? {
      TextFieldExactly(h, raw, "summary", 300, o.summary);
      TextFieldExactly(h, raw, "meaning", 1200, o.meaning);
      TextFieldExactly(h, raw, "whyItMatters", 1200, o.whyItMatters);
      TextFieldExactly(h, raw, "impact", 1200, o.impact);
      ListFieldExactly(h, raw, "likelyCauses", 8, true, o.likelyCauses);
      ListFieldExactly(h, raw, "recommendations", 8, false, o.recommendations);
      TextFieldExactly(h, raw, "nextStep", 300, o.nextStep);
      EvidenceFieldExactly(Field(raw, "evidence"), c.evidenceIndex, "$", o.evidence);
      ConfidenceExactly(raw, o.confidence);
      ListFieldExactly(h, raw, "caveats", 6, true, o.caveats);
    }
  }

  lemma SummaryAccepted(h: Host, raw: Json, c: Context, validate: Json -> Verdict, o: Output)
    ensures ValidateOutput(h, SummarizeReport, raw, c, validate) == Ok(o) <==> SummaryHolds(h, raw, c, o)
  {
    if o.Summary? {
      TextFieldExactly(h, raw, "headline", 300, o.headline);
      TextFieldExactly(h, raw, "overallAssessment", 2400, o.overallAssessment);
      ListFieldExactly(h, raw, "strengths", 8, true, o.strengths);
      ListFieldExactly(h, raw, "risks", 8, true, o.risks);
      ListFieldExactly(h, raw, "priorities", 8, false, o.priorities);
      EvidenceFieldExactly(Field(raw, "evidence"), c.evidenceIndex, "$", o.evidence);
      ConfidenceExactly(raw, o.confidence);
      ListFieldExactly(h, raw, "caveats", 6, true, o.caveats);
    }
  }

  lemma AnswerAccepted(h: Host, raw: Json, c: Context, validate: Json -> Verdict, o: Output)
    ensures ValidateOutput(h, AnswerQuestion, raw, c, validate) == Ok(o) <==> AnswerHolds(h, raw, c, o)
  {
    if o.Answer? {
      TextFieldExactly(h, raw, "answer", 2400, o.answer);
      EvidenceFieldExactly(Field(raw, "evidence"), c.evidenceIndex, "$", o.evidence);
      ConfidenceExactly(raw, o.confidence);
      ListFieldExactly(h, raw, "caveats", 6, true, o.caveats);
    }
  }

  lemma SiftedAlready(validate: Json -> Verdict, raw: Json)
    requires Field(raw, "tests").Array?
    ensures Candidates(raw) == FirstN(Field(raw, "tests").items, 2 * SUGGESTED_TESTS)
    ensures Sift(validate, Candidates(raw), 0).Ok? ==>
              var r := Sift(validate, Candidates(raw), 0).value; FirstN(r.rejected, 2 * SUGGESTED_TESTS) == r.rejected
  {
    if Sift(validate, Candidates(raw), 0).Ok? {
      var n := SuggestionAccounting(validate, Candidates(raw));
    }
  }

  lemma SuggestionsAccepted(h: Host, raw: Json, c: Context, validate: Json -> Verdict, o: Output)
    ensures ValidateOutput(h, SuggestTests, raw, c, validate) == Ok(o) <==> SuggestionsHold(h, raw, validate, o)
  {
    if Field(raw, "tests").Array? {
      SiftedAlready(validate, raw);
      if o.Suggestions? {
        SiftExactly(validate, Candidates(raw), o.tests, o.rejected);
        TextFieldExactly(h, raw, "summary", 300, o.summary);
        ConfidenceExactly(raw, o.confidence);
        ListFieldExactly(h, raw, "caveats", 6, true, o.caveats);
      }
    }
  }

  /** The answer is refused exactly when there is a flaw, which is what it is refused for. */
  predicate RefusesFor(r: Result<Output, string>, flaw: Option<string>) {
    match r
    case Ok(_) => flaw == None
    case Err(path) => flaw.Some? && path == Path(flaw.value)
  }

  lemma LiteralPaths()
    ensures Path("outOfScope") == "$.outOfScope" && Path("tests") == "$.tests"
    ensures Path("evidence") == "$" + ".evidence" && Path("confidence") == "$.confidence"
  {
  }

  lemma EvidenceFieldEither(raw: Json, index: seq<Ref>)
    ensures EvidenceField(Field(raw, "evidence"), index, "$").Ok? <==> HasEvidence(raw)
    ensures EvidenceField(Field(raw, "evidence"), index, "$").Err? ==>
              EvidenceField(Field(raw, "evidence"), index, "$").error == Path("evidence")
  {
  }

  lemma ConfidenceEither(raw: Json)
    ensures ConfidenceField(raw).Ok? <==> HasConfidence(raw)
    ensures ConfidenceField(raw).Err? ==> ConfidenceField(raw).error == Path("confidence")
  {
    LiteralPaths();
  }

  lemma ExplanationRefused(h: Host, feature: Feature, raw: Json, c: Context, validate: Json -> Verdict)
    requires Explains(feature)
    ensures RefusesFor(ValidateOutput(h, feature, raw, c, validate), ExplanationFlaw(h, raw))
  {
    TextFieldEither(h, raw, "summary", 300);
    TextFieldEither(h, raw, "meaning", 1200);
    TextFieldEither(h, raw, "whyItMatters", 1200);
    TextFieldEither(h, raw, "impact", 1200);
    ListFieldEither(h, raw, "likelyCauses", 8, true);
    ListFieldEither(h, raw, "recommendations", 8, false);
    TextFieldEither(h, raw, "nextStep", 300);
    EvidenceFieldEither(raw, c.evidenceIndex);
    ConfidenceEither(raw);
    ListFieldEither(h, raw, "caveats", 6, true);
  }

  lemma SummaryRefused(h: Host, raw: Json, c: Context, validate: Json -> Verdict)
    ensures RefusesFor(ValidateOutput(h, SummarizeReport, raw, c, validate), SummaryFlaw(h, raw))
  {
    TextFieldEither(h, raw, "headline", 300);
    TextFieldEither(h, raw, "overallAssessment", 2400);
    ListFieldEither(h, raw, "strengths", 8, true);
    ListFieldEither(h, raw, "risks", 8, true);
    ListFieldEither(h, raw, "priorities", 8, false);
    EvidenceFieldEither(raw, c.evidenceIndex);
    ConfidenceEither(raw);
    ListFieldEither(h, raw, "caveats", 6, true);
  }

  lemma AnswerRefused(h: Host, raw: Json, c: Context, validate: Json -> Verdict)
    ensures RefusesFor(ValidateOutput(h, AnswerQuestion, raw, c, validate), AnswerFlaw(h, raw))
  {
    LiteralPaths();
    TextFieldEither(h, raw, "answer", 2400);
    EvidenceFieldEither(raw, c.evidenceIndex);
    ConfidenceEither(raw);
    ListFieldEither(h, raw, "caveats", 6, true);
  }

  lemma SuggestionsRefused(h: Host, raw: Json, c: Context, validate: Json -> Verdict, path: string)
    ensures ValidateOutput(h, SuggestTests, raw, c, validate) == Err(path) <==>
              SuggestionsFlawed(h, raw, validate, path)
  {
    LiteralPaths();
    if Field(raw, "tests").Array? {
      SiftedAlready(validate, raw);
      SiftRaisesExactly(validate, Candidates(raw), path);
      var sifted := Sift(validate, Candidates(raw), 0);
      if sifted.Err? {
        SiftRaisesExactly(validate, Candidates(raw), sifted.error);
      }
      if n: nat, p :| RaisesAt(validate, Candidates(raw), n, p) {
        SiftRaisesExactly(validate, Candidates(raw), p);
      }
      TextFieldEither(h, raw, "summary", 300);
      ConfidenceEither(raw);
      ListFieldEither(h, raw, "caveats", 6, true);
    }
  }
}

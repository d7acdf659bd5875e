/** Strict validation of model output. */
module Schema {
  import opened Seqs
  import opened JsText
  import opened Json
  import opened AIContext
  import opened AIOutput
  import opened ContextBuild

  const SHORT: nat := 300
  const TEXT_LIMIT: nat := 1200
  const LONG: nat := 2400
  const LIST: nat := 8
  const LIST_ITEM: nat := 400
  const EVIDENCE: nat := 12
  const CAVEATS: nat := 6
  const SUGGESTED_TESTS: nat := 8

  const EVIDENCE_KINDS: set<string> :=
    {"finding", "test", "diagnostic", "file", "event", "network", "report_section", "permission"}

  /** `s.replace(/\s+/g, " ").trim()` */
  function Squash(s: string): string {
    Trim(Collapse(s))
  }

  function Collapse(s: string): string
    decreases |s|
  {
    if s == "" then ""
    else if IsSpace(s[0]) then " " + Collapse(TrimStart(s[1..]))
    else [s[0]] + Collapse(s[1..])
  }

  function Cleaned(h: Host, s: string): string {
    h.redact(Squash(s))
  }

  // ---------------------------------------------------------------- single fields

  /** A required text: present, a string, not empty once cleaned; cut to length. */
  function TextField(h: Host, record: Json, key: string, max: nat): (r: Result<string, string>)
    requires max >= 1
    ensures r.Ok? ==> 0 < |r.value| <= max
    ensures r.Ok? <==> Field(record, key).Text? && Cleaned(h, Field(record, key).text) != ""
  {
    var value := Field(record, key);
    if !value.Text? then Err("$." + key)
    else
      var cleaned := Cleaned(h, value.text);
      if cleaned == "" then Err("$." + key) else Ok(Truncate(cleaned, max))
  }

  function ConfidenceField(record: Json): (r: Result<string, string>)
    ensures r.Ok? ==> r.value in {"high", "medium", "low"}
  {
    var value := Field(record, "confidence");
    if value.Text? && value.text in {"high", "medium", "low"} then Ok(value.text) else Err("$.confidence")
  }

  // ---------------------------------------------------------------- lists of text

  function CleanItem(h: Host): Json -> string {
    (j: Json) => if j.Text? then Truncate(Cleaned(h, j.text), LIST_ITEM) else ""
  }

  predicate Nonempty(s: string) {
    s != ""
  }

  /** The items in front of the first one that is not a string. */
  function LeadingTexts(items: seq<Json>): seq<Json> {
    if items == [] || !items[0].Text? then [] else [items[0]] + LeadingTexts(items[1..])
  }

  /** The usable texts of the items in front of the first non-string. */
  function UsableTexts(h: Host, items: seq<Json>): seq<string> {
    Filter(Map(CleanItem(h), LeadingTexts(items)), Nonempty)
  }

  /** What the loop over the items answers: it stops at `max` usable texts, and a
      non-string it reaches before that is a violation. */
  function TextsOf(h: Host, items: seq<Json>, max: nat): Option<seq<string>> {
    var usable := UsableTexts(h, items);
    if |usable| >= max || |LeadingTexts(items)| == |items| then Some(FirstN(usable, max)) else None
  }

  lemma {:induction false} LeadingTextsSplit(a: seq<Json>, b: seq<Json>)
    requires forall j :: j in a ==> j.Text?
    ensures LeadingTexts(a + b) == a + LeadingTexts(b)
  {
    if a == [] {
      assert a + b == b;
    } else {
      LeadingTextsSplit(a[1..], b);
      assert (a + b)[1..] == a[1..] + b;
    }
  }

  /** The usable texts among the first `i` items, all of them strings. */
  function UsablePrefix(h: Host, items: seq<Json>, i: nat): seq<string>
    requires i <= |items|
  {
    Filter(Map(CleanItem(h), items[..i]), Nonempty)
  }

  lemma UsableSplit(f: Json -> string, items: seq<Json>, i: nat)
    requires i <= |items| && forall j :: j in items[..i] ==> j.Text?
    ensures LeadingTexts(items) == items[..i] + LeadingTexts(items[i..])
    ensures Filter(Map(f, items[..i]), Nonempty) <= Filter(Map(f, LeadingTexts(items)), Nonempty)
  {
    LeadingTextsSplit(items[..i], items[i..]);
    assert items == items[..i] + items[i..];
    UsableAppend(f, items[..i], LeadingTexts(items[i..]));
  }

  lemma UsableAppend(f: Json -> string, a: seq<Json>, b: seq<Json>)
    ensures Filter(Map(f, a + b), Nonempty) == Filter(Map(f, a), Nonempty) + Filter(Map(f, b), Nonempty)
  {
    assert Map(f, a + b) == Map(f, a) + Map(f, b);
    FilterAppend(Map(f, a), Map(f, b), Nonempty);
  }

  lemma NextText(h: Host, items: seq<Json>, i: nat)
    requires i < |items| && items[i].Text?
    ensures UsablePrefix(h, items, i + 1)
         == UsablePrefix(h, items, i)
           + (if Cleaned(h, items[i].text) == "" then [] else [Truncate(Cleaned(h, items[i].text), LIST_ITEM)])
  {
    var clean := CleanItem(h)(items[i]);
    assert Map(CleanItem(h), items[..i + 1]) == Map(CleanItem(h), items[..i]) + [clean];
    FilterAppend(Map(CleanItem(h), items[..i]), [clean], Nonempty);
    assert [clean][1..] == [];
  }

  lemma StopAtNonText(h: Host, items: seq<Json>, i: nat, max: nat)
    requires i < |items| && !items[i].Text? && (forall j :: j in items[..i] ==> j.Text?)
    requires |UsablePrefix(h, items, i)| < max
    ensures TextsOf(h, items, max) == None
  {
    LeadingTextsSplit(items[..i], items[i..]);
    assert items == items[..i] + items[i..];
    assert LeadingTexts(items[i..]) == [];
    assert LeadingTexts(items) == items[..i];
  }

  lemma StopAtMax(h: Host, items: seq<Json>, i: nat, max: nat)
    requires i <= |items| && (forall j :: j in items[..i] ==> j.Text?)
    requires |UsablePrefix(h, items, i)| == max || (i == |items| && |UsablePrefix(h, items, i)| < max)
    ensures TextsOf(h, items, max) == Some(UsablePrefix(h, items, i))
  {
    UsableSplit(CleanItem(h), items, i);
    var usable, prefix := UsableTexts(h, items), UsablePrefix(h, items, i);
    assert usable[..|prefix|] == prefix;
    if i == |items| {
      assert LeadingTexts(items) == items == items[..i];
      assert usable == prefix;
    }
    assert FirstN(usable, max) == prefix;
  }

  method CollectTexts(h: Host, items: seq<Json>, max: nat) returns (r: Option<seq<string>>)
    requires max >= 1
    ensures r == TextsOf(h, items, max)
  {
    var out: seq<string> := [];
    var i := 0;
    while i < |items|
      invariant 0 <= i <= |items|
      invariant forall j :: j in items[..i] ==> j.Text?
      invariant out == UsablePrefix(h, items, i) && |out| < max
    {
      if !items[i].Text? {
        StopAtNonText(h, items, i, max);
        return None;
      }
      NextText(h, items, i);
      assert items[..i + 1] == items[..i] + [items[i]];
      var cleaned := Cleaned(h, items[i].text);
      i := i + 1;
      if cleaned == "" {
        continue;
      }
      out := out + [Truncate(cleaned, LIST_ITEM)];
      if |out| >= max {
        StopAtMax(h, items, i, max);
        return Some(out);
      }
    }
    StopAtMax(h, items, i, max);
    r := Some(out);
  }

  /** Every text of a list is non-empty and within its bound, and so is the list. */
  lemma TextsAreBounded(h: Host, items: seq<Json>, max: nat, text: string)
    requires TextsOf(h, items, max).Some? && text in TextsOf(h, items, max).value
    ensures 0 < |text| <= LIST_ITEM && |TextsOf(h, items, max).value| <= max
    ensures exists j :: j in items && j.Text? && text == Truncate(Cleaned(h, j.text), LIST_ITEM)
  {
    FilterMember(Map(CleanItem(h), LeadingTexts(items)), Nonempty, text);
    MapMember(CleanItem(h), LeadingTexts(items), text);
    var j :| j in LeadingTexts(items) && text == CleanItem(h)(j);
    LeadingTextsMember(items, j);
  }

  lemma {:induction false} LeadingTextsMember(items: seq<Json>, j: Json)
    requires j in LeadingTexts(items)
    ensures j in items && j.Text?
  {
    if j != items[0] {
      LeadingTextsMember(items[1..], j);
    }
  }

  function ListField(h: Host, record: Json, key: string, max: nat, optional: bool): Result<seq<string>, string> {
    var value := Field(record, key);
    if Missing(value) then (if optional then Ok([]) else Err("$." + key))
    else if !value.Array? then Err("$." + key)
    else
      var texts := TextsOf(h, value.items, max);
      if texts.Some? then Ok(texts.value) else Err("$." + key)
  }

  // ---------------------------------------------------------------- evidence

  function RefIs(kind: string, id: string): Ref -> bool {
    (r: Ref) => r.kind == kind && r.id == id
  }

  /** The context's own entry for a cited item, if the citation is well formed. */
  function RefOf(index: seq<Ref>, item: Json): Option<Ref> {
    var kind, id := Field(item, "kind"), Field(item, "id");
    if item.Object? && kind.Text? && id.Text? && kind.text in EVIDENCE_KINDS then Find(index, RefIs(kind.text, id.text))
    else None
  }

  /** The citations that resolve, in the order given. */
  function Resolved(index: seq<Ref>, items: seq<Json>): seq<Ref>
    decreases |items|
  {
    if items == [] then []
    else
      var ref := RefOf(index, items[0]);
      (if ref.Some? then [ref.value] else []) + Resolved(index, items[1..])
  }

  function RefKey(): Ref -> (string, string) {
    (r: Ref) => (r.kind, r.id)
  }

  /** The string the loop keeps in its `seen` set. */
  function KeyText(kind: string, id: string): string {
    kind + ":" + id
  }

  function Unique(refs: seq<Ref>): seq<Ref> {
    Dedupe(RefKey(), {}, refs)
  }

  /** The first twelve distinct citations that resolve. */
  function EvidenceOf(index: seq<Ref>, items: seq<Json>): seq<Ref> {
    FirstN(Unique(Resolved(index, items)), EVIDENCE)
  }

  lemma {:induction false} ResolvedAppend(index: seq<Ref>, a: seq<Json>, b: seq<Json>)
    ensures Resolved(index, a + b) == Resolved(index, a) + Resolved(index, b)
    decreases |a|
  {
    if a == [] {
      assert a + b == b;
    } else {
      ResolvedAppend(index, a[1..], b);
      assert (a + b)[1..] == a[1..] + b;
    }
  }

  predicate KnownKind(kind: string) {
    kind in EVIDENCE_KINDS
  }

  lemma KindsHaveNoColon(kind: string)
    requires KnownKind(kind)
    ensures ':' !in kind
  {
  }

  lemma CutAtColon(kind: string, id: string)
    requires ':' !in kind
    ensures Before(KeyText(kind, id), ':') == kind
  {
    var s := KeyText(kind, id);
    var i := IndexOf(s, ':');
    assert s[|kind|] == ':';
    assert forall j :: 0 <= j < |kind| ==> s[j] == kind[j] && kind[j] in kind;
    assert forall j :: 0 <= j < i ==> s[..i][j] in s[..i] && s[j] != ':';
    assert i == |kind|;
    assert s[..|kind|] == kind;
  }

  /** On the allowed kinds the string key tells apart what the pair tells apart. */
  lemma KeyTextInjective(r: Ref, s: Ref)
    requires KnownKind(r.kind) && KnownKind(s.kind)
    ensures KeyText(r.kind, r.id) == KeyText(s.kind, s.id) <==> RefKey()(r) == RefKey()(s)
  {
    KindsHaveNoColon(r.kind);
    KindsHaveNoColon(s.kind);
    CutAtColon(r.kind, r.id);
    CutAtColon(s.kind, s.id);
    assert KeyText(r.kind, r.id)[|r.kind| + 1..] == r.id;
    assert KeyText(s.kind, s.id)[|s.kind| + 1..] == s.id;
  }

  lemma ResolvedKnown(index: seq<Ref>, item: Json)
    ensures RefOf(index, item).Some? ==> RefOf(index, item).value in index && KnownKind(RefOf(index, item).value.kind)
  {
  }

  lemma {:induction false} ResolvedInIndex(index: seq<Ref>, items: seq<Json>, ref: Ref)
    requires ref in Resolved(index, items)
    ensures ref in index && KnownKind(ref.kind) && Find(index, RefIs(ref.kind, ref.id)) == Some(ref)
    decreases |items|
  {
    var first := RefOf(index, items[0]);
    if first == Some(ref) {
      ResolvedKnown(index, items[0]);
      assert ref.kind == Field(items[0], "kind").text && ref.id == Field(items[0], "id").text;
    } else {
      ResolvedInIndex(index, items[1..], ref);
    }
  }

  lemma {:induction false} DedupeMember<T, K>(key: T -> K, seen: set<K>, s: seq<T>, x: T)
    requires x in Dedupe(key, seen, s)
    ensures x in s
    decreases |s|
  {
    if key(s[0]) in seen {
      DedupeMember(key, seen, s[1..], x);
    } else if x != s[0] {
      DedupeMember(key, seen + {key(s[0])}, s[1..], x);
    }
  }

  /** Every validated citation is an entry of the index, and each at most once. */
  lemma EvidenceIsIndexed(index: seq<Ref>, items: seq<Json>, ref: Ref)
    requires ref in EvidenceOf(index, items)
    ensures ref in index && KnownKind(ref.kind) && Find(index, RefIs(ref.kind, ref.id)) == Some(ref)
  {
    DedupeMember(RefKey(), {}, Resolved(index, items), ref);
    ResolvedInIndex(index, items, ref);
  }

  /** What the evidence is the first twelve of: of each pair of kind and id that
      resolves, the first citation, in order. */
  lemma EvidenceTakesFirsts(index: seq<Ref>, items: seq<Json>)
    ensures EvidenceOf(index, items) == FirstN(FirstOccurrences(RefKey(), Resolved(index, items)), EVIDENCE)
    ensures DistinctKeys(RefKey(), EvidenceOf(index, items)) && |EvidenceOf(index, items)| <= EVIDENCE
    ensures forall ref :: ref in Resolved(index, items) && |Unique(Resolved(index, items))| <= EVIDENCE ==>
              RefKey()(ref) in Keys(RefKey(), EvidenceOf(index, items))
  {
    var resolved := Resolved(index, items);
    DedupeIsFirsts(RefKey(), resolved);
    DedupeDistinct(RefKey(), resolved);
    assert forall i :: 0 <= i < |resolved| ==> RefKey()(resolved[i]) in Keys(RefKey(), resolved);
  }

  ghost predicate SeenTexts(seen: set<string>, out: seq<Ref>) {
    && (forall r :: r in out ==> KnownKind(r.kind) && KeyText(r.kind, r.id) in seen)
    && (forall k :: k in seen ==> exists r :: r in out && KeyText(r.kind, r.id) == k)
  }

  /** The loop's string set answers exactly whether the pair was taken already. */
  lemma SeenAnswers(seen: set<string>, out: seq<Ref>, ref: Ref)
    requires SeenTexts(seen, out) && KnownKind(ref.kind)
    ensures KeyText(ref.kind, ref.id) in seen <==> RefKey()(ref) in Keys(RefKey(), out)
  {
    if KeyText(ref.kind, ref.id) in seen {
      var r :| r in out && KeyText(r.kind, r.id) == KeyText(ref.kind, ref.id);
      KeyTextInjective(r, ref);
      var i :| 0 <= i < |out| && out[i] == r;
      assert RefKey()(out[i]) == RefKey()(ref);
    }
    if RefKey()(ref) in Keys(RefKey(), out) {
      var i :| 0 <= i < |out| && RefKey()(out[i]) == RefKey()(ref);
      assert out[i] in out;
    }
  }

  ghost function NewRef(ref: Option<Ref>, before: seq<Ref>): seq<Ref> {
    if ref.Some? && RefKey()(ref.value) !in Keys(RefKey(), before) then [ref.value] else []
  }

  lemma NextCitation(index: seq<Ref>, items: seq<Json>, i: nat)
    requires i < |items|
    ensures Unique(Resolved(index, items[..i + 1]))
         == Unique(Resolved(index, items[..i])) + NewRef(RefOf(index, items[i]), Unique(Resolved(index, items[..i])))
  {
    var ref := RefOf(index, items[i]);
    var before := Resolved(index, items[..i]);
    assert items[..i + 1] == items[..i] + [items[i]];
    ResolvedAppend(index, items[..i], [items[i]]);
    assert Resolved(index, [items[i]]) == if ref.Some? then [ref.value] else [];
    DedupeDistinct(RefKey(), before);
    if ref.Some? {
      DedupeOne(RefKey(), before, ref.value);
    } else {
      assert before + [] == before && Unique(before) + [] == Unique(before);
    }
  }

  lemma UniqueGrows(index: seq<Ref>, items: seq<Json>, i: nat)
    requires i <= |items|
    ensures Unique(Resolved(index, items[..i])) <= Unique(Resolved(index, items))
  {
    ResolvedAppend(index, items[..i], items[i..]);
    assert items == items[..i] + items[i..];
    DedupeAppend(RefKey(), {}, Resolved(index, items[..i]), Resolved(index, items[i..]));
  }

  method CollectEvidence(index: seq<Ref>, items: seq<Json>) returns (out: seq<Ref>)
    ensures out == EvidenceOf(index, items)
  {
    out := [];
    var seen: set<string> := {};
    var i := 0;
    while i < |items|
      invariant 0 <= i <= |items|
      invariant out == Unique(Resolved(index, items[..i])) && |out| < EVIDENCE
      invariant SeenTexts(seen, out)
    {
      var found := RefOf(index, items[i]);
      NextCitation(index, items, i);
      ResolvedKnown(index, items[i]);
      i := i + 1;
      if found.None? {
        continue;
      }
      SeenAnswers(seen, out, found.value);
      var key := KeyText(found.value.kind, found.value.id);
      if key in seen {
        continue;
      }
      seen := seen + {key};
      out := out + [found.value];
      if |out| >= EVIDENCE {
        UniqueGrows(index, items, i);
        return;
      }
    }
    assert items[..i] == items;
  }

  /** A citation as the model would write it back. */
  function RefJson(r: Ref): Json {
    Object([Member("kind", Text(r.kind)), Member("id", Text(r.id)), Member("label", Text(r.caption))])
  }

  lemma RefJsonFields(r: Ref)
    ensures Field(RefJson(r), "kind") == Text(r.kind) && Field(RefJson(r), "id") == Text(r.id)
  {
    var members := RefJson(r).members;
    assert "kind" != "id" by {
      assert "kind"[0] != "id"[0];
    }
    assert members[1..][0].key == "id";
    assert Lookup(members, "id") == Lookup(members[1..], "id") == Text(r.id);
  }

  lemma {:induction false} ResolvedAgain(index: seq<Ref>, refs: seq<Ref>)
    requires forall r :: r in refs ==> KnownKind(r.kind) && Find(index, RefIs(r.kind, r.id)) == Some(r)
    ensures Resolved(index, Map(RefJson, refs)) == refs
  {
    if refs != [] {
      assert Map(RefJson, refs)[1..] == Map(RefJson, refs[1..]);
      ResolvedAgain(index, refs[1..]);
      RefJsonFields(refs[0]);
      assert refs[0] in refs;
      assert RefOf(index, RefJson(refs[0])) == Some(refs[0]);
    }
  }

  /** Validating validated evidence again changes nothing. */
  lemma EvidenceIdempotent(index: seq<Ref>, items: seq<Json>)
    ensures var out := EvidenceOf(index, items);
            EvidenceOf(index, Map(RefJson, out)) == out
  {
    var out := EvidenceOf(index, items);
    forall r | r in out
      ensures KnownKind(r.kind) && Find(index, RefIs(r.kind, r.id)) == Some(r)
    {
      EvidenceIsIndexed(index, items, r);
    }
    ResolvedAgain(index, out);
    DedupeDistinct(RefKey(), Resolved(index, items));
    DedupeOfDistinct(RefKey(), out);
  }

  function EvidenceField(value: Json, index: seq<Ref>, path: string): Result<seq<Ref>, string> {
    if Missing(value) then Ok([])
    else if !value.Array? then Err(path + ".evidence")
    else Ok(EvidenceOf(index, value.items))
  }

  method ValidateEvidence(value: Json, index: seq<Ref>, path: string) returns (r: Result<seq<Ref>, string>)
    ensures r == EvidenceField(value, index, path)
  {
    if Missing(value) {
      return Ok([]);
    }
    if !value.Array? {
      return Err(path + ".evidence");
    }
    var out := CollectEvidence(index, value.items);
    r := Ok(out);
  }

  // ---------------------------------------------------------------- suggested tests

  function TestId(): SuggestedTest -> string {
    (t: SuggestedTest) => t.id
  }

  /** The verdict on one candidate; anything but an object is turned down unseen. */
  function Judge(validate: Json -> Verdict, candidate: Json): Verdict {
    if candidate.Object? then validate(candidate) else Rejected("Unnamed suggestion", NotAnObject)
  }

  function AcceptedTests(validate: Json -> Verdict, candidates: seq<Json>): seq<SuggestedTest>
    decreases |candidates|
  {
    if candidates == [] then []
    else
      var verdict := Judge(validate, candidates[0]);
      (if verdict.Accepted? then [verdict.test] else []) + AcceptedTests(validate, candidates[1..])
  }

  /** The accepted tests, the first of each id. */
  function Kept(validate: Json -> Verdict, candidates: seq<Json>): seq<SuggestedTest> {
    Dedupe(TestId(), {}, AcceptedTests(validate, candidates))
  }

  /** The candidates that are not kept, each with its reason. */
  function Refused(validate: Json -> Verdict, candidates: seq<Json>): seq<Rejection>
    decreases |candidates|
  {
    if candidates == [] then []
    else
      var init, last := candidates[..|candidates| - 1], Judge(validate, candidates[|candidates| - 1]);
      Refused(validate, init) + NewRefusal(last, Kept(validate, init))
  }

  function NewRefusal(verdict: Verdict, before: seq<SuggestedTest>): seq<Rejection> {
    match verdict
    case Rejected(name, reason) => [Rejection(name, reason)]
    case Accepted(test) => if test.id in Keys(TestId(), before) then [Rejection(test.name, DuplicateId)] else []
    case Raises(_) => []
  }

  function NewTest(verdict: Verdict, before: seq<SuggestedTest>): seq<SuggestedTest> {
    if verdict.Accepted? && verdict.test.id !in Keys(TestId(), before) then [verdict.test] else []
  }

  datatype Sifted = Sifted(tests: seq<SuggestedTest>, rejected: seq<Rejection>)

  /** Sorting candidates from position `i` on: it ends when eight tests are kept
      or the candidates run out, and a violation ends it at once. */
  function Sift(validate: Json -> Verdict, candidates: seq<Json>, i: nat): Result<Sifted, string>
    requires i <= |candidates|
    decreases |candidates| - i
  {
    var sofar := candidates[..i];
    if i == |candidates| || |Kept(validate, sofar)| >= SUGGESTED_TESTS
      then Ok(Sifted(Kept(validate, sofar), Refused(validate, sofar)))
    else if Judge(validate, candidates[i]).Raises? then Err(Judge(validate, candidates[i]).path)
    else Sift(validate, candidates, i + 1)
  }

  lemma {:induction false} AcceptedAppend(validate: Json -> Verdict, a: seq<Json>, b: seq<Json>)
    ensures AcceptedTests(validate, a + b) == AcceptedTests(validate, a) + AcceptedTests(validate, b)
    decreases |a|
  {
    if a == [] {
      assert a + b == b;
    } else {
      AcceptedAppend(validate, a[1..], b);
      assert (a + b)[0] == a[0] && (a + b)[1..] == a[1..] + b;
      var verdict := Judge(validate, a[0]);
      var first := if verdict.Accepted? then [verdict.test] else [];
      assert first + (AcceptedTests(validate, a[1..]) + AcceptedTests(validate, b))
          == first + AcceptedTests(validate, a[1..]) + AcceptedTests(validate, b);
    }
  }

  lemma NextCandidate(validate: Json -> Verdict, candidates: seq<Json>, i: nat)
    requires i < |candidates|
    ensures Kept(validate, candidates[..i + 1])
         == Kept(validate, candidates[..i]) + NewTest(Judge(validate, candidates[i]), Kept(validate, candidates[..i]))
    ensures Refused(validate, candidates[..i + 1])
         == Refused(validate, candidates[..i])
           + NewRefusal(Judge(validate, candidates[i]), Kept(validate, candidates[..i]))
  {
    var verdict := Judge(validate, candidates[i]);
    var accepted := AcceptedTests(validate, candidates[..i]);
    assert candidates[..i + 1] == candidates[..i] + [candidates[i]];
    assert candidates[..i + 1][..i] == candidates[..i];
    AcceptedAppend(validate, candidates[..i], [candidates[i]]);
    assert AcceptedTests(validate, [candidates[i]]) == if verdict.Accepted? then [verdict.test] else [];
    DedupeDistinct(TestId(), accepted);
    if verdict.Accepted? {
      DedupeOne(TestId(), accepted, verdict.test);
    } else {
      assert accepted + [] == accepted;
      assert Kept(validate, candidates[..i]) + [] == Kept(validate, candidates[..i]);
    }
  }

  lemma AddTestId(tests: seq<SuggestedTest>, test: SuggestedTest)
    ensures Keys(TestId(), tests + [test]) == Keys(TestId(), tests) + {test.id}
  {
    KeysAppend(TestId(), tests, [test]);
    assert TestId()([test][0]) == test.id;
    assert Keys(TestId(), [test]) == {test.id};
  }

  /** Where candidate `i` leads. */
  lemma SiftStep(validate: Json -> Verdict, candidates: seq<Json>, i: nat)
    requires i < |candidates| && |Kept(validate, candidates[..i])| < SUGGESTED_TESTS
    ensures var verdict, next := Judge(validate, candidates[i]), Sift(validate, candidates, i);
            if verdict.Raises? then next == Err(verdict.path) else next == Sift(validate, candidates, i + 1)
  {
  }

  method SiftCandidates(validate: Json -> Verdict, candidates: seq<Json>) returns (r: Result<Sifted, string>)
    ensures r == Sift(validate, candidates, 0)
  {
    var tests: seq<SuggestedTest> := [];
    var rejected: seq<Rejection> := [];
    var ids: set<string> := {};
    var i := 0;
    while i < |candidates|
      invariant 0 <= i <= |candidates|
      invariant tests == Kept(validate, candidates[..i]) && |tests| < SUGGESTED_TESTS
      invariant rejected == Refused(validate, candidates[..i])
      invariant ids == Keys(TestId(), tests)
      invariant Sift(validate, candidates, 0) == Sift(validate, candidates, i)
    {
      var candidate := candidates[i];
      NextCandidate(validate, candidates, i);
      SiftStep(validate, candidates, i);
      i := i + 1;
      if !candidate.Object? {
        rejected := rejected + [Rejection("Unnamed suggestion", NotAnObject)];
        continue;
      }
      match validate(candidate) {
        case Raises(path) =>
          return Err(path);
        case Rejected(name, reason) =>
          rejected := rejected + [Rejection(name, reason)];
        case Accepted(test) =>
          if test.id in ids {
            rejected := rejected + [Rejection(test.name, DuplicateId)];
          } else {
            AddTestId(tests, test);
            ids := ids + {test.id};
            tests := tests + [test];
            assert rejected + [] == rejected;
            if |tests| >= SUGGESTED_TESTS {
              return Ok(Sifted(tests, rejected));
            }
          }
      }
    }
    r := Ok(Sifted(tests, rejected));
  }

  /** The first `n` candidates are judged without a violation, each with room for
      another test. */
  ghost predicate Consumed(validate: Json -> Verdict, candidates: seq<Json>, n: nat)
    requires n <= |candidates|
  {
    n == 0 || (Consumed(validate, candidates, n - 1)
               && !Judge(validate, candidates[n - 1]).Raises?
               && |Kept(validate, candidates[..n - 1])| < SUGGESTED_TESTS)
  }

  /** Where the sorting stops. */
  lemma {:induction false} SiftStops(validate: Json -> Verdict, candidates: seq<Json>, i: nat) returns (n: nat)
    requires i <= |candidates| && Consumed(validate, candidates, i) && Sift(validate, candidates, i).Ok?
    ensures i <= n <= |candidates| && Consumed(validate, candidates, n)
    ensures Sift(validate, candidates, i).value
              == Sifted(Kept(validate, candidates[..n]), Refused(validate, candidates[..n]))
    ensures n == |candidates| || |Kept(validate, candidates[..n])| >= SUGGESTED_TESTS
    decreases |candidates| - i
  {
    if i == |candidates| || |Kept(validate, candidates[..i])| >= SUGGESTED_TESTS {
      n := i;
    } else {
      n := SiftStops(validate, candidates, i + 1);
    }
  }

  lemma {:induction false} ConsumedCounts(validate: Json -> Verdict, candidates: seq<Json>, n: nat)
    requires n <= |candidates| && Consumed(validate, candidates, n)
    ensures |Kept(validate, candidates[..n])| + |Refused(validate, candidates[..n])| == n
    ensures |Kept(validate, candidates[..n])| <= SUGGESTED_TESTS
  {
    if n == 0 {
      assert candidates[..0] == [];
    } else {
      ConsumedCounts(validate, candidates, n - 1);
      CandidateCounts(validate, candidates, n - 1);
    }
  }

  /** A candidate that does not raise lands in exactly one of the two lists. */
  lemma CandidateCounts(validate: Json -> Verdict, candidates: seq<Json>, i: nat)
    requires i < |candidates| && !Judge(validate, candidates[i]).Raises?
    ensures |Kept(validate, candidates[..i + 1])| + |Refused(validate, candidates[..i + 1])|
         == |Kept(validate, candidates[..i])| + |Refused(validate, candidates[..i])| + 1
    ensures |Kept(validate, candidates[..i])| <= |Kept(validate, candidates[..i + 1])|
    ensures |Kept(validate, candidates[..i + 1])| <= |Kept(validate, candidates[..i])| + 1
  {
    NextCandidate(validate, candidates, i);
  }

  /** The tests kept are the first accepted of each id, in order. */
  lemma KeepsFirstAccepted(validate: Json -> Verdict, candidates: seq<Json>, t: SuggestedTest)
    ensures Kept(validate, candidates) == FirstOccurrences(TestId(), AcceptedTests(validate, candidates))
    ensures t in Kept(validate, candidates)
       <==> var accepted := AcceptedTests(validate, candidates);
            exists i :: 0 <= i < |accepted| && IsFirst(TestId(), accepted, i) && accepted[i] == t
  {
    DedupeIsFirsts(TestId(), AcceptedTests(validate, candidates));
    DedupeKeepsFirsts(TestId(), AcceptedTests(validate, candidates), t);
  }

  /** Of the at most sixteen candidates looked at, each consumed one is either kept
      or refused, ids are distinct, at most eight are kept, and cutting the refused
      list to sixteen drops nothing. */
  lemma SuggestionAccounting(validate: Json -> Verdict, candidates: seq<Json>) returns (n: nat)
    requires |candidates| <= 2 * SUGGESTED_TESTS && Sift(validate, candidates, 0).Ok?
    ensures var r := Sift(validate, candidates, 0).value;
            && n <= |candidates|
            && r.tests == Kept(validate, candidates[..n]) && r.rejected == Refused(validate, candidates[..n])
            && |r.tests| + |r.rejected| == n && |r.tests| <= SUGGESTED_TESTS
            && (n < |candidates| ==> |r.tests| == SUGGESTED_TESTS)
            && DistinctKeys(TestId(), r.tests)
            && FirstN(r.rejected, 2 * SUGGESTED_TESTS) == r.rejected
  {
    n := SiftStops(validate, candidates, 0);
    ConsumedCounts(validate, candidates, n);
    DedupeDistinct(TestId(), AcceptedTests(validate, candidates[..n]));
  }

  // ---------------------------------------------------------------- whole answers

  function ExplanationOf(h: Host, raw: Json, c: Context): Result<Output, string> {
    var summary :- TextField(h, raw, "summary", SHORT);
    var meaning :- TextField(h, raw, "meaning", TEXT_LIMIT);
    var why :- TextField(h, raw, "whyItMatters", TEXT_LIMIT);
    var impact :- TextField(h, raw, "impact", TEXT_LIMIT);
    var causes :- ListField(h, raw, "likelyCauses", LIST, true);
    var recommendations :- ListField(h, raw, "recommendations", LIST, false);
    var next :- TextField(h, raw, "nextStep", SHORT);
    var evidence :- EvidenceField(Field(raw, "evidence"), c.evidenceIndex, "$");
    var confidence :- ConfidenceField(raw);
    var caveats :- ListField(h, raw, "caveats", CAVEATS, true);
    Ok(Explanation(summary, meaning, why, impact, causes, recommendations, next, evidence, confidence, caveats))
  }

  function SummaryOf(h: Host, raw: Json, c: Context): Result<Output, string> {
    var headline :- TextField(h, raw, "headline", SHORT);
    var assessment :- TextField(h, raw, "overallAssessment", LONG);
    var strengths :- ListField(h, raw, "strengths", LIST, true);
    var risks :- ListField(h, raw, "risks", LIST, true);
    var priorities :- ListField(h, raw, "priorities", LIST, false);
    var evidence :- EvidenceField(Field(raw, "evidence"), c.evidenceIndex, "$");
    var confidence :- ConfidenceField(raw);
    var caveats :- ListField(h, raw, "caveats", CAVEATS, true);
    Ok(Summary(headline, assessment, strengths, risks, priorities, evidence, confidence, caveats))
  }

  function AnswerOf(h: Host, raw: Json, c: Context): Result<Output, string> {
    if !Field(raw, "outOfScope").Flag? then Err("$.outOfScope")
    else
      var answer :- TextField(h, raw, "answer", LONG);
      var evidence :- EvidenceField(Field(raw, "evidence"), c.evidenceIndex, "$");
      var confidence :- ConfidenceField(raw);
      var caveats :- ListField(h, raw, "caveats", CAVEATS, true);
      Ok(Answer(answer, Field(raw, "outOfScope").flag, evidence, confidence, caveats))
  }

  function SuggestionsOf(h: Host, raw: Json, validate: Json -> Verdict): Result<Output, string> {
    if !Field(raw, "tests").Array? then Err("$.tests")
    else
      var sifted :- Sift(validate, FirstN(Field(raw, "tests").items, 2 * SUGGESTED_TESTS), 0);
      var summary :- TextField(h, raw, "summary", SHORT);
      var confidence :- ConfidenceField(raw);
      var caveats :- ListField(h, raw, "caveats", CAVEATS, true);
      Ok(Suggestions(summary, sifted.tests, FirstN(sifted.rejected, 2 * SUGGESTED_TESTS), confidence, caveats))
  }

  /** `validateOutput`, with the test validator already given its context. */
  function ValidateOutput(h: Host, feature: Feature, raw: Json, c: Context, validate: Json -> Verdict)
    : Result<Output, string>
  {
    match feature
    case ExplainFinding => ExplanationOf(h, raw, c)
    case ExplainTestFailure => ExplanationOf(h, raw, c)
    case AnalyzeRuntimeError => ExplanationOf(h, raw, c)
    case SummarizeReport => SummaryOf(h, raw, c)
    case SuggestTests => SuggestionsOf(h, raw, validate)
    case AnswerQuestion => AnswerOf(h, raw, c)
  }

  /** A validator that accepts only tests whose evidence is in the index. */
  ghost predicate CitesIndex(validate: Json -> Verdict, index: seq<Ref>) {
    forall j: Json :: validate(j).Accepted? ==> forall r :: r in validate(j).test.evidence ==> r in index
  }

  lemma {:induction false} AcceptedCiteIndex(validate: Json -> Verdict, candidates: seq<Json>, index: seq<Ref>,
                                             t: SuggestedTest)
    requires CitesIndex(validate, index) && t in AcceptedTests(validate, candidates)
    ensures forall r :: r in t.evidence ==> r in index
    decreases |candidates|
  {
    if t in AcceptedTests(validate, candidates[1..]) {
      AcceptedCiteIndex(validate, candidates[1..], index, t);
    }
  }

  lemma EvidenceFieldCites(value: Json, index: seq<Ref>, path: string, ref: Ref)
    requires EvidenceField(value, index, path).Ok? && ref in EvidenceField(value, index, path).value
    ensures ref in index
  {
    EvidenceIsIndexed(index, value.items, ref);
  }

  /** The tests of validated suggestions are those the sorting kept. */
  lemma SuggestedTests(h: Host, raw: Json, validate: Json -> Verdict)
    requires SuggestionsOf(h, raw, validate).Ok?
    ensures Field(raw, "tests").Array?
    ensures var sifted := Sift(validate, FirstN(Field(raw, "tests").items, 2 * SUGGESTED_TESTS), 0);
            sifted.Ok? && SuggestionsOf(h, raw, validate).value.Suggestions?
            && SuggestionsOf(h, raw, validate).value.tests == sifted.value.tests
  {
  }

  lemma SiftedCite(validate: Json -> Verdict, candidates: seq<Json>, index: seq<Ref>, t: SuggestedTest)
    requires CitesIndex(validate, index) && |candidates| <= 2 * SUGGESTED_TESTS
    requires Sift(validate, candidates, 0).Ok? && t in Sift(validate, candidates, 0).value.tests
    ensures forall r :: r in t.evidence ==> r in index
  {
    var n := SuggestionAccounting(validate, candidates);
    DedupeMember(TestId(), {}, AcceptedTests(validate, candidates[..n]), t);
    AcceptedCiteIndex(validate, candidates[..n], index, t);
  }

  lemma SuggestionsCite(h: Host, raw: Json, index: seq<Ref>, validate: Json -> Verdict, ref: Ref)
    requires CitesIndex(validate, index)
    requires SuggestionsOf(h, raw, validate).Ok? && Cites(SuggestionsOf(h, raw, validate).value, ref)
    ensures ref in index
  {
    SuggestedTests(h, raw, validate);
    var candidates := FirstN(Field(raw, "tests").items, 2 * SUGGESTED_TESTS);
    var t :| t in Sift(validate, candidates, 0).value.tests && ref in t.evidence;
    SiftedCite(validate, candidates, index, t);
  }

  /** The evidence of an answer that has an evidence list is its evidence field. */
  ghost predicate HasEvidenceOf(r: Result<Output, string>, raw: Json, c: Context) {
    r.Ok? ==>
      !r.value.Suggestions? && EvidenceField(Field(raw, "evidence"), c.evidenceIndex, "$") == Ok(r.value.evidence)
  }

  lemma ExplanationEvidence(h: Host, raw: Json, c: Context)
    ensures HasEvidenceOf(ExplanationOf(h, raw, c), raw, c)
  {
  }

  lemma SummaryEvidence(h: Host, raw: Json, c: Context)
    ensures HasEvidenceOf(SummaryOf(h, raw, c), raw, c)
  {
  }

  lemma AnswerEvidence(h: Host, raw: Json, c: Context)
    ensures HasEvidenceOf(AnswerOf(h, raw, c), raw, c)
  {
  }

  lemma EvidenceCites(r: Result<Output, string>, raw: Json, c: Context, ref: Ref)
    requires HasEvidenceOf(r, raw, c) && r.Ok? && Cites(r.value, ref)
    ensures ref in c.evidenceIndex
  {
    EvidenceFieldCites(Field(raw, "evidence"), c.evidenceIndex, "$", ref);
  }

  /** Every reference of every validated answer is an entry of the context's index,
      label included. */
  lemma OutputCitesContext(h: Host, feature: Feature, raw: Json, c: Context, validate: Json -> Verdict, ref: Ref)
    requires CitesIndex(validate, c.evidenceIndex)
    requires ValidateOutput(h, feature, raw, c, validate).Ok?
    requires Cites(ValidateOutput(h, feature, raw, c, validate).value, ref)
    ensures ref in c.evidenceIndex
  {
    match feature
    case SuggestTests =>
      SuggestionsCite(h, raw, c.evidenceIndex, validate, ref);
    case SummarizeReport =>
      SummaryEvidence(h, raw, c);
      EvidenceCites(SummaryOf(h, raw, c), raw, c, ref);
    case AnswerQuestion =>
      AnswerEvidence(h, raw, c);
      EvidenceCites(AnswerOf(h, raw, c), raw, c, ref);
    case _ =>
      ExplanationEvidence(h, raw, c);
      EvidenceCites(ExplanationOf(h, raw, c), raw, c, ref);
  }
}

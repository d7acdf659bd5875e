/** What a context is before it is shaped, when building one fails, and how its items are
    listed as evidence. */
module ContextAssembly {
  import opened Seqs
  import opened AIErrors
  import opened AIContext
  import opened ContextSource
  import opened ContextBudget
  import opened ContextBuild
  import opened ContextShapes
  import opened ContextReaders

  // ---------------------------------------------------------------- focus first

  /** `r` is the first `max` of the items with `p`, in their order, and then the others in
      theirs. */
  ghost predicate FocusFirst<T>(items: seq<T>, p: T -> bool, max: nat, r: seq<T>) {
    && |r| == (if |items| <= max then |items| else max)
    && (forall i, j :: 0 <= i < j < |r| && p(r[j]) ==> p(r[i]))
    && Filter(r, p) <= Filter(items, p) && Filter(r, Not(p)) <= Filter(items, Not(p))
    && (|Filter(items, p)| <= max ==> Filter(r, p) == Filter(items, p))
  }

  lemma {:induction false} FilterSplits<T>(s: seq<T>, p: T -> bool)
    ensures |Filter(s, p)| + |Filter(s, Not(p))| == |s|
    ensures forall i :: 0 <= i < |Filter(s, p)| ==> p(Filter(s, p)[i])
  {
    if s != [] {
      FilterSplits(s[1..], p);
    }
  }

  lemma FilterOfBoth<T>(a: seq<T>, b: seq<T>, p: T -> bool)
    requires (forall i :: 0 <= i < |a| ==> p(a[i])) && (forall i :: 0 <= i < |b| ==> !p(b[i]))
    ensures Filter(a + b, p) == a && Filter(a + b, Not(p)) == b
  {
    FilterAppend(a, b, p);
    FilterAppend(a, b, Not(p));
    FilterAll(a, p);
    FilterNone(b, p);
    FilterNone(a, Not(p));
    FilterAll(b, Not(p));
  }

  lemma PrioritizeIsFocusFirst<T>(items: seq<T>, p: T -> bool, max: nat)
    ensures FocusFirst(items, p, max, Prioritize(items, p, max))
  {
    var focused, rest := Filter(items, p), Filter(items, Not(p));
    var r := Prioritize(items, p, max);
    FilterSplits(items, p);
    FilterSplits(items, Not(p));
    var k := if |focused| <= max then |focused| else max;
    assert r == focused[..k] + rest[..|r| - k];
    FilterOfBoth(focused[..k], rest[..|r| - k], p);
    assert forall i :: 0 <= i < k ==> p(r[i]);
    assert forall i :: k <= i < |r| ==> r[i] == rest[i - k];
  }

  // ---------------------------------------------------------------- before shaping

  /** A nullable text: none for an absent or empty one. */
  predicate NullableIs(h: Host, s: Option<string>, max: nat, out: Option<string>)
    requires max >= 1
  {
    if s == None || s == Some("") then out == None else out.Some? && CutIs(h.redact(s.value), max, out.value)
  }

  predicate GivenIs(s: Option<string>, out: Option<string>) {
    if s == Some("") then out == None else out == s
  }

  predicate ExtensionIs(h: Host, src: Source, e: Extension) {
    && NullableIs(h, src.name, 160, e.name) && NullableIs(h, src.version, 40, e.version)
    && NullableIs(h, src.manifestVersion, 16, e.manifestVersion)
    && e.permissions == PermissionContexts(h, Permissions(src)) && e.fileCount == src.fileCount
    && e.features <= src.features && |e.features| == (if |src.features| <= 20 then |src.features| else 20)
    && e.files == FilePaths(h, src)
  }

  predicate FocusIs(h: Host, asked: Focus, focus: Focus) {
    && GivenIs(asked.findingId, focus.findingId) && GivenIs(asked.testId, focus.testId)
    && NullableIs(h, asked.question, 500, focus.question)
  }

  /** The extension's own facts, cut to their limits. */
  lemma UnshapedExtension(h: Host, src: Source, options: Options)
    ensures ExtensionIs(h, src, Unshaped(h, src, options).extension)
  {
  }

  /** Requested ids as they are, and the question in at most 500 characters. */
  lemma UnshapedFocus(h: Host, src: Source, options: Options)
    ensures FocusIs(h, options.focus, Unshaped(h, src, options).focus)
  {
  }

  /** The rest as extracted, with nothing indexed or cut yet. */
  lemma UnshapedRest(h: Host, src: Source, options: Options)
    ensures var c := Unshaped(h, src, options);
            && c.resourceKind == src.resourceKind && c.resourceId == src.resourceId
            && c.scores == src.scores && c.run == src.runSummary
            && c.events == Events(h, src) && c.network == Requests(h, src)
            && c.evidenceIndex == [] && c.bytes == 0 && c.truncated == false
  {
  }

  /** Forty findings and thirty-two tests, the requested ones first. */
  lemma UnshapedFocusFirst(h: Host, src: Source, options: Options)
    ensures FocusFirst(AllFindings(h, src), (f: Finding) => options.focus.findingId == Some(f.id), 40,
                       Unshaped(h, src, options).findings)
    ensures FocusFirst(Tests(h, Results(src)), (t: Test) => options.focus.testId == Some(t.testId), 32,
                       Unshaped(h, src, options).tests)
  {
    Prioritized(AllFindings(h, src), FocusedFinding(options.focus.findingId),
                (f: Finding) => options.focus.findingId == Some(f.id), 40);
    Prioritized(Tests(h, Results(src)), FocusedTest(options.focus.testId),
                (t: Test) => options.focus.testId == Some(t.testId), 32);
  }

  lemma Prioritized<T>(items: seq<T>, p: T -> bool, q: T -> bool, max: nat)
    requires forall x :: x in items ==> p(x) == q(x)
    ensures FocusFirst(items, q, max, Prioritize(items, p, max))
  {
    FilterSame(items, p, q);
    FilterSame(items, Not(p), Not(q));
    PrioritizeIsFocusFirst(items, q, max);
  }

  // ---------------------------------------------------------------- when it fails

  /** A finding or test is asked for that the context does not have. */
  ghost predicate AsksForOther(c: Context) {
    || (c.focus.findingId.Some? && forall f :: f in c.findings ==> f.id != c.focus.findingId.value)
    || (c.focus.testId.Some? && forall t :: t in c.tests ==> t.testId != c.focus.testId.value)
  }

  /** The feature explains something that is not asked for. */
  predicate LacksFocus(c: Context, feature: Feature) {
    || (feature == ExplainFinding && c.focus.findingId == None)
    || (feature == ExplainTestFailure && c.focus.testId == None)
  }

  lemma ShapeFailsExactly(c: Context, feature: Feature)
    requires !AsksForOther(c)
    ensures Shape(c, feature) == Err(MissingFocus) <==> LacksFocus(c, feature)
    ensures Shape(c, feature).Ok? <==> !LacksFocus(c, feature)
  {
  }

  /** Building fails exactly for an unknown focus, a missing one, or a shaped context that
      with its index is still too large after the fewest trims that fit, or all eight. */
  lemma BuildFailsExactly(h: Host, measure: Context -> nat, src: Source, options: Options)
    ensures var c, r := Unshaped(h, src, options), BuildWith(h, measure, src, options);
            && (r == Err(Coded(UnauthorizedContext)) <==> AsksForOther(c))
            && (r == Err(MissingFocus) <==> !AsksForOther(c) && LacksFocus(c, options.feature))
            && (!AsksForOther(c) && !LacksFocus(c, options.feature) ==>
                  var fitted := Fitted(measure, Shape(c, options.feature).value, options.maxBytes);
                  var indexed := fitted.(evidenceIndex := EvidenceIndex(fitted));
                  r == if measure(indexed) > options.maxBytes then Err(Coded(ContextTooLarge))
                       else Ok(indexed.(bytes := measure(indexed))))
  {
    var c := Unshaped(h, src, options);
    UnknownFocus(c);
    if !AsksForOther(c) {
      ShapeFailsExactly(c, options.feature);
    }
  }

  lemma UnknownFocus(c: Context)
    ensures AsksForOther(c)
       <==> || (c.focus.findingId.Some? && Find(c.findings, FocusedFinding(c.focus.findingId)).None?)
            || (c.focus.testId.Some? && Find(c.tests, FocusedTest(c.focus.testId)).None?)
  {
  }

  // ---------------------------------------------------------------- references

  lemma RefsAre(f: Finding, t: Test, path: string, e: RuntimeEvent, r: Request, p: Permission)
    ensures FindingRef(f) == Ref(match f.source case Diagnostic => "diagnostic" case Static => "finding", f.id, f.title)
    ensures TestRef(t) == Ref("test", t.testId, t.name)
    ensures FileRef(path) == Ref("file", path, path)
    ensures EventRef(e).kind == "event" && EventRef(e).id == e.id && CutIs(e.message, 80, EventRef(e).caption)
    ensures RequestRef(r).kind == "network" && RequestRef(r).id == r.id
    ensures exists url :: CutIs(r.url, 60, url) && RequestRef(r).caption == r.verb + " " + url
    ensures PermissionRef(p) == Ref("permission", p.name, p.name)
  {
    assert CutIs(r.url, 60, Truncate(r.url, 60));
  }
}

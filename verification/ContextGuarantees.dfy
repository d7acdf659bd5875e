/** What a built context promises: the focus is kept, the size is right, and
    everything it lists comes from the stored records. */
module ContextGuarantees {
  import opened Seqs
  import opened AIContext
  import opened ContextSource
  import opened ContextBudget
  import opened ContextBuild

  /** The shaped context behind a successful build, and how many trims it took. */
  lemma AssembledFrom(measure: Context -> nat, c: Context, options: Options) returns (shaped: Context, n: nat)
    requires Assemble(measure, c, options).Ok?
    ensures Shape(c, options.feature) == Ok(shaped)
    ensures n <= TRIMS && Assemble(measure, c, options).value == Finished(measure, AfterTrims(shaped, n))
    ensures Finished(measure, AfterTrims(shaped, n)).bytes <= options.maxBytes
    ensures c.focus.findingId.Some? ==> exists f :: f in c.findings && f.id == c.focus.findingId.value
    ensures c.focus.testId.Some? ==> exists t :: t in c.tests && t.testId == c.focus.testId.value
  {
    shaped := Shape(c, options.feature).value;
    n := FewestTrims(measure, shaped, options.maxBytes);
  }

  lemma ShapeKeepsCounters(c: Context, feature: Feature)
    requires Shape(c, feature).Ok?
    ensures Shape(c, feature).value.bytes == c.bytes && Shape(c, feature).value.focus == c.focus
    ensures Shape(c, feature).value.truncated == c.truncated
  {
  }

  lemma FinishedBytes(measure: Context -> nat, fitted: Context)
    requires fitted.bytes == 0
    ensures var c := Finished(measure, fitted); c.bytes == measure(c.(bytes := 0))
  {
    assert Finished(measure, fitted).(bytes := 0) == Indexed(fitted);
  }

  /** The byte count is the context's own measure, taken with a zero count, and
      within the budget. */
  lemma AssembledWithinBudget(measure: Context -> nat, c: Context, options: Options)
    requires c.bytes == 0 && Assemble(measure, c, options).Ok?
    ensures var r := Assemble(measure, c, options).value;
            r.bytes == measure(r.(bytes := 0)) && r.bytes <= options.maxBytes
  {
    var shaped, n := AssembledFrom(measure, c, options);
    ShapeKeepsCounters(c, options.feature);
    TrimsCut(shaped, n);
    FinishedBytes(measure, AfterTrims(shaped, n));
  }

  lemma BytesWithinBudget(h: Host, measure: Context -> nat, src: Source, options: Options)
    requires BuildWith(h, measure, src, options).Ok?
    ensures var c := BuildWith(h, measure, src, options).value;
            c.bytes == measure(c.(bytes := 0)) && c.bytes <= options.maxBytes
  {
    AssembledWithinBudget(measure, Unshaped(h, src, options), options);
  }

  /** The measure used counts the byte count itself as zero. */
  lemma MeasureIgnoresBytes(h: Host, c: Context, bytes: nat)
    ensures ByteMeasure(h)(c.(bytes := bytes)) == ByteMeasure(h)(c)
  {
  }

  /** The context admits to being partial exactly when its shaped form was over
      budget. */
  lemma AssembledTruncation(measure: Context -> nat, c: Context, options: Options)
    requires !c.truncated && Assemble(measure, c, options).Ok?
    ensures Assemble(measure, c, options).value.truncated <==>
              measure(Shape(c, options.feature).value) > options.maxBytes
  {
    var shaped, n := AssembledFrom(measure, c, options);
    ShapeKeepsCounters(c, options.feature);
    FinishedFitted(measure, c, options);
    TruncatedExactly(measure, shaped, options.maxBytes);
  }

  lemma TruncationReported(h: Host, measure: Context -> nat, src: Source, options: Options)
    requires BuildWith(h, measure, src, options).Ok?
    ensures BuildWith(h, measure, src, options).value.truncated
       <==> measure(Shape(Unshaped(h, src, options), options.feature).value) > options.maxBytes
  {
    AssembledTruncation(measure, Unshaped(h, src, options), options);
  }

  lemma FinishedFitted(measure: Context -> nat, c: Context, options: Options)
    requires Assemble(measure, c, options).Ok?
    ensures Assemble(measure, c, options).value
              == Finished(measure, Fitted(measure, Shape(c, options.feature).value, options.maxBytes))
  {
  }

  /** The built context lists exactly its own items as citable evidence. */
  lemma AssembledIndex(measure: Context -> nat, c: Context, options: Options, ref: Ref)
    requires Assemble(measure, c, options).Ok?
    ensures var r := Assemble(measure, c, options).value;
            ref in r.evidenceIndex <==> Names(r, ref)
  {
    var shaped, n := AssembledFrom(measure, c, options);
    var fitted := AfterTrims(shaped, n);
    IndexNamesExactly(fitted, ref);
    NamesIgnoresIndex(fitted, Finished(measure, fitted), ref);
  }

  lemma IndexIsComplete(h: Host, measure: Context -> nat, src: Source, options: Options, ref: Ref)
    requires BuildWith(h, measure, src, options).Ok?
    ensures var c := BuildWith(h, measure, src, options).value;
            ref in c.evidenceIndex <==> Names(c, ref)
  {
    AssembledIndex(measure, Unshaped(h, src, options), options, ref);
  }

  lemma NamesIgnoresIndex(a: Context, b: Context, ref: Ref)
    requires a.findings == b.findings && a.tests == b.tests && a.extension == b.extension
    requires a.events == b.events && a.network == b.network
    ensures Names(a, ref) <==> Names(b, ref)
  {
  }

  /** A focused finding is never dropped, whatever the feature and the budget. */
  lemma AssembledKeepsFinding(measure: Context -> nat, c: Context, options: Options, items: seq<Finding>, id: string)
    requires c.focus.findingId == Some(id)
    requires c.findings == Prioritize(items, FocusedFinding(Some(id)), MAX_FINDINGS)
    requires Assemble(measure, c, options).Ok?
    ensures var r := Assemble(measure, c, options).value;
            exists f :: f in r.findings && f.id == id && FindingRef(f) in r.evidenceIndex
  {
    var r := Assemble(measure, c, options).value;
    var shaped, n := AssembledFrom(measure, c, options);
    var isFocused := FocusedFinding(Some(id));
    var focused :| focused in c.findings && focused.id == id;
    assert isFocused(focused);
    PrioritizedFirst(items, isFocused, MAX_FINDINGS);
    FindingSurvivesShape(c, options.feature, id);
    ShapeKeepsCounters(c, options.feature);
    FindingSurvivesTrims(shaped, n, id);
    var k :| 0 <= k < |AfterTrims(shaped, n).findings| && AfterTrims(shaped, n).findings[k].id == id;
    var f := r.findings[k];
    AssembledIndex(measure, c, options, FindingRef(f));
    assert f in r.findings;
  }

  /** A requested finding is in the context and in its index. */
  lemma FocusFindingRetained(h: Host, measure: Context -> nat, src: Source, options: Options, id: string)
    requires BuildWith(h, measure, src, options).Ok?
    requires options.focus.findingId == Some(id) && id != ""
    ensures var c := BuildWith(h, measure, src, options).value;
            exists f :: f in c.findings && f.id == id && FindingRef(f) in c.evidenceIndex
  {
    AssembledKeepsFinding(measure, Unshaped(h, src, options), options, AllFindings(h, src), id);
  }

  /** A focused test is never dropped, except by the feature that explains a
      finding. */
  lemma AssembledKeepsTest(measure: Context -> nat, c: Context, options: Options, items: seq<Test>, id: string)
    requires c.focus.testId == Some(id) && !options.feature.ExplainFinding?
    requires c.tests == Prioritize(items, FocusedTest(Some(id)), MAX_TESTS)
    requires Assemble(measure, c, options).Ok?
    ensures var r := Assemble(measure, c, options).value;
            exists t :: t in r.tests && t.testId == id && TestRef(t) in r.evidenceIndex
  {
    var r := Assemble(measure, c, options).value;
    var shaped, n := AssembledFrom(measure, c, options);
    var isFocused := FocusedTest(Some(id));
    var focused :| focused in c.tests && focused.testId == id;
    assert isFocused(focused);
    PrioritizedFirst(items, isFocused, MAX_TESTS);
    TestSurvivesShape(c, options.feature, id);
    ShapeKeepsCounters(c, options.feature);
    TestSurvivesTrims(shaped, n, id);
    var k :| 0 <= k < |AfterTrims(shaped, n).tests| && AfterTrims(shaped, n).tests[k].testId == id;
    var t := r.tests[k];
    AssembledIndex(measure, c, options, TestRef(t));
    assert t in r.tests;
  }

  /** A requested test is in the context and in its index, except when a finding is
      explained. */
  lemma FocusTestRetained(h: Host, measure: Context -> nat, src: Source, options: Options, id: string)
    requires BuildWith(h, measure, src, options).Ok?
    requires options.focus.testId == Some(id) && id != "" && !options.feature.ExplainFinding?
    ensures var c := BuildWith(h, measure, src, options).value;
            exists t :: t in c.tests && t.testId == id && TestRef(t) in c.evidenceIndex
  {
    AssembledKeepsTest(measure, Unshaped(h, src, options), options, Tests(h, Results(src)), id);
  }

  // ---------------------------------------------------------------- provenance

  /** Same identity and same label. */
  ghost predicate SameFinding(f: Finding, o: Finding) {
    f.id == o.id && f.source == o.source && f.title == o.title && f.sourceFile == o.sourceFile
  }

  ghost predicate SameTest(t: Test, o: Test) {
    t.testId == o.testId && t.name == o.name
  }

  /** Every item of `c` is an item of `o` under the same identity and label. */
  ghost predicate DrawnFrom(c: Context, o: Context) {
    && (forall f :: f in c.findings ==> exists g :: g in o.findings && SameFinding(f, g))
    && (forall t :: t in c.tests ==> exists u :: u in o.tests && SameTest(t, u))
    && (forall e :: e in c.events ==> exists d :: d in o.events && EventRef(e) == EventRef(d))
    && (forall r :: r in c.network ==> r in o.network)
    && (forall path :: path in c.extension.files ==> path in o.extension.files)
    && c.extension.permissions == o.extension.permissions
  }

  lemma {:induction false} EmbeddedMember<A(!new), B(!new)>(r: (A, B) -> bool, a: seq<A>, b: seq<B>, x: A)
    requires Embeds(r, a, b) && x in a
    ensures exists y :: y in b && r(x, y)
    decreases |b|
  {
    if r(a[0], b[0]) && Embeds(r, a[1..], b[1..]) {
      if x != a[0] {
        EmbeddedMember(r, a[1..], b[1..], x);
      }
    } else {
      EmbeddedMember(r, a, b[1..], x);
    }
  }

  lemma CutIsDrawn(c: Context, o: Context)
    requires CutFrom(c, o)
    ensures DrawnFrom(c, o)
  {
    forall f | f in c.findings
      ensures exists g :: g in o.findings && SameFinding(f, g)
    {
      EmbeddedMember(CutFinding, c.findings, o.findings, f);
      var g :| g in o.findings && CutFinding(f, g);
      assert SameFinding(f, g);
    }
    forall t | t in c.tests
      ensures exists u :: u in o.tests && SameTest(t, u)
    {
      EmbeddedMember(CutTest, c.tests, o.tests, t);
      var u :| u in o.tests && CutTest(t, u);
      assert SameTest(t, u);
    }
    forall e | e in c.events
      ensures exists d :: d in o.events && EventRef(e) == EventRef(d)
    {
      EmbeddedMember(CutEvent, c.events, o.events, e);
      var d :| d in o.events && CutEvent(e, d);
      TruncateTwice(d.message, TEXT, 80);
    }
    forall r | r in c.network
      ensures r in o.network
    {
      EmbeddedMember(Equal<Request>, c.network, o.network, r);
    }
  }

  /** Selecting by `p`, capping and summarizing keeps identities. */
  lemma SummarizedFindings(s: seq<Finding>, p: Finding -> bool, n: nat, f: Finding)
    requires f in Filter(s, p) || f in Map(SummarizeFinding, FirstN(Filter(s, Not(p)), n))
    ensures exists g :: g in s && SameFinding(f, g)
  {
    if f in Filter(s, p) {
      FilterMember(s, p, f);
      assert SameFinding(f, f);
    } else {
      var rest := FirstN(Filter(s, Not(p)), n);
      MapMember(SummarizeFinding, rest, f);
      var g :| g in rest && f == SummarizeFinding(g);
      FilterMember(s, Not(p), g);
      assert SameFinding(f, g);
    }
  }

  lemma MappedFindings(m: Finding -> Finding, s: seq<Finding>, f: Finding)
    requires forall g :: SameFinding(m(g), g)
    requires f in Map(m, s)
    ensures exists g :: g in s && SameFinding(f, g)
  {
    MapMember(m, s, f);
    var g :| g in s && f == m(g);
    assert SameFinding(f, g);
  }

  lemma FilteredTests(s: seq<Test>, p: Test -> bool, t: Test)
    requires t in Filter(s, p) || t in Map(SummarizeTest, Filter(s, Not(p)))
    ensures exists u :: u in s && SameTest(t, u)
  {
    if t in Filter(s, p) {
      FilterMember(s, p, t);
      assert SameTest(t, t);
    } else {
      MapMember(SummarizeTest, Filter(s, Not(p)), t);
      var u :| u in Filter(s, Not(p)) && t == SummarizeTest(u);
      FilterMember(s, Not(p), u);
      assert SameTest(t, u);
    }
  }

  lemma MappedTests(m: Test -> Test, s: seq<Test>, t: Test)
    requires forall u :: SameTest(m(u), u)
    requires t in Map(m, s)
    ensures exists u :: u in s && SameTest(t, u)
  {
    MapMember(m, s, t);
    var u :| u in s && t == m(u);
    assert SameTest(t, u);
  }

  lemma ShapedFindings(c: Context, feature: Feature, f: Finding)
    requires Shape(c, feature).Ok? && f in Shape(c, feature).value.findings
    ensures exists g :: g in c.findings && SameFinding(f, g)
  {
    match feature
    case ExplainFinding =>
      var focused := Find(c.findings, FocusedFinding(c.focus.findingId)).value;
      if f == focused {
        assert SameFinding(f, focused);
      } else {
        SummarizedFindings(c.findings, FindingIs(focused.id), 12, f);
      }
    case ExplainTestFailure =>
      SummarizedFindings(c.findings, RelatedTo(Find(c.tests, FocusedTest(c.focus.testId)).value.testId), 8, f);
    case AnalyzeRuntimeError =>
      SummarizedFindings(c.findings, IsDiagnostic, 6, f);
    case SuggestTests =>
      MappedFindings(SummarizeFinding, c.findings, f);
    case SummarizeReport =>
      MappedFindings(ShortMessage, c.findings, f);
    case AnswerQuestion =>
      MappedFindings(ShortMessage, c.findings, f);
  }

  lemma ShapedTests(c: Context, feature: Feature, t: Test)
    requires Shape(c, feature).Ok? && t in Shape(c, feature).value.tests
    ensures exists u :: u in c.tests && SameTest(t, u)
  {
    match feature
    case ExplainFinding =>
      var focused := Find(c.findings, FocusedFinding(c.focus.findingId)).value;
      FilterMember(c.tests, TestIs(focused.relatedTestId.value), t);
      assert SameTest(t, t);
    case ExplainTestFailure =>
      var focused := Find(c.tests, FocusedTest(c.focus.testId)).value;
      if t == focused {
        assert SameTest(t, focused);
      } else {
        FilteredTests(c.tests, TestIs(focused.testId), t);
      }
    case AnalyzeRuntimeError =>
      FilteredTests(c.tests, Failing, t);
    case SuggestTests =>
      MappedTests(SummarizeTest, c.tests, t);
    case SummarizeReport =>
      MappedTests(SummarizeTestBriefly, c.tests, t);
    case AnswerQuestion =>
      MappedTests(SummarizeTestBriefly, c.tests, t);
  }

  lemma ShapeIsDrawn(c: Context, feature: Feature)
    requires Shape(c, feature).Ok?
    ensures DrawnFrom(Shape(c, feature).value, c)
  {
    var shaped := Shape(c, feature).value;
    forall f | f in shaped.findings
      ensures exists g :: g in c.findings && SameFinding(f, g)
    {
      ShapedFindings(c, feature, f);
    }
    forall t | t in shaped.tests
      ensures exists u :: u in c.tests && SameTest(t, u)
    {
      ShapedTests(c, feature, t);
    }
    forall e | e in shaped.events
      ensures e in c.events
    {
    }
  }

  /** `ref` cites a stored record, labelled as that record is. */
  ghost predicate SourceRef(h: Host, src: Source, ref: Ref) {
    || (exists f :: FindingFrom(h, src, f) && ref == FindingRef(f))
    || (exists t :: TestFrom(h, src, t) && ref == TestRef(t))
    || (exists path :: FileFrom(h, src, path) && ref == FileRef(path))
    || (exists f :: FindingFrom(h, src, f) && NamesFile(f) && ref == FileRef(f.sourceFile.value))
    || (exists e :: EventFrom(h, src, e) && ref == EventRef(e))
    || (exists r :: RequestFrom(h, src, r) && ref == RequestRef(r))
    || (exists p :: PermissionFrom(h, Permissions(src), p) && ref == PermissionRef(p))
    || ref in REPORT_SECTIONS
  }

  lemma PrioritizedMember<T>(items: seq<T>, p: T -> bool, max: nat, x: T)
    requires x in Prioritize(items, p, max)
    ensures x in items
  {
    FilterMember(items, p, x);
    FilterMember(items, Not(p), x);
  }

  lemma UnshapedFinding(h: Host, src: Source, options: Options, f: Finding)
    requires f in Unshaped(h, src, options).findings
    ensures FindingFrom(h, src, f)
  {
    PrioritizedMember(AllFindings(h, src), FocusedFinding(options.focus.findingId), MAX_FINDINGS, f);
    if f in StaticFindings(h, Issues(src)) {
      StaticFindingsFrom(h, src, f);
    } else {
      DiagnosticFindingsFrom(h, src, f);
    }
  }

  lemma UnshapedTest(h: Host, src: Source, options: Options, t: Test)
    requires t in Unshaped(h, src, options).tests
    ensures TestFrom(h, src, t)
  {
    PrioritizedMember(Tests(h, Results(src)), FocusedTest(options.focus.testId), MAX_TESTS, t);
    TestsFrom(h, src, t);
  }

  /** Citing an item of a context drawn from another cites the other's item. */
  lemma DrawnNames(c: Context, o: Context, ref: Ref)
    requires DrawnFrom(c, o) && Names(c, ref)
    ensures Names(o, ref)
  {
    if f :| f in c.findings && ref == FindingRef(f) {
      var g :| g in o.findings && SameFinding(f, g);
      assert ref == FindingRef(g);
    } else if t :| t in c.tests && ref == TestRef(t) {
      var u :| u in o.tests && SameTest(t, u);
      assert ref == TestRef(u);
    } else if path :| path in c.extension.files && ref == FileRef(path) {
      assert path in o.extension.files;
    } else if f :| f in c.findings && NamesFile(f) && ref == FileRef(f.sourceFile.value) {
      var g :| g in o.findings && SameFinding(f, g);
      assert ref == FileRef(g.sourceFile.value);
    } else if e :| e in c.events && ref == EventRef(e) {
      var d :| d in o.events && EventRef(e) == EventRef(d);
    }
  }

  /** Every item of `c` descends from a stored record. */
  ghost predicate DrawnFromSource(h: Host, src: Source, c: Context) {
    && (forall f :: f in c.findings ==> FindingFrom(h, src, f))
    && (forall t :: t in c.tests ==> TestFrom(h, src, t))
    && (forall path :: path in c.extension.files ==> FileFrom(h, src, path))
    && (forall e :: e in c.events ==> EventFrom(h, src, e))
    && (forall r :: r in c.network ==> RequestFrom(h, src, r))
    && (forall p :: p in c.extension.permissions ==> PermissionFrom(h, Permissions(src), p))
  }

  lemma UnshapedIsDrawn(h: Host, src: Source, options: Options)
    ensures DrawnFromSource(h, src, Unshaped(h, src, options))
  {
    var c := Unshaped(h, src, options);
    forall f | f in c.findings
      ensures FindingFrom(h, src, f)
    {
      UnshapedFinding(h, src, options, f);
    }
    forall t | t in c.tests
      ensures TestFrom(h, src, t)
    {
      UnshapedTest(h, src, options, t);
    }
    UnshapedRest(h, src, options);
  }

  lemma UnshapedRest(h: Host, src: Source, options: Options)
    ensures var c := Unshaped(h, src, options);
            && (forall path :: path in c.extension.files ==> FileFrom(h, src, path))
            && (forall e :: e in c.events ==> EventFrom(h, src, e))
            && (forall r :: r in c.network ==> RequestFrom(h, src, r))
            && (forall p :: p in c.extension.permissions ==> PermissionFrom(h, Permissions(src), p))
  {
    forall path | path in FilePaths(h, src)
      ensures FileFrom(h, src, path)
    {
      FilesFrom(h, src, path);
    }
    forall e | e in Events(h, src)
      ensures EventFrom(h, src, e)
    {
      EventsFrom(h, src, e);
    }
    forall r | r in Requests(h, src)
      ensures RequestFrom(h, src, r)
    {
      RequestsFrom(h, src, r);
    }
    forall p | p in PermissionContexts(h, Permissions(src))
      ensures PermissionFrom(h, Permissions(src), p)
    {
      PermissionsFrom(h, Permissions(src), p);
    }
  }

  lemma DrawnCitesSource(h: Host, src: Source, c: Context, ref: Ref)
    requires DrawnFromSource(h, src, c) && Names(c, ref)
    ensures SourceRef(h, src, ref)
  {
  }

  /** Whatever survives shaping and trimming was there before. */
  lemma AssembledInventsNothing(measure: Context -> nat, c: Context, options: Options, ref: Ref)
    requires Assemble(measure, c, options).Ok?
    requires ref in Assemble(measure, c, options).value.evidenceIndex
    ensures Names(c, ref)
  {
    var shaped, n := AssembledFrom(measure, c, options);
    var fitted := AfterTrims(shaped, n);
    IndexNamesExactly(fitted, ref);
    TrimsCut(shaped, n);
    CutIsDrawn(fitted, shaped);
    DrawnNames(fitted, shaped, ref);
    ShapeIsDrawn(c, options.feature);
    DrawnNames(shaped, c, ref);
  }

  /** Whatever survives prioritizing, shaping and trimming cites a stored record:
      the context invents nothing. */
  lemma NothingInvented(h: Host, measure: Context -> nat, src: Source, options: Options, ref: Ref)
    requires BuildWith(h, measure, src, options).Ok?
    requires ref in BuildWith(h, measure, src, options).value.evidenceIndex
    ensures SourceRef(h, src, ref)
  {
    AssembledInventsNothing(measure, Unshaped(h, src, options), options, ref);
    UnshapedIsDrawn(h, src, options);
    DrawnCitesSource(h, src, Unshaped(h, src, options), ref);
  }
}

/** What each feature's context holds: which items whole, which in brief, how many,
    and in what order. */
module ContextShapes {
  import opened Seqs
  import opened AIContext
  import opened ContextBudget
  import opened ContextBuild

  // ---------------------------------------------------------------- items in brief

  /** `f` is `o` in brief: a short message, no recommendation and no evidence. */
  predicate BriefFinding(f: Finding, o: Finding) {
    && f.id == o.id && f.source == o.source && f.severity == o.severity && f.category == o.category
    && f.title == o.title && f.relatedTestId == o.relatedTestId && f.sourceFile == o.sourceFile
    && f.message == Truncate(o.message, 160) && f.recommendation == None && f.evidence == None
  }

  predicate IsFailed(a: Assertion) {
    a.passed == false
  }

  /** `t` is `o` in brief: a short description, the first `max` failed assertions, two
      errors and two warnings, no steps and no evidence. */
  predicate BriefTest(t: Test, o: Test, max: nat) {
    && t.testId == o.testId && t.name == o.name && t.category == o.category && t.status == o.status
    && t.durationMs == o.durationMs && t.skippedReason == o.skippedReason
    && t.description == Truncate(o.description, 160)
    && t.steps == [] && t.evidence == []
    && t.assertions == FirstN(Filter(o.assertions, IsFailed), max)
    && t.errors == FirstN(o.errors, 2) && t.warnings == FirstN(o.warnings, 2)
  }

  predicate BriefFindings(a: seq<Finding>, b: seq<Finding>) {
    |a| == |b| && forall i :: 0 <= i < |a| ==> BriefFinding(a[i], b[i])
  }

  predicate BriefTests(a: seq<Test>, b: seq<Test>, max: nat) {
    |a| == |b| && forall i :: 0 <= i < |a| ==> BriefTest(a[i], b[i], max)
  }

  /** `f` is `o` with its message cut to 400 characters. */
  predicate CutMessages(a: seq<Finding>, b: seq<Finding>) {
    |a| == |b| && forall i :: 0 <= i < |a| ==> a[i] == b[i].(message := Truncate(b[i].message, 400))
  }

  lemma {:induction false} FilterSame<T>(s: seq<T>, p: T -> bool, q: T -> bool)
    requires forall x :: x in s ==> p(x) == q(x)
    ensures Filter(s, p) == Filter(s, q)
  {
    if s != [] {
      assert s[0] in s && forall x :: x in s[1..] ==> x in s;
      FilterSame(s[1..], p, q);
    }
  }

  lemma SummarizedFindingIsBrief(o: Finding)
    ensures BriefFinding(SummarizeFinding(o), o)
  {
  }

  lemma SummarizedTestIsBrief(o: Test)
    ensures BriefTest(SummarizeTest(o), o, 4) && BriefTest(SummarizeTestBriefly(o), o, 3)
  {
    FilterSame(o.assertions, Failed, IsFailed);
  }

  lemma SummarizedFindings(s: seq<Finding>)
    ensures BriefFindings(Map(SummarizeFinding, s), s)
  {
    forall i | 0 <= i < |s|
      ensures BriefFinding(Map(SummarizeFinding, s)[i], s[i])
    {
      SummarizedFindingIsBrief(s[i]);
    }
  }

  lemma SummarizedTests(s: seq<Test>)
    ensures BriefTests(Map(SummarizeTest, s), s, 4) && BriefTests(Map(SummarizeTestBriefly, s), s, 3)
  {
    forall i | 0 <= i < |s|
      ensures BriefTest(Map(SummarizeTest, s)[i], s[i], 4) && BriefTest(Map(SummarizeTestBriefly, s)[i], s[i], 3)
    {
      SummarizedTestIsBrief(s[i]);
    }
  }

  // ---------------------------------------------------------------- explaining a finding

  function HasFindingId(id: string): Finding -> bool {
    (f: Finding) => f.id == id
  }

  function OtherFinding(id: string): Finding -> bool {
    (f: Finding) => f.id != id
  }

  function HasTestId(id: string): Test -> bool {
    (t: Test) => t.testId == id
  }

  function OtherTest(id: string): Test -> bool {
    (t: Test) => t.testId != id
  }

  /** The position of the first finding with the focus id. */
  ghost predicate FirstFocused(c: Context, i: nat) {
    && i < |c.findings| && c.focus.findingId == Some(c.findings[i].id)
    && forall j :: 0 <= j < i ==> c.findings[j].id != c.findings[i].id
  }

  /** Explaining a finding: that finding whole and first, up to twelve others in brief,
      the tests it is about whole, no events and no requests. */
  lemma FindingShape(c: Context, i: nat)
    requires FirstFocused(c, i)
    ensures Shape(c, ExplainFinding).Ok?
    ensures var r, focused := Shape(c, ExplainFinding).value, c.findings[i];
            && |r.findings| >= 1 && r.findings[0] == focused
            && BriefFindings(r.findings[1..], FirstN(Filter(c.findings, OtherFinding(focused.id)), 12))
            && r.tests == (if focused.relatedTestId.Some? && focused.relatedTestId.value != ""
                           then Filter(c.tests, HasTestId(focused.relatedTestId.value)) else [])
            && r == c.(findings := r.findings, tests := r.tests, events := [], network := [])
  {
    var focused := c.findings[i];
    FindFirst(c.findings, FocusedFinding(c.focus.findingId), i);
    FilterSame(c.findings, Not(FindingIs(focused.id)), OtherFinding(focused.id));
    SummarizedFindings(FirstN(Filter(c.findings, OtherFinding(focused.id)), 12));
    if focused.relatedTestId.Some? {
      FilterSame(c.tests, TestIs(focused.relatedTestId.value), HasTestId(focused.relatedTestId.value));
    }
  }

  /** Without such a finding explaining one fails. */
  lemma NoFindingNoShape(c: Context)
    ensures Shape(c, ExplainFinding) == Err(MissingFocus) <==> !exists i :: FirstFocused(c, i)
    ensures Shape(c, ExplainFinding).Err? ==> Shape(c, ExplainFinding).error == MissingFocus
  {
    if i :| FirstFocused(c, i) {
      FindFirst(c.findings, FocusedFinding(c.focus.findingId), i);
    }
    if Find(c.findings, FocusedFinding(c.focus.findingId)).Some? {
      var i := FindIsFirst(c.findings, FocusedFinding(c.focus.findingId));
      assert FirstFocused(c, i);
    }
  }

  // ---------------------------------------------------------------- explaining a test failure

  function AboutTest(id: string): Finding -> bool {
    (f: Finding) => f.relatedTestId == Some(id)
  }

  function NotAboutTest(id: string): Finding -> bool {
    (f: Finding) => f.relatedTestId != Some(id)
  }

  ghost predicate FirstFocusedTest(c: Context, i: nat) {
    && i < |c.tests| && c.focus.testId == Some(c.tests[i].testId)
    && forall j :: 0 <= j < i ==> c.tests[j].testId != c.tests[i].testId
  }

  /** Explaining a test failure: that test whole and first, all others in brief, the
      findings about it whole and first, up to eight others in brief, the last twenty
      events and ten requests. */
  lemma TestShape(c: Context, i: nat)
    requires FirstFocusedTest(c, i)
    ensures Shape(c, ExplainTestFailure).Ok?
    ensures var r, focused := Shape(c, ExplainTestFailure).value, c.tests[i];
            var about := Filter(c.findings, AboutTest(focused.testId));
            && |r.tests| >= 1 && r.tests[0] == focused
            && BriefTests(r.tests[1..], Filter(c.tests, OtherTest(focused.testId)), 4)
            && about <= r.findings
            && BriefFindings(r.findings[|about|..], FirstN(Filter(c.findings, NotAboutTest(focused.testId)), 8))
            && r == c.(findings := r.findings, tests := r.tests, events := LastN(c.events, 20),
                         network := LastN(c.network, 10))
  {
    var focused := c.tests[i];
    FindFirst(c.tests, FocusedTest(c.focus.testId), i);
    FilterSame(c.tests, Not(TestIs(focused.testId)), OtherTest(focused.testId));
    SummarizedTests(Filter(c.tests, OtherTest(focused.testId)));
    FilterSame(c.findings, RelatedTo(focused.testId), AboutTest(focused.testId));
    FilterSame(c.findings, Not(RelatedTo(focused.testId)), NotAboutTest(focused.testId));
    SummarizedFindings(FirstN(Filter(c.findings, NotAboutTest(focused.testId)), 8));
    var about := Filter(c.findings, AboutTest(focused.testId));
    var rest := Map(SummarizeFinding, FirstN(Filter(c.findings, NotAboutTest(focused.testId)), 8));
    assert (about + rest)[|about|..] == rest;
  }

  lemma NoTestNoShape(c: Context)
    ensures Shape(c, ExplainTestFailure) == Err(MissingFocus) <==> !exists i :: FirstFocusedTest(c, i)
    ensures Shape(c, ExplainTestFailure).Err? ==> Shape(c, ExplainTestFailure).error == MissingFocus
  {
    if i :| FirstFocusedTest(c, i) {
      FindFirst(c.tests, FocusedTest(c.focus.testId), i);
    }
    if Find(c.tests, FocusedTest(c.focus.testId)).Some? {
      var i := FindIsFirst(c.tests, FocusedTest(c.focus.testId));
      assert FirstFocusedTest(c, i);
    }
  }

  // ---------------------------------------------------------------- analyzing an error

  predicate StatusFails(t: Test) {
    t.status == "failed" || t.status == "error" || t.status == "timeout" || t.status == "warning"
  }

  predicate StatusPasses(t: Test) {
    t.status != "failed" && t.status != "error" && t.status != "timeout" && t.status != "warning"
  }

  predicate FromDiagnostics(f: Finding) {
    f.source == Diagnostic
  }

  predicate FromAnalysis(f: Finding) {
    f.source == Static
  }

  /** Analyzing a runtime error: tests that failed, erred, timed out or warned whole and
      first, the others in brief; diagnostics whole and first, up to six static findings
      in brief; events and requests as they are. */
  lemma ErrorShape(c: Context)
    ensures Shape(c, AnalyzeRuntimeError).Ok?
    ensures var r := Shape(c, AnalyzeRuntimeError).value;
            var failing, diagnostics := Filter(c.tests, StatusFails), Filter(c.findings, FromDiagnostics);
            && failing <= r.tests && BriefTests(r.tests[|failing|..], Filter(c.tests, StatusPasses), 4)
            && diagnostics <= r.findings
            && BriefFindings(r.findings[|diagnostics|..], FirstN(Filter(c.findings, FromAnalysis), 6))
            && r == c.(findings := r.findings, tests := r.tests)
  {
    FilterSame(c.tests, Failing, StatusFails);
    FilterSame(c.tests, Not(Failing), StatusPasses);
    FilterSame(c.findings, IsDiagnostic, FromDiagnostics);
    FilterSame(c.findings, Not(IsDiagnostic), FromAnalysis);
    SummarizedTests(Filter(c.tests, StatusPasses));
    SummarizedFindings(FirstN(Filter(c.findings, FromAnalysis), 6));
    var failing, diagnostics := Filter(c.tests, StatusFails), Filter(c.findings, FromDiagnostics);
    assert (failing + Map(SummarizeTest, Filter(c.tests, StatusPasses)))[|failing|..]
        == Map(SummarizeTest, Filter(c.tests, StatusPasses));
    var rest := Map(SummarizeFinding, FirstN(Filter(c.findings, FromAnalysis), 6));
    assert (diagnostics + rest)[|diagnostics|..] == rest;
  }

  // ---------------------------------------------------------------- the other features

  /** Suggesting tests: everything in brief, the last ten events and requests. */
  lemma SuggestionShape(c: Context)
    ensures Shape(c, SuggestTests).Ok?
    ensures var r := Shape(c, SuggestTests).value;
            && BriefFindings(r.findings, c.findings) && BriefTests(r.tests, c.tests, 4)
            && r == c.(findings := r.findings, tests := r.tests, events := LastN(c.events, 10),
                         network := LastN(c.network, 10))
  {
    SummarizedFindings(c.findings);
    SummarizedTests(c.tests);
  }

  /** Summarizing a report and answering a question: findings with their messages cut,
      tests in brief, the last fifteen events and ten requests. */
  lemma ReportShape(c: Context, feature: Feature)
    requires feature == SummarizeReport || feature == AnswerQuestion
    ensures Shape(c, feature).Ok?
    ensures var r := Shape(c, feature).value;
            && CutMessages(r.findings, c.findings) && BriefTests(r.tests, c.tests, 3)
            && r == c.(findings := r.findings, tests := r.tests, events := LastN(c.events, 15),
                         network := LastN(c.network, 10))
  {
    SummarizedTests(c.tests);
    CutFindings(c.findings);
  }

  lemma CutFindings(s: seq<Finding>)
    ensures CutMessages(Map(ShortMessage, s), s)
  {
    forall i | 0 <= i < |s|
      ensures Map(ShortMessage, s)[i] == s[i].(message := Truncate(s[i].message, 400))
    {
      MapAt(ShortMessage, s, i);
      assert ShortMessage(s[i]).message == Truncate(s[i].message, 400);
    }
  }
}

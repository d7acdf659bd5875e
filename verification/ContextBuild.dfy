/** Assembling a context: focus first, shaped for the feature, fitted to the
    budget, indexed. */
module ContextBuild {
  import opened Seqs
  import opened AIErrors
  import opened AIContext
  import opened ContextSource
  import opened ContextBudget

  datatype Feature =
    | ExplainFinding | ExplainTestFailure | AnalyzeRuntimeError | SummarizeReport | SuggestTests | AnswerQuestion

  datatype Options = Options(feature: Feature, maxBytes: int, focus: Focus)

  /** A coded refusal, or the exception raised when a feature lacks its focus. */
  datatype BuildError = Coded(code: Code) | MissingFocus

  function Prioritize<T>(items: seq<T>, isFocused: T -> bool, max: nat): seq<T> {
    FirstN(Filter(items, isFocused) + Filter(items, Not(isFocused)), max)
  }

  // ---------------------------------------------------------------- before shaping

  function NonEmpty(s: Option<string>): Option<string> {
    if s == Some("") then None else s
  }

  function NullableClean(h: Host, s: Option<string>, max: nat): Option<string> {
    if s.None? || s.value == "" then None else Some(Truncate(h.redact(s.value), max))
  }

  function ContextFocus(h: Host, focus: Focus): Focus {
    Focus(NonEmpty(focus.findingId), NonEmpty(focus.testId), NullableClean(h, focus.question, MAX_QUESTION_CHARS))
  }

  function AllFindings(h: Host, src: Source): seq<Finding> {
    StaticFindings(h, Issues(src)) + DiagnosticFindings(h, Diagnostics(src))
  }

  function Unshaped(h: Host, src: Source, options: Options): Context {
    Context(
      src.resourceKind, src.resourceId,
      Extension(NullableClean(h, src.name, SHORT_TEXT), NullableClean(h, src.version, 40),
                NullableClean(h, src.manifestVersion, 16),
                PermissionContexts(h, Permissions(src)), FirstN(src.features, 20), src.fileCount, FilePaths(h, src)),
      src.scores,
      Prioritize(AllFindings(h, src), FocusedFinding(options.focus.findingId), MAX_FINDINGS),
      Prioritize(Tests(h, Results(src)), FocusedTest(options.focus.testId), MAX_TESTS),
      src.runSummary, Events(h, src), Requests(h, src), ContextFocus(h, options.focus), [], 0, false)
  }

  // ---------------------------------------------------------------- shaping

  predicate Failed(a: Assertion) {
    !a.passed
  }

  function SummarizeTest(t: Test): Test {
    t.(description := Truncate(t.description, SHORT_TEXT), steps := [],
       assertions := FirstN(Filter(t.assertions, Failed), 4),
       evidence := [], errors := FirstN(t.errors, 2), warnings := FirstN(t.warnings, 2))
  }

  function SummarizeTestBriefly(t: Test): Test {
    SummarizeTest(t).(assertions := FirstN(Filter(t.assertions, Failed), 3))
  }

  function SummarizeFinding(f: Finding): Finding {
    Finding(f.id, f.source, f.severity, f.category, f.title, Truncate(f.message, SHORT_TEXT), None, None,
            f.relatedTestId, f.sourceFile)
  }

  function ShortMessage(f: Finding): Finding {
    f.(message := Truncate(f.message, TEXT))
  }

  function FindingIs(id: string): Finding -> bool {
    (f: Finding) => f.id == id
  }

  function TestIs(id: string): Test -> bool {
    (t: Test) => t.testId == id
  }

  function RelatedTo(testId: string): Finding -> bool {
    (f: Finding) => f.relatedTestId == Some(testId)
  }

  predicate IsDiagnostic(f: Finding) {
    f.source.Diagnostic?
  }

  predicate Failing(t: Test) {
    t.status in {"failed", "error", "timeout", "warning"}
  }

  function ShapeForFinding(c: Context, focused: Finding): Context {
    var related := focused.relatedTestId;
    c.(findings := [focused] + Map(SummarizeFinding, FirstN(Filter(c.findings, Not(FindingIs(focused.id))), 12)),
       tests := if related.Some? && related.value != "" then Filter(c.tests, TestIs(related.value)) else [],
       events := [], network := [])
  }

  function ShapeForTest(c: Context, focused: Test): Context {
    var related := RelatedTo(focused.testId);
    c.(findings := Filter(c.findings, related) + Map(SummarizeFinding, FirstN(Filter(c.findings, Not(related)), 8)),
       tests := [focused] + Map(SummarizeTest, Filter(c.tests, Not(TestIs(focused.testId)))),
       events := LastN(c.events, 20), network := LastN(c.network, 10))
  }

  function ShapeForError(c: Context): Context {
    c.(findings := Filter(c.findings, IsDiagnostic)
                   + Map(SummarizeFinding, FirstN(Filter(c.findings, Not(IsDiagnostic)), 6)),
       tests := Filter(c.tests, Failing) + Map(SummarizeTest, Filter(c.tests, Not(Failing))))
  }

  function ShapeForSuggestions(c: Context): Context {
    c.(findings := Map(SummarizeFinding, c.findings), tests := Map(SummarizeTest, c.tests),
       events := LastN(c.events, 10), network := LastN(c.network, 10))
  }

  function ShapeForReport(c: Context): Context {
    c.(findings := Map(ShortMessage, c.findings), tests := Map(SummarizeTestBriefly, c.tests),
       events := LastN(c.events, 15), network := LastN(c.network, 10))
  }

  function Shape(c: Context, feature: Feature): Result<Context, BuildError> {
    match feature
    case ExplainFinding =>
      var focused := Find(c.findings, FocusedFinding(c.focus.findingId));
      if focused.None? then Err(MissingFocus) else Ok(ShapeForFinding(c, focused.value))
    case ExplainTestFailure =>
      var focused := Find(c.tests, FocusedTest(c.focus.testId));
      if focused.None? then Err(MissingFocus) else Ok(ShapeForTest(c, focused.value))
    case AnalyzeRuntimeError => Ok(ShapeForError(c))
    case SuggestTests => Ok(ShapeForSuggestions(c))
    case SummarizeReport => Ok(ShapeForReport(c))
    case AnswerQuestion => Ok(ShapeForReport(c))
  }

  // ---------------------------------------------------------------- assembly

  ghost predicate HasFinding(c: Context, id: string) {
    exists i :: 0 <= i < |c.findings| && c.findings[i].id == id
  }

  ghost predicate HasTest(c: Context, id: string) {
    exists i :: 0 <= i < |c.tests| && c.tests[i].testId == id
  }

  function Indexed(c: Context): Context {
    c.(evidenceIndex := EvidenceIndex(c))
  }

  /** The index and the byte count are added after the fit. */
  function Finished(measure: Context -> nat, fitted: Context): Context {
    Indexed(fitted).(bytes := measure(Indexed(fitted)))
  }

  /** From the assembled elements to the finished context. */
  function Assemble(measure: Context -> nat, c: Context, options: Options): Result<Context, BuildError> {
    if c.focus.findingId.Some? && Find(c.findings, FocusedFinding(c.focus.findingId)).None? then
      Err(Coded(UnauthorizedContext))
    else if c.focus.testId.Some? && Find(c.tests, FocusedTest(c.focus.testId)).None? then
      Err(Coded(UnauthorizedContext))
    else
      var shaped :- Shape(c, options.feature);
      var final := Finished(measure, Fitted(measure, shaped, options.maxBytes));
      if final.bytes > options.maxBytes then Err(Coded(ContextTooLarge)) else Ok(final)
  }

  /** `buildContext` for a given byte measure. */
  function BuildWith(h: Host, measure: Context -> nat, src: Source, options: Options): Result<Context, BuildError> {
    Assemble(measure, Unshaped(h, src, options), options)
  }

  method Build(h: Host, measure: Context -> nat, src: Source, options: Options) returns (r: Result<Context, BuildError>)
    ensures r == BuildWith(h, measure, src, options)
  {
    var c := Unshaped(h, src, options);
    if c.focus.findingId.Some? && Find(c.findings, FocusedFinding(c.focus.findingId)).None? {
      return Err(Coded(UnauthorizedContext));
    }
    if c.focus.testId.Some? && Find(c.tests, FocusedTest(c.focus.testId)).None? {
      return Err(Coded(UnauthorizedContext));
    }
    var shaped := Shape(c, options.feature);
    if shaped.Err? {
      return Err(shaped.error);
    }
    var context := FitToBudget(measure, shaped.value, options.maxBytes);
    var refs := BuildEvidenceIndex(context);
    context := context.(evidenceIndex := refs);
    context := context.(bytes := measure(context));
    if context.bytes > options.maxBytes {
      return Err(Coded(ContextTooLarge));
    }
    r := Ok(context);
  }

  // ---------------------------------------------------------------- focus retention

  /** Focused items, when there are any, come first. */
  lemma PrioritizedFirst<T(!new)>(items: seq<T>, isFocused: T -> bool, max: nat)
    requires max >= 1
    requires exists x :: x in Prioritize(items, isFocused, max) && isFocused(x)
    ensures |Prioritize(items, isFocused, max)| > 0 && isFocused(Prioritize(items, isFocused, max)[0])
  {
    var focused, rest := Filter(items, isFocused), Filter(items, Not(isFocused));
    var x :| x in Prioritize(items, isFocused, max) && isFocused(x);
    FilterMember(items, Not(isFocused), x);
    assert x in focused + rest;
    assert focused != [];
    FilterMember(items, isFocused, focused[0]);
  }

  /** The first element that passes a filter is the first of the filtered list. */
  lemma FirstStaysFirst<T>(s: seq<T>, p: T -> bool)
    requires s != [] && p(s[0])
    ensures Filter(s, p) != [] && Filter(s, p)[0] == s[0]
  {
  }

  lemma MapAt<A, B>(f: A -> B, s: seq<A>, i: nat)
    requires i < |s|
    ensures i < |Map(f, s)| && Map(f, s)[i] == f(s[i])
  {
  }

  lemma FindingSurvivesShape(c: Context, feature: Feature, id: string)
    requires c.findings != [] && c.findings[0].id == id && c.focus.findingId == Some(id)
    requires Shape(c, feature).Ok?
    ensures HasFinding(Shape(c, feature).value, id)
  {
    var shaped := Shape(c, feature).value;
    var kept := 0;
    match feature {
      case ExplainFinding =>
      case ExplainTestFailure =>
        var related := RelatedTo(Find(c.tests, FocusedTest(c.focus.testId)).value.testId);
        kept := SplitKeepsFirst(c.findings, related, 8);
      case AnalyzeRuntimeError =>
        kept := SplitKeepsFirst(c.findings, IsDiagnostic, 6);
      case SuggestTests =>
        MapAt(SummarizeFinding, c.findings, 0);
      case SummarizeReport =>
        MapAt(ShortMessage, c.findings, 0);
      case AnswerQuestion =>
        MapAt(ShortMessage, c.findings, 0);
    }
    assert shaped.findings[kept].id == id;
  }

  /** Keeping the findings with `p` whole and the first of the others summarized
      keeps the first finding either way. */
  lemma SplitKeepsFirst(s: seq<Finding>, p: Finding -> bool, n: nat) returns (i: nat)
    requires s != [] && n >= 1
    ensures var r := Filter(s, p) + Map(SummarizeFinding, FirstN(Filter(s, Not(p)), n));
            i < |r| && r[i].id == s[0].id
  {
    if p(s[0]) {
      FirstStaysFirst(s, p);
      i := 0;
    } else {
      FirstStaysFirst(s, Not(p));
      MapAt(SummarizeFinding, FirstN(Filter(s, Not(p)), n), 0);
      i := |Filter(s, p)|;
    }
  }

  lemma TestSurvivesShape(c: Context, feature: Feature, id: string)
    requires c.tests != [] && c.tests[0].testId == id && c.focus.testId == Some(id)
    requires !feature.ExplainFinding? && Shape(c, feature).Ok?
    ensures HasTest(Shape(c, feature).value, id)
  {
    var shaped := Shape(c, feature).value;
    var kept := 0;
    match feature {
      case ExplainTestFailure =>
      case AnalyzeRuntimeError =>
        if Failing(c.tests[0]) {
          FirstStaysFirst(c.tests, Failing);
        } else {
          FirstStaysFirst(c.tests, Not(Failing));
          MapAt(SummarizeTest, Filter(c.tests, Not(Failing)), 0);
          kept := |Filter(c.tests, Failing)|;
        }
      case SuggestTests =>
        MapAt(SummarizeTest, c.tests, 0);
      case SummarizeReport =>
        MapAt(SummarizeTestBriefly, c.tests, 0);
      case AnswerQuestion =>
        MapAt(SummarizeTestBriefly, c.tests, 0);
    }
    assert shaped.tests[kept].testId == id;
  }

  lemma {:induction false} KeepFirstKeeps<T>(s: seq<T>, keep: T -> bool, i: nat, n: nat, x: T)
    requires x in s && keep(x)
    ensures x in KeepFirst(s, keep, i, n)
    decreases |s|
  {
    if x != s[0] {
      KeepFirstKeeps(s[1..], keep, i + 1, n, x);
    }
  }

  lemma FindingSurvivesTrim(i: nat, c: Context, id: string)
    requires i < TRIMS && c.focus.findingId == Some(id) && HasFinding(c, id)
    ensures HasFinding(Trimmed(i, c), id) && Trimmed(i, c).focus == c.focus
  {
    var k :| 0 <= k < |c.findings| && c.findings[k].id == id;
    var keep := FocusedFinding(c.focus.findingId);
    if i == 3 {
      KeepFirstKeeps(c.findings, keep, 0, 12, c.findings[k]);
    } else if i == 6 {
      KeepFirstKeeps(c.findings, keep, 0, 4, c.findings[k]);
    } else {
      MapAt(ShortenFinding, c.findings, k);
      assert Trimmed(i, c).findings[k].id == id;
    }
  }

  lemma TestSurvivesTrim(i: nat, c: Context, id: string)
    requires i < TRIMS && c.focus.testId == Some(id) && HasTest(c, id)
    ensures HasTest(Trimmed(i, c), id) && Trimmed(i, c).focus == c.focus
  {
    var k :| 0 <= k < |c.tests| && c.tests[k].testId == id;
    var keep := FocusedTest(c.focus.testId);
    if i == 4 {
      KeepFirstKeeps(c.tests, keep, 0, 8, c.tests[k]);
    } else if i == 6 {
      KeepFirstKeeps(c.tests, keep, 0, 3, c.tests[k]);
    } else {
      MapAt(Lighten(c.focus.testId), c.tests, k);
      MapAt(Shorten, c.tests, k);
      assert Trimmed(i, c).tests[k].testId == id;
    }
  }

  lemma {:induction false} FindingSurvivesTrims(c: Context, n: nat, id: string)
    requires n <= TRIMS && c.focus.findingId == Some(id) && HasFinding(c, id)
    ensures AfterTrims(c, n).focus == c.focus && HasFinding(AfterTrims(c, n), id)
  {
    if n > 0 {
      FindingSurvivesTrims(c, n - 1, id);
      FindingSurvivesTrim(n - 1, AfterTrims(c, n - 1), id);
    }
  }

  lemma {:induction false} TestSurvivesTrims(c: Context, n: nat, id: string)
    requires n <= TRIMS && c.focus.testId == Some(id) && HasTest(c, id)
    ensures AfterTrims(c, n).focus == c.focus && HasTest(AfterTrims(c, n), id)
  {
    if n > 0 {
      TestSurvivesTrims(c, n - 1, id);
      TestSurvivesTrim(n - 1, AfterTrims(c, n - 1), id);
    }
  }
}

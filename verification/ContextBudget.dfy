/** The byte measure of a context, and the eight lossy trims that fit it to a
    budget. */
module ContextBudget {
  import opened Seqs
  import opened AIContext

  // ---------------------------------------------------------------- measure

  /** UTF-8 bytes of one character inside a JSON string. */
  function CharBytes(c: char): nat {
    if c in {'"', '\\', '\n', '\r', '\t', '\U{08}', '\U{0C}'} then 2
    else if c < ' ' then 6
    else if c < '\U{80}' then 1
    else if c < '\U{800}' then 2
    else if c < '\U{10000}' then 3
    else 4
  }

  function Chars(s: string): nat {
    if s == "" then 0 else CharBytes(s[0]) + Chars(s[1..])
  }

  function StringBytes(s: string): nat {
    2 + Chars(s)
  }

  /** A member `"key":value` with the comma or brace that goes with it. */
  function Member(key: string, value: nat): nat {
    |key| + 4 + value
  }

  function TextMember(key: string, value: string): nat {
    Member(key, StringBytes(value))
  }

  /** An optional member is left out when undefined. */
  function OptText(key: string, value: Option<string>): nat {
    if value.None? then 0 else TextMember(key, value.value)
  }

  /** A nullable text prints as `null`. */
  function NullableText(value: Option<string>): nat {
    if value.None? then 4 else StringBytes(value.value)
  }

  function BoolBytes(b: bool): nat {
    if b then 4 else 5
  }

  /** Elements and one separator each. */
  function Elements<T>(size: T -> nat, s: seq<T>): nat {
    if s == [] then 0 else size(s[0]) + 1 + Elements(size, s[1..])
  }

  function ArrayBytes<T>(size: T -> nat, s: seq<T>): nat {
    if s == [] then 2 else 1 + Elements(size, s)
  }

  function FindingBytes(f: Finding): nat {
    1 + TextMember("id", f.id) + Member("source", if f.source.Static? then 8 else 12)
    + TextMember("severity", f.severity) + TextMember("category", f.category) + TextMember("title", f.title)
    + TextMember("message", f.message) + OptText("recommendation", f.recommendation)
    + (if f.evidence.None? then 0 else Member("evidence", ArrayBytes(StringBytes, f.evidence.value)))
    + OptText("relatedTestId", f.relatedTestId) + OptText("sourceFile", f.sourceFile)
  }

  function AssertionBytes(a: Assertion): nat {
    1 + TextMember("type", a.kind) + Member("passed", BoolBytes(a.passed)) + TextMember("message", a.message)
    + OptText("selector", a.selector) + OptText("value", a.value)
  }

  function TestEvidenceBytes(e: TestEvidence): nat {
    1 + TextMember("id", e.id) + TextMember("kind", e.kind) + TextMember("label", e.caption)
    + OptText("detail", e.detail)
  }

  function TestBytes(h: Host, t: Test): nat {
    1 + TextMember("testId", t.testId) + TextMember("name", t.name) + TextMember("description", t.description)
    + TextMember("category", t.category) + TextMember("status", t.status)
    + Member("durationMs", h.numberBytes(t.durationMs))
    + Member("steps", ArrayBytes(StringBytes, t.steps)) + Member("assertions", ArrayBytes(AssertionBytes, t.assertions))
    + Member("evidence", ArrayBytes(TestEvidenceBytes, t.evidence))
    + Member("errors", ArrayBytes(StringBytes, t.errors))
    + Member("warnings", ArrayBytes(StringBytes, t.warnings)) + OptText("skippedReason", t.skippedReason)
  }

  function TestSize(h: Host): Test -> nat {
    (t: Test) => TestBytes(h, t)
  }

  function EventBytes(h: Host, e: RuntimeEvent): nat {
    1 + TextMember("id", e.id) + Member("timestamp", h.numberBytes(e.timestamp)) + TextMember("type", e.kind)
    + OptText("level", e.level) + OptText("source", e.source) + TextMember("message", e.message)
  }

  function EventSize(h: Host): RuntimeEvent -> nat {
    (e: RuntimeEvent) => EventBytes(h, e)
  }

  function NullableNumber(h: Host, value: Option<real>): nat {
    if value.None? then 4 else h.numberBytes(value.value)
  }

  function RequestBytes(h: Host, r: Request): nat {
    1 + TextMember("id", r.id) + TextMember("method", r.verb) + TextMember("url", r.url)
    + Member("status", NullableNumber(h, r.status)) + OptText("resourceType", r.resourceType)
  }

  function RequestSize(h: Host): Request -> nat {
    (r: Request) => RequestBytes(h, r)
  }

  function PermissionBytes(p: Permission): nat {
    1 + TextMember("name", p.name) + TextMember("kind", p.kind) + Member("broad", BoolBytes(p.broad))
    + OptText("reason", p.reason)
  }

  function ExtensionBytes(h: Host, x: Extension): nat {
    1 + Member("name", NullableText(x.name)) + Member("version", NullableText(x.version))
    + Member("manifestVersion", NullableText(x.manifestVersion))
    + Member("permissions", ArrayBytes(PermissionBytes, x.permissions))
    + Member("features", ArrayBytes(StringBytes, x.features))
    + Member("fileCount", NullableNumber(h, x.fileCount)) + Member("files", ArrayBytes(StringBytes, x.files))
  }

  function FocusBytes(f: Focus): nat {
    if f == Focus(None, None, None) then 2
    else 1 + OptText("findingId", f.findingId) + OptText("testId", f.testId) + OptText("question", f.question)
  }

  function RefBytes(r: Ref): nat {
    1 + TextMember("kind", r.kind) + TextMember("id", r.id) + TextMember("label", r.caption)
  }

  function Utf8Bytes(c: char): nat {
    if c < '\U{80}' then 1 else if c < '\U{800}' then 2 else if c < '\U{10000}' then 3 else 4
  }

  /** UTF-8 bytes of a text already in JSON form. */
  function RawBytes(s: string): nat {
    if s == "" then 0
    else Utf8Bytes(s[0]) + RawBytes(s[1..])
  }

  /** Bytes of the context as sent, with its own `bytes` member counted as zero. */
  function Measure(h: Host, c: Context): nat {
    1 + Member("resource", 1 + TextMember("kind", c.resourceKind) + TextMember("id", c.resourceId))
    + Member("extension", ExtensionBytes(h, c.extension)) + Member("scores", RawBytes(c.scores))
    + Member("findings", ArrayBytes(FindingBytes, c.findings)) + Member("tests", ArrayBytes(TestSize(h), c.tests))
    + Member("run", RawBytes(c.run)) + Member("events", ArrayBytes(EventSize(h), c.events))
    + Member("network", ArrayBytes(RequestSize(h), c.network)) + Member("focus", FocusBytes(c.focus))
    + Member("evidenceIndex", ArrayBytes(RefBytes, c.evidenceIndex)) + Member("bytes", 1)
    + Member("truncated", BoolBytes(c.truncated))
  }

  function ByteMeasure(h: Host): Context -> nat {
    (c: Context) => Measure(h, c)
  }

  // ---------------------------------------------------------------- the trims

  /** `xs.filter((x, i) => keep(x) || i < n)`, from index `i` on. */
  function KeepFirst<T>(s: seq<T>, keep: T -> bool, i: nat, n: nat): seq<T>
    decreases |s|
  {
    if s == [] then []
    else (if keep(s[0]) || i < n then [s[0]] else []) + KeepFirst(s[1..], keep, i + 1, n)
  }

  function FocusedFinding(focus: Option<string>): Finding -> bool {
    (f: Finding) => focus.Some? && f.id == focus.value
  }

  function FocusedTest(focus: Option<string>): Test -> bool {
    (t: Test) => focus.Some? && t.testId == focus.value
  }

  function Lighten(focus: Option<string>): Test -> Test {
    (t: Test) => if FocusedTest(focus)(t) then t else t.(steps := [], evidence := [])
  }

  function Shorten(t: Test): Test {
    t.(steps := FirstN(t.steps, 6), evidence := FirstN(t.evidence, 6), assertions := FirstN(t.assertions, 6),
      errors := FirstN(t.errors, 3))
  }

  function ShortenFinding(f: Finding): Finding {
    f.(message := Truncate(f.message, TEXT),
       evidence := if f.evidence.None? then None else Some(FirstN(f.evidence.value, 3)))
  }

  function ShortenEvent(e: RuntimeEvent): RuntimeEvent {
    e.(message := Truncate(e.message, TEXT))
  }

  function WithFiles(c: Context, n: nat): Context {
    c.(extension := c.extension.(files := FirstN(c.extension.files, n)))
  }

  const TRIMS: nat := 8

  /** The trims, in the order they are tried. */
  function Trim(i: nat, c: Context): Context
    requires i < TRIMS
  {
    var finding, test := FocusedFinding(c.focus.findingId), FocusedTest(c.focus.testId);
    match i
    case 0 => WithFiles(c, 20)
    case 1 => c.(network := LastN(c.network, 10), events := LastN(c.events, 20))
    case 2 => c.(tests := Map(Lighten(c.focus.testId), c.tests))
    case 3 => c.(findings := KeepFirst(c.findings, finding, 0, 12))
    case 4 => c.(tests := KeepFirst(c.tests, test, 0, 8))
    case 5 => WithFiles(c.(network := [], events := LastN(c.events, 8)), 8)
    case 6 => c.(findings := KeepFirst(c.findings, finding, 0, 4), tests := KeepFirst(c.tests, test, 0, 3))
    case _ => c.(tests := Map(Shorten, c.tests), findings := Map(ShortenFinding, c.findings),
                 events := Map(ShortenEvent, c.events))
  }

  function Trimmed(i: nat, c: Context): Context
    requires i < TRIMS
  {
    Trim(i, c).(truncated := true)
  }

  /** The context after the first `n` trims. */
  function AfterTrims(c: Context, n: nat): Context
    requires n <= TRIMS
  {
    if n == 0 then c else Trimmed(n - 1, AfterTrims(c, n - 1))
  }

  /** After `n` trims the context is within budget. */
  function Fits(measure: Context -> nat, c: Context, max: int): nat -> bool {
    (n: nat) => n <= TRIMS && measure(AfterTrims(c, n)) <= max
  }

  function FirstFit(fits: nat -> bool, i: nat): (n: nat)
    requires i <= TRIMS
    ensures i <= n <= TRIMS
    decreases TRIMS - i
  {
    if i == TRIMS || fits(i) then i else FirstFit(fits, i + 1)
  }

  function Fitted(measure: Context -> nat, c: Context, max: int): Context {
    AfterTrims(c, FirstFit(Fits(measure, c, max), 0))
  }

  lemma FitsOrGoesOn(measure: Context -> nat, c: Context, max: int, i: nat)
    requires i < TRIMS
    ensures measure(AfterTrims(c, i)) <= max ==> FirstFit(Fits(measure, c, max), i) == i
    ensures measure(AfterTrims(c, i)) > max ==>
              FirstFit(Fits(measure, c, max), i) == FirstFit(Fits(measure, c, max), i + 1)
  {
  }

  method FitToBudget(measure: Context -> nat, input: Context, max: int) returns (context: Context)
    ensures context == Fitted(measure, input, max)
  {
    context := input;
    ghost var n := FirstFit(Fits(measure, input, max), 0);
    var i := 0;
    while i < TRIMS
      invariant 0 <= i <= TRIMS
      invariant context == AfterTrims(input, i)
      invariant FirstFit(Fits(measure, input, max), i) == n
    {
      FitsOrGoesOn(measure, input, max, i);
      if measure(context) <= max {
        return;
      }
      context := Trimmed(i, context);
      i := i + 1;
    }
  }

  lemma {:induction false} FirstFitIsFirst(fits: nat -> bool, i: nat)
    requires i <= TRIMS
    ensures FirstFit(fits, i) < TRIMS ==> fits(FirstFit(fits, i))
    ensures forall j :: i <= j < FirstFit(fits, i) ==> !fits(j)
    decreases TRIMS - i
  {
    if i < TRIMS && !fits(i) {
      FirstFitIsFirst(fits, i + 1);
    }
  }

  /** The fit applies the shortest prefix of the eight trims that is within
      budget, or all eight. */
  lemma FewestTrims(measure: Context -> nat, c: Context, max: int) returns (n: nat)
    ensures n <= TRIMS && Fitted(measure, c, max) == AfterTrims(c, n)
    ensures n < TRIMS ==> measure(AfterTrims(c, n)) <= max
    ensures forall j :: 0 <= j < n ==> measure(AfterTrims(c, j)) > max
  {
    var fits := Fits(measure, c, max);
    n := FirstFit(fits, 0);
    FirstFitIsFirst(fits, 0);
    forall j | 0 <= j < n
      ensures measure(AfterTrims(c, j)) > max
    {
      assert !fits(j);
    }
  }

  /** `truncated` is set exactly when the context was over budget. */
  lemma TruncatedExactly(measure: Context -> nat, c: Context, max: int)
    requires !c.truncated
    ensures Fitted(measure, c, max).truncated <==> measure(c) > max
  {
    var n := FewestTrims(measure, c, max);
    assert AfterTrims(c, 0) == c;
    if n > 0 {
      assert measure(AfterTrims(c, 0)) > max;
    }
  }

  // ---------------------------------------------------------------- trims only shrink

  lemma {:induction false} ElementsAppend<T>(size: T -> nat, a: seq<T>, b: seq<T>)
    ensures Elements(size, a + b) == Elements(size, a) + Elements(size, b)
  {
    if a == [] {
      assert a + b == b;
    } else {
      ElementsAppend(size, a[1..], b);
      assert (a + b)[1..] == a[1..] + b;
    }
  }

  /** An array never grows when elements are dropped and the rest get no larger. */
  lemma {:induction false} EmbeddedIsSmaller<T(!new)>(size: T -> nat, r: (T, T) -> bool, a: seq<T>, b: seq<T>)
    requires Embeds(r, a, b)
    requires forall x, y :: r(x, y) ==> size(x) <= size(y)
    ensures Elements(size, a) <= Elements(size, b)
    decreases |b|
  {
    if a != [] {
      if r(a[0], b[0]) && Embeds(r, a[1..], b[1..]) {
        EmbeddedIsSmaller(size, r, a[1..], b[1..]);
      } else {
        EmbeddedIsSmaller(size, r, a, b[1..]);
      }
    }
  }

  lemma ArrayShrinks<T(!new)>(size: T -> nat, r: (T, T) -> bool, a: seq<T>, b: seq<T>)
    requires Embeds(r, a, b)
    requires forall x, y :: r(x, y) ==> size(x) <= size(y)
    ensures ArrayBytes(size, a) <= ArrayBytes(size, b)
  {
    EmbeddedIsSmaller(size, r, a, b);
  }

  lemma PrefixShrinks<T>(size: T -> nat, a: seq<T>, b: seq<T>)
    requires a <= b
    ensures ArrayBytes(size, a) <= ArrayBytes(size, b)
  {
    ElementsAppend(size, a, b[|a|..]);
    assert b == a + b[|a|..];
  }

  lemma SuffixShrinks<T>(size: T -> nat, s: seq<T>, n: nat)
    ensures ArrayBytes(size, LastN(s, n)) <= ArrayBytes(size, s)
  {
    if |s| > n {
      ElementsAppend(size, s[..|s| - n], s[|s| - n..]);
      assert s == s[..|s| - n] + s[|s| - n..];
    }
  }

  predicate Equal<T(==)>(x: T, y: T) {
    x == y
  }

  lemma {:induction false} EmbedsSuffix<T(!new)>(s: seq<T>, n: nat)
    ensures Embeds(Equal<T>, LastN(s, n), s)
    decreases |s|
  {
    if |s| > n {
      EmbedsSuffix(s[1..], n);
      assert LastN(s[1..], n) == LastN(s, n);
    } else {
      EmbedsPointwise(Equal<T>, s, s);
    }
  }

  lemma {:induction false} EmbedsKeepFirst<T(!new)>(s: seq<T>, keep: T -> bool, i: nat, n: nat)
    ensures Embeds(Equal<T>, KeepFirst(s, keep, i, n), s)
    decreases |s|
  {
    if s != [] {
      EmbedsKeepFirst(s[1..], keep, i + 1, n);
      var rest := KeepFirst(s[1..], keep, i + 1, n);
      if keep(s[0]) || i < n {
        assert KeepFirst(s, keep, i, n) == [s[0]] + rest;
        assert KeepFirst(s, keep, i, n)[1..] == rest;
      } else {
        assert KeepFirst(s, keep, i, n) == rest;
      }
    }
  }

  // ---------------------------------------------------------------- what a trim keeps

  /** The same finding, with a message and an evidence list that may be cut. */
  ghost predicate CutFinding(f: Finding, o: Finding) {
    && f == o.(message := f.message, evidence := f.evidence)
    && (f.message == o.message || f.message == Truncate(o.message, TEXT))
    && f.evidence.Some? == o.evidence.Some?
    && (f.evidence.Some? ==> f.evidence.value <= o.evidence.value)
  }

  /** The same test, with lists that may be cut short. */
  ghost predicate CutTest(t: Test, o: Test) {
    && t == o.(steps := t.steps, assertions := t.assertions, evidence := t.evidence, errors := t.errors)
    && t.steps <= o.steps && t.assertions <= o.assertions && t.evidence <= o.evidence && t.errors <= o.errors
  }

  ghost predicate CutEvent(e: RuntimeEvent, o: RuntimeEvent) {
    && e == o.(message := e.message)
    && (e.message == o.message || e.message == Truncate(o.message, TEXT))
  }

  /** Nothing is added, reordered or relabelled: every collection of `c` is an
      order-preserving selection from `o`. */
  ghost predicate CutFrom(c: Context, o: Context) {
    && Embeds(CutFinding, c.findings, o.findings)
    && Embeds(CutTest, c.tests, o.tests)
    && Embeds(CutEvent, c.events, o.events)
    && Embeds(Equal<Request>, c.network, o.network)
    && c.extension == o.extension.(files := c.extension.files)
    && c.extension.files <= o.extension.files
    && c == o.(findings := c.findings, tests := c.tests, events := c.events, network := c.network,
               extension := c.extension, truncated := c.truncated)
  }

  lemma {:induction false} EmbedsWeaken<A(!new), B(!new)>(r: (A, B) -> bool, s: (A, B) -> bool, a: seq<A>, b: seq<B>)
    requires Embeds(r, a, b)
    requires forall x, y :: r(x, y) ==> s(x, y)
    ensures Embeds(s, a, b)
    decreases |b|
  {
    if a != [] {
      if r(a[0], b[0]) && Embeds(r, a[1..], b[1..]) {
        EmbedsWeaken(r, s, a[1..], b[1..]);
      } else {
        EmbedsWeaken(r, s, a, b[1..]);
      }
    }
  }

  lemma {:induction false} EmbedsCompose<T(!new)>(r: (T, T) -> bool, a: seq<T>, b: seq<T>, c: seq<T>)
    requires Embeds(r, a, b) && Embeds(r, b, c)
    requires forall x, y, z :: r(x, y) && r(y, z) ==> r(x, z)
    ensures Embeds(r, a, c)
    decreases |b| + |c|
  {
    if a != [] {
      if r(b[0], c[0]) && Embeds(r, b[1..], c[1..]) {
        if r(a[0], b[0]) && Embeds(r, a[1..], b[1..]) {
          EmbedsCompose(r, a[1..], b[1..], c[1..]);
        } else {
          EmbedsCompose(r, a, b[1..], c[1..]);
        }
      } else {
        EmbedsCompose(r, a, b, c[1..]);
      }
    }
  }

  lemma CutsCompose()
    ensures forall x, y, z :: CutFinding(x, y) && CutFinding(y, z) ==> CutFinding(x, z)
    ensures forall x, y, z :: CutTest(x, y) && CutTest(y, z) ==> CutTest(x, z)
    ensures forall x, y, z :: CutEvent(x, y) && CutEvent(y, z) ==> CutEvent(x, z)
  {
    forall x: Finding, y: Finding, z: Finding | CutFinding(x, y) && CutFinding(y, z)
      ensures CutFinding(x, z)
    {
      TruncateTwice(z.message, TEXT, TEXT);
    }
    forall x: RuntimeEvent, y: RuntimeEvent, z: RuntimeEvent | CutEvent(x, y) && CutEvent(y, z)
      ensures CutEvent(x, z)
    {
      TruncateTwice(z.message, TEXT, TEXT);
    }
  }

  lemma CutFromSelf(c: Context)
    ensures CutFrom(c, c)
  {
    EmbedsPointwise(CutFinding, c.findings, c.findings);
    EmbedsPointwise(CutTest, c.tests, c.tests);
    EmbedsPointwise(CutEvent, c.events, c.events);
    EmbedsPointwise(Equal<Request>, c.network, c.network);
  }

  lemma CutFromCompose(a: Context, b: Context, c: Context)
    requires CutFrom(a, b) && CutFrom(b, c)
    ensures CutFrom(a, c)
  {
    CutsCompose();
    EmbedsCompose(CutFinding, a.findings, b.findings, c.findings);
    EmbedsCompose(CutTest, a.tests, b.tests, c.tests);
    EmbedsCompose(CutEvent, a.events, b.events, c.events);
    EmbedsCompose(Equal<Request>, a.network, b.network, c.network);
  }

  lemma SelectedFindings(c: Context, n: nat)
    ensures Embeds(CutFinding, KeepFirst(c.findings, FocusedFinding(c.focus.findingId), 0, n), c.findings)
  {
    var kept := KeepFirst(c.findings, FocusedFinding(c.focus.findingId), 0, n);
    EmbedsKeepFirst(c.findings, FocusedFinding(c.focus.findingId), 0, n);
    EmbedsWeaken(Equal<Finding>, CutFinding, kept, c.findings);
  }

  lemma SelectedTests(c: Context, n: nat)
    ensures Embeds(CutTest, KeepFirst(c.tests, FocusedTest(c.focus.testId), 0, n), c.tests)
  {
    var kept := KeepFirst(c.tests, FocusedTest(c.focus.testId), 0, n);
    EmbedsKeepFirst(c.tests, FocusedTest(c.focus.testId), 0, n);
    EmbedsWeaken(Equal<Test>, CutTest, kept, c.tests);
  }

  lemma LatestEvents(c: Context, n: nat)
    ensures Embeds(CutEvent, LastN(c.events, n), c.events)
  {
    EmbedsSuffix(c.events, n);
    EmbedsWeaken(Equal<RuntimeEvent>, CutEvent, LastN(c.events, n), c.events);
  }

  lemma TrimCuts(i: nat, c: Context)
    requires i < TRIMS
    ensures CutFrom(Trimmed(i, c), c)
  {
    CutFromSelf(c);
    match i
    case 0 =>
    case 1 =>
      LatestEvents(c, 20);
      EmbedsSuffix(c.network, 10);
    case 2 =>
      EmbedsPointwise(CutTest, Map(Lighten(c.focus.testId), c.tests), c.tests);
    case 3 =>
      SelectedFindings(c, 12);
    case 4 =>
      SelectedTests(c, 8);
    case 5 =>
      LatestEvents(c, 8);
    case 6 =>
      SelectedFindings(c, 4);
      SelectedTests(c, 3);
    case _ =>
      ShortenedTests(c.tests);
      ShortenedFindings(c.findings);
      ShortenedEvents(c.events);
  }

  lemma ShortenedTests(s: seq<Test>)
    ensures Embeds(CutTest, Map(Shorten, s), s)
  {
    forall t: Test
      ensures CutTest(Shorten(t), t)
    {
      assert FirstN(t.steps, 6) <= t.steps && FirstN(t.errors, 3) <= t.errors;
    }
    EmbedsPointwise(CutTest, Map(Shorten, s), s);
  }

  lemma ShortenedFindings(s: seq<Finding>)
    ensures Embeds(CutFinding, Map(ShortenFinding, s), s)
  {
    forall f: Finding
      ensures CutFinding(ShortenFinding(f), f)
    {
      assert f.evidence.Some? ==> FirstN(f.evidence.value, 3) <= f.evidence.value;
    }
    EmbedsPointwise(CutFinding, Map(ShortenFinding, s), s);
  }

  lemma ShortenedEvents(s: seq<RuntimeEvent>)
    ensures Embeds(CutEvent, Map(ShortenEvent, s), s)
  {
    assert forall e: RuntimeEvent :: CutEvent(ShortenEvent(e), e);
    EmbedsPointwise(CutEvent, Map(ShortenEvent, s), s);
  }

  lemma {:induction false} TrimsCut(c: Context, n: nat)
    requires n <= TRIMS
    ensures CutFrom(AfterTrims(c, n), c)
  {
    if n == 0 {
      CutFromSelf(c);
    } else {
      TrimsCut(c, n - 1);
      OneMoreCut(n - 1, AfterTrims(c, n - 1), c);
    }
  }

  lemma OneMoreCut(i: nat, before: Context, c: Context)
    requires i < TRIMS && CutFrom(before, c)
    ensures CutFrom(Trimmed(i, before), c)
  {
    TrimCuts(i, before);
    CutFromCompose(Trimmed(i, before), before, c);
  }

  // ---------------------------------------------------------------- the first seven never grow it

  lemma CutTestIsSmaller(h: Host, t: Test, o: Test)
    requires CutTest(t, o)
    ensures TestSize(h)(t) <= TestSize(h)(o)
  {
    PrefixShrinks(StringBytes, t.steps, o.steps);
    PrefixShrinks(AssertionBytes, t.assertions, o.assertions);
    PrefixShrinks(TestEvidenceBytes, t.evidence, o.evidence);
    PrefixShrinks(StringBytes, t.errors, o.errors);
  }

  lemma TestsShrink(h: Host, a: seq<Test>, b: seq<Test>)
    requires Embeds(CutTest, a, b)
    ensures ArrayBytes(TestSize(h), a) <= ArrayBytes(TestSize(h), b)
  {
    forall x, y | CutTest(x, y)
      ensures TestSize(h)(x) <= TestSize(h)(y)
    {
      CutTestIsSmaller(h, x, y);
    }
    ArrayShrinks(TestSize(h), CutTest, a, b);
  }

  lemma FewerShrink<T(!new)>(size: T -> nat, a: seq<T>, b: seq<T>)
    requires Embeds(Equal<T>, a, b)
    ensures ArrayBytes(size, a) <= ArrayBytes(size, b)
  {
    ArrayShrinks(size, Equal<T>, a, b);
  }

  lemma FilesShrink(h: Host, x: Extension, n: nat)
    ensures ExtensionBytes(h, x.(files := FirstN(x.files, n))) <= ExtensionBytes(h, x)
  {
    PrefixShrinks(StringBytes, FirstN(x.files, n), x.files);
  }

  /** The measure follows the sizes of the parts a trim may change. */
  /** No part of `a` is larger than that of `b`, and the rest is the same. */
  ghost predicate PartsShrink(h: Host, a: Context, b: Context) {
    && ExtensionBytes(h, a.extension) <= ExtensionBytes(h, b.extension)
    && ArrayBytes(FindingBytes, a.findings) <= ArrayBytes(FindingBytes, b.findings)
    && ArrayBytes(TestSize(h), a.tests) <= ArrayBytes(TestSize(h), b.tests)
    && ArrayBytes(EventSize(h), a.events) <= ArrayBytes(EventSize(h), b.events)
    && ArrayBytes(RequestSize(h), a.network) <= ArrayBytes(RequestSize(h), b.network)
    && a == b.(findings := a.findings, tests := a.tests, events := a.events, network := a.network,
               extension := a.extension, truncated := true)
  }

  lemma MeasureFollowsParts(h: Host, a: Context, b: Context)
    requires PartsShrink(h, a, b)
    ensures Measure(h, a) <= Measure(h, b)
  {
  }

  lemma FirstTrimsShrink(h: Host, i: nat, c: Context)
    requires i < 3
    ensures PartsShrink(h, Trimmed(i, c), c)
  {
    if i == 0 {
      FilesShrink(h, c.extension, 20);
    } else if i == 1 {
      SuffixShrinks(RequestSize(h), c.network, 10);
      SuffixShrinks(EventSize(h), c.events, 20);
    } else {
      var tests := Trimmed(2, c).tests;
      EmbedsPointwise(CutTest, tests, c.tests);
      TestsShrink(h, tests, c.tests);
    }
  }

  lemma NextTrimsShrink(h: Host, i: nat, c: Context)
    requires 3 <= i < TRIMS - 1
    ensures PartsShrink(h, Trimmed(i, c), c)
  {
    var t := Trimmed(i, c);
    var finding, test := FocusedFinding(c.focus.findingId), FocusedTest(c.focus.testId);
    if i == 3 {
      EmbedsKeepFirst(c.findings, finding, 0, 12);
      FewerShrink(FindingBytes, t.findings, c.findings);
    } else if i == 4 {
      EmbedsKeepFirst(c.tests, test, 0, 8);
      FewerShrink(TestSize(h), t.tests, c.tests);
    } else if i == 5 {
      FilesShrink(h, c.extension, 8);
      SuffixShrinks(EventSize(h), c.events, 8);
      SuffixShrinks(RequestSize(h), c.network, 0);
    } else {
      EmbedsKeepFirst(c.findings, finding, 0, 4);
      FewerShrink(FindingBytes, t.findings, c.findings);
      EmbedsKeepFirst(c.tests, test, 0, 3);
      FewerShrink(TestSize(h), t.tests, c.tests);
    }
  }

  /** Each of the first seven trims leaves the context no larger. */
  lemma TrimShrinks(h: Host, i: nat, c: Context)
    requires i < TRIMS - 1
    ensures Measure(h, Trimmed(i, c)) <= Measure(h, c)
  {
    if i < 3 {
      FirstTrimsShrink(h, i, c);
    } else {
      NextTrimsShrink(h, i, c);
    }
    MeasureFollowsParts(h, Trimmed(i, c), c);
  }
}

/** Which stored record each element of a context is read from, and which of the record's
    fields, cut to which length, each of its own fields is. */
module ContextReaders {
  import opened Seqs
  import opened JsText
  import opened Json
  import opened Sorting
  import opened AIContext
  import opened ContextSource
  import opened ContextBuild
  import opened ContextShapes

  // ---------------------------------------------------------------- fields

  predicate CutIs(s: string, max: nat, out: string)
    requires max >= 1
  {
    if |s| <= max then out == s else out == s[..max - 1] + "…"
  }

  /** `out` is the text under `key`, redacted and cut to `max`, or empty. */
  predicate TextIs(h: Host, j: Json, key: string, max: nat, out: string)
    requires max >= 1
  {
    match Field(j, key)
    case Text(s) => CutIs(h.redact(s), max, out)
    case _ => out == ""
  }

  /** `out` is the text under `key`, redacted and cut to `max`, if there is one. */
  predicate OptTextIs(h: Host, j: Json, key: string, max: nat, out: Option<string>)
    requires max >= 1
  {
    match Field(j, key)
    case Text(s) => if s == "" then out == None else out.Some? && CutIs(h.redact(s), max, out.value)
    case _ => out == None
  }

  /** The texts of the first `most` items, each redacted and cut to `max`. */
  predicate TextsAre(h: Host, items: seq<Json>, most: nat, max: nat, out: seq<string>)
    requires max >= 1
  {
    && |out| == (if |items| <= most then |items| else most)
    && forall i :: 0 <= i < |out| ==>
         match items[i]
         case Text(s) => CutIs(h.redact(s), max, out[i])
         case _ => out[i] == ""
  }

  function ListUnder(j: Json, key: string): seq<Json> {
    match Field(j, key) case Array(items) => items case _ => []
  }

  function NumberOr(j: Json, key: string, default: real): real {
    match Field(j, key) case Number(n) => n case _ => default
  }

  lemma CleanReads(h: Host, j: Json, key: string, max: nat)
    requires max >= 1
    ensures TextIs(h, j, key, max, Clean(h, Field(j, key), max))
    ensures OptTextIs(h, j, key, max, CleanOpt(h, Field(j, key), max))
  {
  }

  lemma LinesRead(h: Host, items: seq<Json>, most: nat, max: nat)
    requires max >= 1
    ensures TextsAre(h, items, most, max, Map(CleanLine(h, max), FirstN(items, most)))
  {
    forall i | 0 <= i < |FirstN(items, most)|
      ensures Map(CleanLine(h, max), FirstN(items, most))[i] == Clean(h, items[i], max)
    {
      MapAt(CleanLine(h, max), FirstN(items, most), i);
    }
  }

  // ---------------------------------------------------------------- which records

  predicate Present(j: Json) {
    j != Undefined && j != Null
  }

  function RunUnder(src: Source): Run {
    if src.run.Some? then src.run.value else Run(Undefined, Undefined, Undefined, Undefined)
  }

  /** Issues and permissions come from the report before the analysis, results from the run
      before the report, diagnostics from the run's own list before its results, and events
      and requests from the run alone. */
  lemma RecordsAre(src: Source)
    ensures var issues := Field(Field(src.report, "staticAnalysis"), "issues");
            Issues(src) == if Present(issues) then issues else Field(src.analysis, "issues")
    ensures var reported := Field(Field(src.report, "staticAnalysis"), "permissions");
            var analysed := Field(src.analysis, "permissions");
            Permissions(src) == if Present(reported) then reported else if Present(analysed) then analysed else Null
    ensures var run, details := RunUnder(src).json, Field(Field(src.report, "runtimeTests"), "details");
            RunJson(src) == if Present(run) then run else if Present(details) then details else Null
    ensures var own := RunUnder(src).diagnostics;
            Diagnostics(src) == if Present(own) then own else Field(RunJson(src), "diagnostics")
    ensures Results(src) == Field(RunJson(src), "results")
    ensures LogEvents(src) == ListUnder(RunUnder(src).runtimeLog, "events")
    ensures LoggedRequests(src) == ListUnder(RunUnder(src).network, "requests")
    ensures FileEntries(src) == ListUnder(Field(src.analysis, "files"), "entries")
  {
  }

  // ---------------------------------------------------------------- findings

  function TextUnder(key: string): Json -> bool {
    (j: Json) => Field(j, key).Text?
  }

  /** Those of the records that have a text under `key`, the first four hundred. */
  function Readable(j: Json, key: string): seq<Json> {
    var kept := Filter(match j case Array(items) => items case _ => [], TextUnder(key));
    if |kept| <= 400 then kept else kept[..400]
  }

  lemma ReadableIs(j: Json, key: string)
    ensures Readable(j, key) == FirstN(Filter(Items(j), HasId(key)), HARD_CAP)
  {
    FilterSame(Items(j), HasId(key), TextUnder(key));
  }

  predicate IssueIs(h: Host, j: Json, f: Finding) {
    && f.source == Static && TextIs(h, j, "id", 160, f.id) && TextIs(h, j, "severity", 24, f.severity)
    && TextIs(h, j, "category", 40, f.category) && TextIs(h, j, "title", 160, f.title)
    && TextIs(h, j, "message", 800, f.message)
    && f.recommendation == None && f.evidence == None && f.relatedTestId == None && f.sourceFile == None
  }

  predicate DiagnosticIs(h: Host, j: Json, f: Finding) {
    && f.source == Diagnostic && TextIs(h, j, "id", 160, f.id) && TextIs(h, j, "severity", 24, f.severity)
    && TextIs(h, j, "category", 40, f.category) && TextIs(h, j, "title", 160, f.title)
    && TextIs(h, j, "description", 800, f.message) && OptTextIs(h, j, "recommendation", 400, f.recommendation)
    && OptTextIs(h, j, "relatedTestId", 160, f.relatedTestId) && OptTextIs(h, j, "sourceFile", 160, f.sourceFile)
    && match Field(j, "evidence")
       case Array(items) => f.evidence.Some? && TextsAre(h, items, 6, 400, f.evidence.value)
       case _ => f.evidence == None
  }

  lemma IssueReads(h: Host, j: Json)
    ensures IssueIs(h, j, ReadIssue(h, j))
  {
  }

  lemma DiagnosticReads(h: Host, j: Json)
    ensures DiagnosticIs(h, j, ReadDiagnostic(h, j))
  {
    if Field(j, "evidence").Array? {
      LinesRead(h, Field(j, "evidence").items, 6, 400);
    }
  }

  /** Static findings first, then diagnostics, each read from its own record. */
  lemma FindingsRead(h: Host, src: Source)
    ensures var issues, found := Readable(Issues(src), "id"), Readable(Diagnostics(src), "id");
            var r := AllFindings(h, src);
            && |r| == |issues| + |found|
            && (forall i :: 0 <= i < |issues| ==> IssueIs(h, issues[i], r[i]))
            && (forall i :: 0 <= i < |found| ==> DiagnosticIs(h, found[i], r[|issues| + i]))
  {
    var issues, found := Readable(Issues(src), "id"), Readable(Diagnostics(src), "id");
    var r := AllFindings(h, src);
    ReadableIs(Issues(src), "id");
    ReadableIs(Diagnostics(src), "id");
    forall i | 0 <= i < |issues|
      ensures IssueIs(h, issues[i], r[i])
    {
      MapAt(StaticFinding(h), issues, i);
      IssueReads(h, issues[i]);
    }
    forall i | 0 <= i < |found|
      ensures DiagnosticIs(h, found[i], r[|issues| + i])
    {
      MapAt(DiagnosticFinding(h), found, i);
      DiagnosticReads(h, found[i]);
    }
  }

  // ---------------------------------------------------------------- tests

  predicate AssertionIs(h: Host, j: Json, a: Assertion) {
    var assertion := Field(j, "assertion");
    && TextIs(h, assertion, "type", 40, a.kind) && (a.passed <==> Truthy(Field(j, "passed")))
    && TextIs(h, j, "message", 400, a.message) && OptTextIs(h, assertion, "selector", 160, a.selector)
    && OptTextIs(h, assertion, "value", 160, a.value)
  }

  predicate EvidenceItemIs(h: Host, j: Json, e: TestEvidence) {
    && TextIs(h, j, "id", 160, e.id) && TextIs(h, j, "kind", 24, e.kind) && TextIs(h, j, "label", 160, e.caption)
    && if Field(j, "kind") == Text("screenshot") then e.detail == None else OptTextIs(h, j, "detail", 400, e.detail)
  }

  predicate AssertionsAre(h: Host, items: seq<Json>, out: seq<Assertion>) {
    && |out| == (if |items| <= 16 then |items| else 16)
    && forall i :: 0 <= i < |out| ==> AssertionIs(h, items[i], out[i])
  }

  predicate EvidenceItemsAre(h: Host, items: seq<Json>, out: seq<TestEvidence>) {
    var kept := Filter(items, TextUnder("id"));
    && |out| == (if |kept| <= 16 then |kept| else 16)
    && forall i :: 0 <= i < |out| ==> EvidenceItemIs(h, kept[i], out[i])
  }

  predicate TestTextsAre(h: Host, j: Json, t: Test) {
    && TextIs(h, j, "testId", 160, t.testId) && TextIs(h, j, "name", 160, t.name)
    && TextIs(h, j, "description", 400, t.description) && TextIs(h, j, "category", 40, t.category)
    && TextIs(h, j, "status", 24, t.status) && t.durationMs == NumberOr(j, "duration", 0.0)
    && OptTextIs(h, j, "skippedReason", 400, t.skippedReason)
  }

  predicate TestListsAre(h: Host, j: Json, t: Test) {
    && TextsAre(h, ListUnder(j, "steps"), 24, 160, t.steps)
    && AssertionsAre(h, ListUnder(j, "assertions"), t.assertions)
    && EvidenceItemsAre(h, ListUnder(j, "evidence"), t.evidence)
    && TextsAre(h, ListUnder(j, "errors"), 10, 400, t.errors)
    && TextsAre(h, ListUnder(j, "warnings"), 10, 400, t.warnings)
  }

  predicate TestIs(h: Host, j: Json, t: Test) {
    TestTextsAre(h, j, t) && TestListsAre(h, j, t)
  }

  lemma AssertionsRead(h: Host, items: seq<Json>)
    ensures AssertionsAre(h, items, Map(AssertionOf(h), FirstN(items, 16)))
  {
    forall i | 0 <= i < |FirstN(items, 16)|
      ensures AssertionIs(h, items[i], Map(AssertionOf(h), FirstN(items, 16))[i])
    {
      MapAt(AssertionOf(h), FirstN(items, 16), i);
    }
  }

  lemma EvidenceRead(h: Host, items: seq<Json>)
    ensures EvidenceItemsAre(h, items, Map(TestEvidenceOf(h), FirstN(Filter(items, HasId("id")), 16)))
  {
    var kept := Filter(items, TextUnder("id"));
    FilterSame(items, HasId("id"), TextUnder("id"));
    forall i | 0 <= i < |FirstN(kept, 16)|
      ensures EvidenceItemIs(h, kept[i], Map(TestEvidenceOf(h), FirstN(kept, 16))[i])
    {
      MapAt(TestEvidenceOf(h), FirstN(kept, 16), i);
    }
  }

  lemma TestTextsRead(h: Host, j: Json)
    ensures TestTextsAre(h, j, ReadTest(h, j))
  {
  }

  lemma TestListsRead(h: Host, j: Json)
    ensures TestListsAre(h, j, ReadTest(h, j))
  {
    LinesRead(h, ListUnder(j, "steps"), 24, 160);
    AssertionsRead(h, ListUnder(j, "assertions"));
    EvidenceRead(h, ListUnder(j, "evidence"));
    LinesRead(h, ListUnder(j, "errors"), 10, 400);
    LinesRead(h, ListUnder(j, "warnings"), 10, 400);
  }

  lemma TestReads(h: Host, j: Json)
    ensures TestIs(h, j, ReadTest(h, j))
  {
    TestTextsRead(h, j);
    TestListsRead(h, j);
  }

  lemma TestsRead(h: Host, src: Source)
    ensures var results, r := Readable(Results(src), "testId"), Tests(h, Results(src));
            |r| == |results| && forall i :: 0 <= i < |r| ==> TestIs(h, results[i], r[i])
  {
    var results := Readable(Results(src), "testId");
    ReadableIs(Results(src), "testId");
    forall i | 0 <= i < |results|
      ensures TestIs(h, results[i], Tests(h, Results(src))[i])
    {
      MapAt(TestOf(h), results, i);
      TestReads(h, results[i]);
    }
  }

  // ---------------------------------------------------------------- events and requests

  /** An event about a failure, by its level or its type. */
  predicate AboutFailure(j: Json) {
    || Field(j, "level") == Text("error") || Field(j, "level") == Text("warn") || Field(j, "level") == Text("warning")
    || Field(j, "type") == Text("error") || Field(j, "type") == Text("runtime")
  }

  /** A request without an answer, or answered with an error. */
  predicate WentWrong(j: Json) {
    match Field(j, "status")
    case Number(status) => status == 0.0 || status >= 400.0
    case _ => true
  }

  function Latest<T>(s: seq<T>, n: nat): seq<T> {
    if |s| <= n then s else s[|s| - n..]
  }

  ghost predicate TextOrIs(h: Host, j: Json, key: string, max: nat, standIn: string, out: string)
    requires max >= 1
  {
    exists text :: TextIs(h, j, key, max, text) && out == if text == "" then standIn else text
  }

  ghost predicate EventIs(h: Host, j: Json, i: nat, e: RuntimeEvent) {
    && e.id == "evt-" + Decimal(i + 1) && e.timestamp == NumberOr(j, "timestamp", 0.0)
    && TextOrIs(h, j, "type", 24, "console", e.kind) && OptTextIs(h, j, "level", 16, e.level)
    && OptTextIs(h, j, "source", 160, e.source) && TextIs(h, j, "message", 800, e.message)
  }

  ghost predicate RequestIs(h: Host, j: Json, i: nat, r: Request) {
    && r.id == "net-" + Decimal(i + 1) && TextOrIs(h, j, "method", 12, "GET", r.verb)
    && (match Field(j, "url") case Text(url) => CutIs(h.redactUrl(url), 400, r.url) case _ => r.url == "")
    && (match Field(j, "status") case Number(status) => r.status == Some(status) case _ => r.status == None)
    && OptTextIs(h, j, "resourceType", 24, r.resourceType)
  }

  lemma EventReads(h: Host, j: Json, i: nat)
    ensures EventIs(h, j, i, EventOf(h, j, i))
  {
    CleanReads(h, j, "type", 24);
  }

  lemma RequestReads(h: Host, j: Json, i: nat)
    ensures RequestIs(h, j, i, RequestOf(h, j, i))
  {
    CleanReads(h, j, "method", 12);
  }

  /** The last sixty events about failures, numbered from one. */
  lemma EventsRead(h: Host, src: Source)
    ensures var picked, r := Latest(Filter(LogEvents(src), AboutFailure), 60), Events(h, src);
            |r| == |picked| && forall i :: 0 <= i < |r| ==> EventIs(h, picked[i], i, r[i])
  {
    FilterSame(LogEvents(src), Interesting, AboutFailure);
    var picked := Latest(Filter(LogEvents(src), AboutFailure), 60);
    assert picked == PickedEvents(src);
    forall i | 0 <= i < |picked|
      ensures EventIs(h, picked[i], i, Events(h, src)[i])
    {
      EventReads(h, picked[i], i);
    }
  }

  /** The last forty requests that went wrong, numbered from one. */
  lemma RequestsRead(h: Host, src: Source)
    ensures var picked, r := Latest(Filter(LoggedRequests(src), WentWrong), 40), Requests(h, src);
            |r| == |picked| && forall i :: 0 <= i < |r| ==> RequestIs(h, picked[i], i, r[i])
  {
    FilterSame(LoggedRequests(src), FailedRequest, WentWrong);
    var picked := Latest(Filter(LoggedRequests(src), WentWrong), 40);
    assert picked == PickedRequests(src);
    forall i | 0 <= i < |picked|
      ensures RequestIs(h, picked[i], i, Requests(h, src)[i])
    {
      RequestReads(h, picked[i], i);
    }
  }

  // ---------------------------------------------------------------- permissions

  ghost predicate CategorizedIs(h: Host, j: Json, p: Permission) {
    && TextIs(h, j, "name", 160, p.name) && (p.broad <==> Truthy(Field(j, "broad")))
    && OptTextIs(h, j, "reason", 160, p.reason)
    && if Field(j, "kind") in [Text("host_permission"), Text("optional_permission")]
       then Field(j, "kind") == Text(p.kind)
       else p.kind == "permission"
  }

  /** A permission from the plain lists; only host patterns can be broad. */
  ghost predicate ListedIs(h: Host, j: Json, host: bool, p: Permission) {
    && (match j case Text(s) => CutIs(h.redact(s), 160, p.name) case _ => p.name == "")
    && p.kind == (if host then "host_permission" else "permission") && p.reason == None
    && (p.broad <==> host && j.Text? && (Has(j.text, "<all_urls>") || Has(j.text, "*://*")))
  }

  ghost predicate Has(s: string, part: string) {
    exists i :: 0 <= i <= |s| && part <= s[i..]
  }

  lemma {:induction false} ContainsIs(s: string, part: string)
    ensures Contains(s, part) <==> Has(s, part)
  {
    if part <= s {
      assert s[0..] == s;
    } else if s != "" {
      ContainsIs(s[1..], part);
      assert forall i :: 0 < i <= |s| ==> s[i..] == s[1..][i - 1..];
      assert s[0..] == s;
      if Has(s[1..], part) {
        var i :| 0 <= i <= |s[1..]| && part <= s[1..][i..];
        assert part <= s[i + 1..];
      }
    } else {
      assert s[0..] == s;
    }
  }

  lemma ListedReads(h: Host, j: Json)
    ensures ListedIs(h, j, false, PlainPermission(h)(j)) && ListedIs(h, j, true, HostPermission(h)(j))
  {
    if j.Text? {
      ContainsIs(j.text, "<all_urls>");
      ContainsIs(j.text, "*://*");
    }
  }

  /** Forty at most: the categorized list where there is one, otherwise the plain names and
      then the host patterns. */
  lemma PermissionsRead(h: Host, source: Json)
    requires Truthy(source)
    ensures var sorted, r := ListUnder(source, "categorized"), PermissionContexts(h, source);
            var names, hosts := ListUnder(source, "permissions"), ListUnder(source, "hostPermissions");
            if sorted != [] then
              |r| == (if |sorted| <= 40 then |sorted| else 40)
              && forall i :: 0 <= i < |r| ==> CategorizedIs(h, sorted[i], r[i])
            else
              |r| == (if |names| + |hosts| <= 40 then |names| + |hosts| else 40)
              && forall i :: 0 <= i < |r| ==>
                   ListedIs(h, if i < |names| then names[i] else hosts[i - |names|], i >= |names|, r[i])
  {
    var sorted, r := ListUnder(source, "categorized"), PermissionContexts(h, source);
    var names, hosts := ListUnder(source, "permissions"), ListUnder(source, "hostPermissions");
    if sorted != [] {
      forall i | 0 <= i < |r|
        ensures CategorizedIs(h, sorted[i], r[i])
      {
        MapAt(CategorizedPermission(h), FirstN(sorted, 40), i);
      }
    } else {
      forall i | 0 <= i < |r|
        ensures ListedIs(h, if i < |names| then names[i] else hosts[i - |names|], i >= |names|, r[i])
      {
        if i < |names| {
          MapAt(PlainPermission(h), names, i);
          ListedReads(h, names[i]);
        } else {
          MapAt(HostPermission(h), hosts, i - |names|);
          ListedReads(h, hosts[i - |names|]);
        }
      }
    }
  }

  lemma NoPermissions(h: Host, source: Json)
    requires source in [Undefined, Null, Flag(false), Text(""), Number(0.0)]
    ensures PermissionContexts(h, source) == []
  {
  }

  // ---------------------------------------------------------------- files

  /** Manifests, then scripts, then markup, styles and data, then the rest. */
  ghost function Group(path: string): nat {
    if Ends(path, "manifest.json") then 0
    else if Ends(path, ".js") || Ends(path, ".mjs") || Ends(path, ".ts") then 1
    else if Ends(path, ".html") || Ends(path, ".css") || Ends(path, ".json") then 2
    else 3
  }

  ghost predicate Ends(s: string, suffix: string) {
    exists k :: 0 <= k <= |s| && s[k..] == suffix
  }

  lemma EndsIs(s: string, suffix: string)
    ensures Ends(s, suffix) <==> EndsWith(s, suffix)
  {
    if EndsWith(s, suffix) {
      assert s[|s| - |suffix|..] == suffix;
    }
  }

  lemma GroupIsRank(path: string)
    ensures Group(path) == ContextSource.Rank(path)
  {
    EndsIs(path, "manifest.json");
    EndsIs(path, ".js");
    EndsIs(path, ".mjs");
    EndsIs(path, ".ts");
    EndsIs(path, ".html");
    EndsIs(path, ".css");
    EndsIs(path, ".json");
  }

  /** What `localeCompare` is: a total preorder. */
  ghost predicate Preorder(leq: (string, string) -> bool) {
    && (forall a, b :: leq(a, b) || leq(b, a))
    && (forall a, b, c :: leq(a, b) && leq(b, c) ==> leq(a, c))
  }

  ghost predicate InOrder<T>(leq: (T, T) -> bool, s: seq<T>) {
    forall i, j :: 0 <= i < j < |s| ==> leq(s[i], s[j])
  }

  ghost predicate TotalOn<T(!new)>(leq: (T, T) -> bool) {
    && (forall a, b :: leq(a, b) || leq(b, a))
    && (forall a, b, c :: leq(a, b) && leq(b, c) ==> leq(a, c))
  }

  lemma {:induction false} InsertOrders<T(!new)>(leq: (T, T) -> bool, x: T, s: seq<T>)
    requires TotalOn(leq) && InOrder(leq, s)
    ensures InOrder(leq, Insert(leq, x, s))
  {
    if s != [] && !leq(x, s[0]) {
      var rest := Insert(leq, x, s[1..]);
      InsertOrders(leq, x, s[1..]);
      forall i | 0 <= i < |rest|
        ensures leq(s[0], rest[i])
      {
        InsertMember(leq, x, s[1..], rest[i]);
      }
    }
  }

  lemma {:induction false} SortOrders<T(!new)>(leq: (T, T) -> bool, s: seq<T>)
    requires TotalOn(leq)
    ensures InOrder(leq, Sort(leq, s))
  {
    if s != [] {
      SortOrders(leq, s[1..]);
      InsertOrders(leq, s[0], Sort(leq, s[1..]));
    }
  }

  predicate NamesAFile(j: Json) {
    Field(j, "type") == Text("file") && Field(j, "path").Text?
  }

  function PathUnder(j: Json): string {
    match Field(j, "path") case Text(path) => path case _ => ""
  }

  ghost predicate BeforeOrTied(h: Host, a: string, b: string) {
    Group(a) < Group(b) || (Group(a) == Group(b) && h.localeLeq(a, b))
  }

  lemma PathOrderIs(h: Host, a: string, b: string)
    ensures PathOrder(h)(a, b) <==> BeforeOrTied(h, a, b)
  {
    GroupIsRank(a);
    GroupIsRank(b);
  }

  /** The paths of the files, in order of group and then by locale, the first sixty, each
      redacted and cut to 160 characters. */
  lemma FilesRead(h: Host, src: Source) returns (sorted: seq<string>)
    requires Preorder(h.localeLeq)
    ensures multiset(sorted) == multiset(Map(PathUnder, Filter(FileEntries(src), NamesAFile)))
    ensures forall i, j :: 0 <= i < j < |sorted| ==> BeforeOrTied(h, sorted[i], sorted[j])
    ensures |FilePaths(h, src)| == (if |sorted| <= 60 then |sorted| else 60)
    ensures forall i :: 0 <= i < |FilePaths(h, src)| ==> CutIs(h.redact(sorted[i]), 160, FilePaths(h, src)[i])
  {
    FilterSame(FileEntries(src), IsFileEntry, NamesAFile);
    var paths := Map(PathOf, Filter(FileEntries(src), IsFileEntry));
    assert forall j :: PathOf(j) == PathUnder(j);
    assert paths == Map(PathUnder, Filter(FileEntries(src), NamesAFile));
    sorted := Sort(PathOrder(h), paths);
    SortPermutes(PathOrder(h), paths);
    SortOrders(PathOrder(h), paths);
    forall i, j | 0 <= i < j < |sorted|
      ensures BeforeOrTied(h, sorted[i], sorted[j])
    {
      PathOrderIs(h, sorted[i], sorted[j]);
    }
    forall i | 0 <= i < |FilePaths(h, src)|
      ensures CutIs(h.redact(sorted[i]), 160, FilePaths(h, src)[i])
    {
      MapAt(CleanPath(h), FirstN(sorted, 60), i);
    }
  }
}

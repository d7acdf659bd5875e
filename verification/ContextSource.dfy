/** From stored records to context elements: allowlisted fields, redacted and
    length-limited, with capped counts. */
module ContextSource {
  import opened Seqs
  import opened JsText
  import opened Json
  import opened Sorting
  import opened AIContext

  const MAX_FINDINGS: nat := 40
  const MAX_TESTS: nat := 32
  const MAX_EVENTS: nat := 60
  const MAX_NETWORK: nat := 40
  const MAX_FILES: nat := 60
  const MAX_PERMISSIONS: nat := 40
  const MAX_STEPS: nat := 24
  const MAX_ASSERTIONS: nat := 16
  const MAX_EVIDENCE: nat := 16
  const MAX_ERRORS: nat := 10
  const MAX_QUESTION_CHARS: nat := 500
  const LONG_TEXT: nat := 800
  const HARD_CAP: nat := 400

  datatype Run = Run(json: Json, diagnostics: Json, runtimeLog: Json, network: Json)

  /** The stored records a request is about. `features`, `fileCount`, `scores` and
      `runSummary` are taken as already extracted. */
  datatype Source = Source(
    resourceKind: string, resourceId: string,
    name: Option<string>, version: Option<string>, manifestVersion: Option<string>,
    analysis: Json, report: Json, run: Option<Run>,
    features: seq<string>, fileCount: Option<real>, scores: string, runSummary: string)

  // ---------------------------------------------------------------- which records

  function Issues(src: Source): Json {
    Coalesce(Field(Field(src.report, "staticAnalysis"), "issues"), Field(src.analysis, "issues"))
  }

  function RunJson(src: Source): Json {
    Coalesce(if src.run.Some? then src.run.value.json else Undefined,
             Coalesce(Field(Field(src.report, "runtimeTests"), "details"), Null))
  }

  function Diagnostics(src: Source): Json {
    Coalesce(if src.run.Some? then src.run.value.diagnostics else Undefined, Field(RunJson(src), "diagnostics"))
  }

  function Results(src: Source): Json {
    Field(RunJson(src), "results")
  }

  function Permissions(src: Source): Json {
    Coalesce(Coalesce(Field(Field(src.report, "staticAnalysis"), "permissions"), Field(src.analysis, "permissions")),
      Null)
  }

  function LogEvents(src: Source): seq<Json> {
    if src.run.Some? then Items(Field(src.run.value.runtimeLog, "events")) else []
  }

  function LoggedRequests(src: Source): seq<Json> {
    if src.run.Some? then Items(Field(src.run.value.network, "requests")) else []
  }

  function FileEntries(src: Source): seq<Json> {
    Items(Field(Field(src.analysis, "files"), "entries"))
  }

  // ---------------------------------------------------------------- findings

  function HasId(key: string): Json -> bool {
    (j: Json) => Field(j, key).Text?
  }

  function ReadIssue(h: Host, j: Json): Finding {
    Finding(
      Clean(h, Field(j, "id"), SHORT_TEXT), Static, Clean(h, Field(j, "severity"), 24),
      Clean(h, Field(j, "category"), 40), Clean(h, Field(j, "title"), SHORT_TEXT),
      Clean(h, Field(j, "message"), LONG_TEXT), None, None, None, None)
  }

  function StaticFinding(h: Host): Json -> Finding {
    (j: Json) => ReadIssue(h, j)
  }

  function CleanLine(h: Host, max: nat): Json -> string {
    (j: Json) => Clean(h, j, max)
  }

  function ReadDiagnostic(h: Host, j: Json): Finding {
    Finding(
      Clean(h, Field(j, "id"), SHORT_TEXT), Diagnostic, Clean(h, Field(j, "severity"), 24),
      Clean(h, Field(j, "category"), 40), Clean(h, Field(j, "title"), SHORT_TEXT),
      Clean(h, Field(j, "description"), LONG_TEXT),
      CleanOpt(h, Field(j, "recommendation"), TEXT),
      (if Field(j, "evidence").Array? then Some(Map(CleanLine(h, TEXT), FirstN(Field(j, "evidence").items, 6)))
       else None),
      CleanOpt(h, Field(j, "relatedTestId"), SHORT_TEXT), CleanOpt(h, Field(j, "sourceFile"), SHORT_TEXT))
  }

  function DiagnosticFinding(h: Host): Json -> Finding {
    (j: Json) => ReadDiagnostic(h, j)
  }

  function StaticFindings(h: Host, issues: Json): seq<Finding> {
    Map(StaticFinding(h), FirstN(Filter(Items(issues), HasId("id")), HARD_CAP))
  }

  function DiagnosticFindings(h: Host, diagnostics: Json): seq<Finding> {
    Map(DiagnosticFinding(h), FirstN(Filter(Items(diagnostics), HasId("id")), HARD_CAP))
  }

  // ---------------------------------------------------------------- tests

  function ReadAssertion(h: Host, j: Json): Assertion {
    Assertion(
      Clean(h, Field(Field(j, "assertion"), "type"), 40), Truthy(Field(j, "passed")),
      Clean(h, Field(j, "message"), TEXT),
      CleanOpt(h, Field(Field(j, "assertion"), "selector"), SHORT_TEXT),
      CleanOpt(h, Field(Field(j, "assertion"), "value"), SHORT_TEXT))
  }

  function AssertionOf(h: Host): Json -> Assertion {
    (j: Json) => ReadAssertion(h, j)
  }

  function ReadTestEvidence(h: Host, j: Json): TestEvidence {
    TestEvidence(
      Clean(h, Field(j, "id"), SHORT_TEXT), Clean(h, Field(j, "kind"), 24), Clean(h, Field(j, "label"), SHORT_TEXT),
      if Field(j, "kind") == Text("screenshot") then None else CleanOpt(h, Field(j, "detail"), TEXT))
  }

  function TestEvidenceOf(h: Host): Json -> TestEvidence {
    (j: Json) => ReadTestEvidence(h, j)
  }

  function ReadTest(h: Host, j: Json): Test {
    Test(
      Clean(h, Field(j, "testId"), SHORT_TEXT), Clean(h, Field(j, "name"), SHORT_TEXT),
      Clean(h, Field(j, "description"), TEXT), Clean(h, Field(j, "category"), 40), Clean(h, Field(j, "status"), 24),
      (if Field(j, "duration").Number? then Field(j, "duration").value else 0.0),
      Map(CleanLine(h, SHORT_TEXT), FirstN(Items(Field(j, "steps")), MAX_STEPS)),
      Map(AssertionOf(h), FirstN(Items(Field(j, "assertions")), MAX_ASSERTIONS)),
      Map(TestEvidenceOf(h), FirstN(Filter(Items(Field(j, "evidence")), HasId("id")), MAX_EVIDENCE)),
      Map(CleanLine(h, TEXT), FirstN(Items(Field(j, "errors")), MAX_ERRORS)),
      Map(CleanLine(h, TEXT), FirstN(Items(Field(j, "warnings")), MAX_ERRORS)),
      CleanOpt(h, Field(j, "skippedReason"), TEXT))
  }

  function TestOf(h: Host): Json -> Test {
    (j: Json) => ReadTest(h, j)
  }

  function Tests(h: Host, results: Json): seq<Test> {
    Map(TestOf(h), FirstN(Filter(Items(results), HasId("testId")), HARD_CAP))
  }

  // ---------------------------------------------------------------- events and requests

  predicate Interesting(j: Json) {
    var level, kind := Field(j, "level"), Field(j, "type");
    level in {Text("error"), Text("warn"), Text("warning")} || kind in {Text("error"), Text("runtime")}
  }

  function PickedEvents(src: Source): seq<Json> {
    LastN(Filter(LogEvents(src), Interesting), MAX_EVENTS)
  }

  function OrElse(s: string, default: string): string {
    if s == "" then default else s
  }

  /** Events are numbered by their place among the picked ones. */
  function EventOf(h: Host, j: Json, i: nat): RuntimeEvent {
    RuntimeEvent(
      "evt-" + Decimal(i + 1), if Field(j, "timestamp").Number? then Field(j, "timestamp").value else 0.0,
      OrElse(Clean(h, Field(j, "type"), 24), "console"),
      CleanOpt(h, Field(j, "level"), 16), CleanOpt(h, Field(j, "source"), SHORT_TEXT),
      Clean(h, Field(j, "message"), LONG_TEXT))
  }

  function Events(h: Host, src: Source): seq<RuntimeEvent> {
    var picked := PickedEvents(src);
    seq(|picked|, i requires 0 <= i < |picked| => EventOf(h, picked[i], i))
  }

  predicate FailedRequest(j: Json) {
    var status := Field(j, "status");
    !status.Number? || status.value == 0.0 || status.value >= 400.0
  }

  function PickedRequests(src: Source): seq<Json> {
    LastN(Filter(LoggedRequests(src), FailedRequest), MAX_NETWORK)
  }

  function RequestOf(h: Host, j: Json, i: nat): Request {
    Request(
      "net-" + Decimal(i + 1), OrElse(Clean(h, Field(j, "method"), 12), "GET"),
      if Field(j, "url").Text? then Truncate(h.redactUrl(Field(j, "url").text), TEXT) else "",
      if Field(j, "status").Number? then Some(Field(j, "status").value) else None,
      CleanOpt(h, Field(j, "resourceType"), 24))
  }

  function Requests(h: Host, src: Source): seq<Request> {
    var picked := PickedRequests(src);
    seq(|picked|, i requires 0 <= i < |picked| => RequestOf(h, picked[i], i))
  }

  // ---------------------------------------------------------------- permissions and files

  function PermissionKind(kind: Json): string {
    if kind == Text("host_permission") then "host_permission"
    else if kind == Text("optional_permission") then "optional_permission"
    else "permission"
  }

  function PermissionOf(h: Host, j: Json): Permission {
    Permission(Clean(h, Field(j, "name"), SHORT_TEXT), PermissionKind(Field(j, "kind")),
               Truthy(Field(j, "broad")), CleanOpt(h, Field(j, "reason"), SHORT_TEXT))
  }

  function CategorizedPermission(h: Host): Json -> Permission {
    (j: Json) => PermissionOf(h, j)
  }

  predicate Contains(s: string, part: string) {
    part <= s || (s != [] && Contains(s[1..], part))
  }

  predicate BroadHost(j: Json) {
    j.Text? && (Contains(j.text, "<all_urls>") || Contains(j.text, "*://*"))
  }

  function PlainPermission(h: Host): Json -> Permission {
    (j: Json) => Permission(Clean(h, j, SHORT_TEXT), "permission", false, None)
  }

  function HostPermission(h: Host): Json -> Permission {
    (j: Json) => Permission(Clean(h, j, SHORT_TEXT), "host_permission", BroadHost(j), None)
  }

  function PermissionContexts(h: Host, source: Json): seq<Permission> {
    if !Truthy(source) then []
    else
      var categorized := Items(Field(source, "categorized"));
      if categorized != [] then Map(CategorizedPermission(h), FirstN(categorized, MAX_PERMISSIONS))
      else
        FirstN(Map(PlainPermission(h), Items(Field(source, "permissions")))
               + Map(HostPermission(h), Items(Field(source, "hostPermissions"))), MAX_PERMISSIONS)
  }

  /** `permissionContexts`, with its two loops over the uncategorized lists. */
  method BuildPermissions(h: Host, source: Json) returns (r: seq<Permission>)
    ensures r == PermissionContexts(h, source)
  {
    if !Truthy(source) {
      return [];
    }
    var categorized := Items(Field(source, "categorized"));
    if |categorized| > 0 {
      return Map(CategorizedPermission(h), FirstN(categorized, MAX_PERMISSIONS));
    }
    var plain := PushEach([], PlainPermission(h), Items(Field(source, "permissions")));
    plain := PushEach(plain, HostPermission(h), Items(Field(source, "hostPermissions")));
    r := FirstN(plain, MAX_PERMISSIONS);
  }

  method PushEach(start: seq<Permission>, f: Json -> Permission, items: seq<Json>) returns (r: seq<Permission>)
    ensures r == start + Map(f, items)
  {
    r := start;
    for i := 0 to |items|
      invariant r == start + Map(f, items[..i])
    {
      r := r + [f(items[i])];
    }
    assert items[..|items|] == items;
  }

  predicate EndsWith(s: string, suffix: string) {
    |s| >= |suffix| && s[|s| - |suffix|..] == suffix
  }

  /** Manifest and scripts first: they are what findings and tests refer to. */
  function Rank(path: string): nat {
    if EndsWith(path, "manifest.json") then 0
    else if EndsWith(path, ".js") || EndsWith(path, ".mjs") || EndsWith(path, ".ts") then 1
    else if EndsWith(path, ".html") || EndsWith(path, ".css") || EndsWith(path, ".json") then 2
    else 3
  }

  function PathOrder(h: Host): (string, string) -> bool {
    (a: string, b: string) => Rank(a) < Rank(b) || (Rank(a) == Rank(b) && h.localeLeq(a, b))
  }

  predicate IsFileEntry(j: Json) {
    Field(j, "type") == Text("file") && Field(j, "path").Text?
  }

  function PathOf(j: Json): string {
    if Field(j, "path").Text? then Field(j, "path").text else ""
  }

  function CleanPath(h: Host): string -> string {
    (path: string) => Truncate(h.redact(path), SHORT_TEXT)
  }

  function FilePaths(h: Host, src: Source): seq<string> {
    Map(CleanPath(h), FirstN(Sort(PathOrder(h), Map(PathOf, Filter(FileEntries(src), IsFileEntry))), MAX_FILES))
  }

  // ---------------------------------------------------------------- provenance

  ghost predicate FindingFrom(h: Host, src: Source, f: Finding) {
    || f in Map(StaticFinding(h), Items(Issues(src)))
    || f in Map(DiagnosticFinding(h), Items(Diagnostics(src)))
  }

  ghost predicate TestFrom(h: Host, src: Source, t: Test) {
    t in Map(TestOf(h), Items(Results(src)))
  }

  ghost predicate FileFrom(h: Host, src: Source, path: string) {
    exists j :: j in FileEntries(src) && IsFileEntry(j) && path == CleanPath(h)(PathOf(j))
  }

  ghost predicate EventFrom(h: Host, src: Source, e: RuntimeEvent) {
    exists i :: 0 <= i < |PickedEvents(src)| && PickedEvents(src)[i] in LogEvents(src)
      && e == EventOf(h, PickedEvents(src)[i], i)
  }

  ghost predicate RequestFrom(h: Host, src: Source, r: Request) {
    exists i :: 0 <= i < |PickedRequests(src)| && PickedRequests(src)[i] in LoggedRequests(src)
      && r == RequestOf(h, PickedRequests(src)[i], i)
  }

  ghost predicate PermissionFrom(h: Host, source: Json, p: Permission) {
    || p in Map(CategorizedPermission(h), Items(Field(source, "categorized")))
    || p in Map(PlainPermission(h), Items(Field(source, "permissions")))
    || p in Map(HostPermission(h), Items(Field(source, "hostPermissions")))
  }

  /** A capped, mapped selection contains only images of selected elements. */
  lemma MappedMember<A(!new), B>(f: A -> B, s: seq<A>, p: A -> bool, max: nat, y: B)
    ensures y in Map(f, FirstN(Filter(s, p), max)) ==> y in Map(f, s)
  {
    var kept := FirstN(Filter(s, p), max);
    MapMember(f, kept, y);
    MapMember(f, s, y);
    if x :| x in kept && y == f(x) {
      FilterMember(s, p, x);
    }
  }

  lemma StaticFindingsFrom(h: Host, src: Source, f: Finding)
    requires f in StaticFindings(h, Issues(src))
    ensures FindingFrom(h, src, f)
  {
    MappedMember(StaticFinding(h), Items(Issues(src)), HasId("id"), HARD_CAP, f);
  }

  lemma DiagnosticFindingsFrom(h: Host, src: Source, f: Finding)
    requires f in DiagnosticFindings(h, Diagnostics(src))
    ensures FindingFrom(h, src, f)
  {
    MappedMember(DiagnosticFinding(h), Items(Diagnostics(src)), HasId("id"), HARD_CAP, f);
  }

  lemma TestsFrom(h: Host, src: Source, t: Test)
    requires t in Tests(h, Results(src))
    ensures TestFrom(h, src, t)
  {
    MappedMember(TestOf(h), Items(Results(src)), HasId("testId"), HARD_CAP, t);
  }

  lemma EventsFrom(h: Host, src: Source, e: RuntimeEvent)
    requires e in Events(h, src)
    ensures EventFrom(h, src, e)
  {
    var picked := PickedEvents(src);
    var i :| 0 <= i < |picked| && e == EventOf(h, picked[i], i);
    FilterMember(LogEvents(src), Interesting, picked[i]);
  }

  lemma RequestsFrom(h: Host, src: Source, r: Request)
    requires r in Requests(h, src)
    ensures RequestFrom(h, src, r)
  {
    var picked := PickedRequests(src);
    var i :| 0 <= i < |picked| && r == RequestOf(h, picked[i], i);
    FilterMember(LoggedRequests(src), FailedRequest, picked[i]);
  }

  lemma PermissionsFrom(h: Host, source: Json, p: Permission)
    requires p in PermissionContexts(h, source)
    ensures PermissionFrom(h, source, p)
  {
    CappedImage(CategorizedPermission(h), Items(Field(source, "categorized")), MAX_PERMISSIONS, p);
  }

  lemma CappedImage<A(!new), B>(f: A -> B, s: seq<A>, max: nat, y: B)
    ensures y in Map(f, FirstN(s, max)) ==> y in Map(f, s)
  {
    MapMember(f, FirstN(s, max), y);
    MapMember(f, s, y);
  }

  lemma FilesFrom(h: Host, src: Source, path: string)
    requires path in FilePaths(h, src)
    ensures FileFrom(h, src, path)
  {
    var entries := Filter(FileEntries(src), IsFileEntry);
    var paths := Map(PathOf, entries);
    var sorted := Sort(PathOrder(h), paths);
    MapMember(CleanPath(h), FirstN(sorted, MAX_FILES), path);
    var raw :| raw in sorted && path == CleanPath(h)(raw);
    SortMember(PathOrder(h), paths, raw);
    MapMember(PathOf, entries, raw);
    var j :| j in entries && raw == PathOf(j);
    FilterMember(FileEntries(src), IsFileEntry, j);
  }
}

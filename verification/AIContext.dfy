/** The sanitized context an AI request works on, and the index of the items a
    model may cite. */
module AIContext {
  import opened Seqs
  import opened Json

  /** Host functions the model does not look into: the two redactors, the order
      of `localeCompare`, and the printed length of a number. */
  datatype Host = Host(
    redact: string -> string,
    redactUrl: string -> string,
    localeLeq: (string, string) -> bool,
    numberBytes: real -> nat)

  const TEXT: nat := 400
  const SHORT_TEXT: nat := 160

  // ---------------------------------------------------------------- text

  function Truncate(s: string, max: nat): (r: string)
    ensures max >= 1 ==> |r| <= max
    ensures |s| <= max ==> r == s
    ensures |s| > max >= 1 ==> r == s[..max - 1] + ['\U{2026}']
  {
    if |s| <= max then s else s[..if max >= 1 then max - 1 else 0] + ['\U{2026}']
  }

  function Clean(h: Host, j: Json, max: nat): string {
    if j.Text? then Truncate(h.redact(j.text), max) else ""
  }

  function CleanOpt(h: Host, j: Json, max: nat): Option<string> {
    if j.Text? && j.text != "" then Some(Truncate(h.redact(j.text), max)) else None
  }

  lemma TruncateTwice(s: string, wide: nat, narrow: nat)
    requires 1 <= narrow <= wide
    ensures Truncate(Truncate(s, wide), narrow) == Truncate(s, narrow)
  {
    if |s| > wide > narrow {
      assert Truncate(s, wide)[..narrow - 1] == s[..narrow - 1];
    }
  }

  // ---------------------------------------------------------------- entities

  datatype FindingSource = Static | Diagnostic

  datatype Finding = Finding(
    id: string, source: FindingSource, severity: string, category: string, title: string, message: string,
    recommendation: Option<string>, evidence: Option<seq<string>>,
    relatedTestId: Option<string>, sourceFile: Option<string>)

  datatype Assertion = Assertion(kind: string, passed: bool, message: string, selector: Option<string>,
                                 value: Option<string>)

  datatype TestEvidence = TestEvidence(id: string, kind: string, caption: string, detail: Option<string>)

  datatype Test = Test(
    testId: string, name: string, description: string, category: string, status: string, durationMs: real,
    steps: seq<string>, assertions: seq<Assertion>, evidence: seq<TestEvidence>,
    errors: seq<string>, warnings: seq<string>, skippedReason: Option<string>)

  datatype RuntimeEvent = RuntimeEvent(
    id: string, timestamp: real, kind: string, level: Option<string>, source: Option<string>, message: string)

  datatype Request = Request(id: string, verb: string, url: string, status: Option<real>, resourceType: Option<string>)

  datatype Permission = Permission(name: string, kind: string, broad: bool, reason: Option<string>)

  datatype Extension = Extension(
    name: Option<string>, version: Option<string>, manifestVersion: Option<string>,
    permissions: seq<Permission>, features: seq<string>, fileCount: Option<real>, files: seq<string>)

  datatype Focus = Focus(findingId: Option<string>, testId: Option<string>, question: Option<string>)

  datatype Ref = Ref(kind: string, id: string, caption: string)

  /** `scores` and `run` are carried as the JSON text they are sent as. */
  datatype Context = Context(
    resourceKind: string, resourceId: string, extension: Extension, scores: string,
    findings: seq<Finding>, tests: seq<Test>, run: string,
    events: seq<RuntimeEvent>, network: seq<Request>, focus: Focus,
    evidenceIndex: seq<Ref>, bytes: nat, truncated: bool)

  const REPORT_SECTIONS: seq<Ref> := [
    Ref("report_section", "scores", "Scores"),
    Ref("report_section", "static-analysis", "Static analysis findings"),
    Ref("report_section", "permissions", "Permissions"),
    Ref("report_section", "runtime-tests", "Runtime test results"),
    Ref("report_section", "diagnostics", "Runtime diagnostics")]

  // ---------------------------------------------------------------- evidence index

  function FindingRef(f: Finding): Ref {
    Ref(if f.source.Diagnostic? then "diagnostic" else "finding", f.id, f.title)
  }

  function TestRef(t: Test): Ref {
    Ref("test", t.testId, t.name)
  }

  function FileRef(path: string): Ref {
    Ref("file", path, path)
  }

  function EventRef(e: RuntimeEvent): Ref {
    Ref("event", e.id, Truncate(e.message, 80))
  }

  function RequestRef(r: Request): Ref {
    Ref("network", r.id, r.verb + " " + Truncate(r.url, 60))
  }

  function PermissionRef(p: Permission): Ref {
    Ref("permission", p.name, p.name)
  }

  /** The finding names a source file. */
  predicate NamesFile(f: Finding) {
    f.sourceFile.Some? && f.sourceFile.value != ""
  }

  predicate Lists(refs: seq<Ref>, kind: string, id: string) {
    exists i :: 0 <= i < |refs| && refs[i].kind == kind && refs[i].id == id
  }

  /** The source files findings name that are not listed as files yet. */
  function WithSourceFiles(refs: seq<Ref>, findings: seq<Finding>): seq<Ref>
    decreases |findings|
  {
    if findings == [] then refs
    else
      var file := findings[0].sourceFile;
      var next :=
        if file.Some? && file.value != "" && !Lists(refs, "file", file.value) then refs + [FileRef(file.value)]
        else refs;
      WithSourceFiles(next, findings[1..])
  }

  /** Findings, tests and files, as they are listed first. */
  function ListedRefs(c: Context): seq<Ref> {
    Map(FindingRef, c.findings) + Map(TestRef, c.tests) + Map(FileRef, c.extension.files)
  }

  function EvidenceIndex(c: Context): seq<Ref> {
    WithSourceFiles(ListedRefs(c), c.findings)
    + Map(EventRef, c.events) + Map(RequestRef, c.network) + Map(PermissionRef, c.extension.permissions)
    + REPORT_SECTIONS
  }

  method BuildEvidenceIndex(c: Context) returns (refs: seq<Ref>)
    ensures refs == EvidenceIndex(c)
  {
    refs := [];
    for i := 0 to |c.findings|
      invariant refs == Map(FindingRef, c.findings[..i])
    {
      refs := refs + [FindingRef(c.findings[i])];
    }
    var sofar := refs;
    assert c.findings[..|c.findings|] == c.findings;
    for i := 0 to |c.tests|
      invariant refs == sofar + Map(TestRef, c.tests[..i])
    {
      refs := refs + [TestRef(c.tests[i])];
    }
    sofar := refs;
    assert c.tests[..|c.tests|] == c.tests;
    for i := 0 to |c.extension.files|
      invariant refs == sofar + Map(FileRef, c.extension.files[..i])
    {
      refs := refs + [FileRef(c.extension.files[i])];
    }
    sofar := refs;
    assert c.extension.files[..|c.extension.files|] == c.extension.files;
    refs := AddSourceFiles(refs, c.findings);
    sofar := refs;
    for i := 0 to |c.events|
      invariant refs == sofar + Map(EventRef, c.events[..i])
    {
      refs := refs + [EventRef(c.events[i])];
    }
    sofar := refs;
    assert c.events[..|c.events|] == c.events;
    for i := 0 to |c.network|
      invariant refs == sofar + Map(RequestRef, c.network[..i])
    {
      refs := refs + [RequestRef(c.network[i])];
    }
    sofar := refs;
    assert c.network[..|c.network|] == c.network;
    for i := 0 to |c.extension.permissions|
      invariant refs == sofar + Map(PermissionRef, c.extension.permissions[..i])
    {
      refs := refs + [PermissionRef(c.extension.permissions[i])];
    }
    assert c.extension.permissions[..|c.extension.permissions|] == c.extension.permissions;
    refs := refs + REPORT_SECTIONS;
  }

  method AddSourceFiles(start: seq<Ref>, findings: seq<Finding>) returns (refs: seq<Ref>)
    ensures refs == WithSourceFiles(start, findings)
  {
    refs := start;
    assert findings[0..] == findings;
    for i := 0 to |findings|
      invariant WithSourceFiles(refs, findings[i..]) == WithSourceFiles(start, findings)
    {
      assert findings[i..][1..] == findings[i + 1..];
      var file := findings[i].sourceFile;
      if file.Some? && file.value != "" && !Lists(refs, "file", file.value) {
        refs := refs + [FileRef(file.value)];
      }
    }
  }

  /** `ref` names an item of the context, with the label the context gives it. */
  ghost predicate Names(c: Context, ref: Ref) {
    || (exists f :: f in c.findings && ref == FindingRef(f))
    || (exists t :: t in c.tests && ref == TestRef(t))
    || (exists path :: path in c.extension.files && ref == FileRef(path))
    || (exists f :: f in c.findings && NamesFile(f) && ref == FileRef(f.sourceFile.value))
    || (exists e :: e in c.events && ref == EventRef(e))
    || (exists r :: r in c.network && ref == RequestRef(r))
    || (exists p :: p in c.extension.permissions && ref == PermissionRef(p))
    || ref in REPORT_SECTIONS
  }

  /** Every reference already listed under kind "file" is labelled by its path. */
  predicate FilesAreFileRefs(refs: seq<Ref>) {
    forall r :: r in refs && r.kind == "file" ==> r == FileRef(r.id)
  }

  lemma {:induction false} SourceFilesMember(refs: seq<Ref>, findings: seq<Finding>, ref: Ref)
    requires FilesAreFileRefs(refs)
    ensures ref in WithSourceFiles(refs, findings)
       <==> ref in refs
            || exists f :: f in findings && NamesFile(f) && ref == FileRef(f.sourceFile.value)
    decreases |findings|
  {
    if findings != [] {
      var f0 := findings[0];
      var file := f0.sourceFile;
      var listed := file.Some? && Lists(refs, "file", file.value);
      var adds := file.Some? && file.value != "" && !listed;
      var next := if adds then refs + [FileRef(file.value)] else refs;
      SourceFilesMember(next, findings[1..], ref);
      assert forall f :: f in findings <==> f == f0 || f in findings[1..];
      if listed {
        var i :| 0 <= i < |refs| && refs[i].kind == "file" && refs[i].id == file.value;
        assert refs[i] in refs;
      }
    }
  }

  lemma ListedFilesAreFileRefs(c: Context)
    ensures FilesAreFileRefs(ListedRefs(c))
  {
    forall r | r in Map(FindingRef, c.findings)
      ensures r.kind != "file"
    {
      MapMember(FindingRef, c.findings, r);
    }
    forall r | r in Map(TestRef, c.tests)
      ensures r.kind != "file"
    {
      MapMember(TestRef, c.tests, r);
      assert r.kind[0] == 't';
    }
    forall r | r in Map(FileRef, c.extension.files)
      ensures r == FileRef(r.id)
    {
      MapMember(FileRef, c.extension.files, r);
    }
  }

  /** The part of the index that lists findings, tests and files. */
  lemma FirstPartNames(c: Context, ref: Ref)
    ensures ref in WithSourceFiles(ListedRefs(c), c.findings)
       <==> (exists f :: f in c.findings && ref == FindingRef(f))
            || (exists t :: t in c.tests && ref == TestRef(t))
            || (exists path :: path in c.extension.files && ref == FileRef(path))
            || (exists f :: f in c.findings && NamesFile(f) && ref == FileRef(f.sourceFile.value))
  {
    ListedFilesAreFileRefs(c);
    SourceFilesMember(ListedRefs(c), c.findings, ref);
    MapMember(FindingRef, c.findings, ref);
    MapMember(TestRef, c.tests, ref);
    MapMember(FileRef, c.extension.files, ref);
  }

  /** The index lists exactly the context's own items and the fixed report sections. */
  lemma IndexNamesExactly(c: Context, ref: Ref)
    ensures ref in EvidenceIndex(c) <==> Names(c, ref)
  {
    FirstPartNames(c, ref);
    MapMember(EventRef, c.events, ref);
    MapMember(RequestRef, c.network, ref);
    MapMember(PermissionRef, c.extension.permissions, ref);
  }

  predicate DistinctFileIds(refs: seq<Ref>, from: nat) {
    forall i, j :: 0 <= i < j < |refs| && j >= from && refs[i].kind == refs[j].kind == "file" ==>
      refs[i].id != refs[j].id
  }

  /** A source file is added at most once, and only when no file has its path. */
  lemma {:induction false} SourceFilesDistinct(refs: seq<Ref>, findings: seq<Finding>, from: nat)
    requires from <= |refs| && DistinctFileIds(refs, from)
    ensures refs <= WithSourceFiles(refs, findings)
    ensures DistinctFileIds(WithSourceFiles(refs, findings), from)
    decreases |findings|
  {
    if findings != [] {
      var file := findings[0].sourceFile;
      if file.Some? && file.value != "" && !Lists(refs, "file", file.value) {
        SourceFilesDistinct(refs + [FileRef(file.value)], findings[1..], from);
      } else {
        SourceFilesDistinct(refs, findings[1..], from);
      }
    }
  }
}

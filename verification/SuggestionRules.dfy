/** The rules for suggested tests said outright: what a candidate, each of its steps and
    each of its assertions must look like, and what an accepted one holds. */
module SuggestionRules {
  import opened Seqs
  import opened JsText
  import opened Json
  import opened AIContext
  import opened AIOutput
  import opened Schema
  import opened OutputFields
  import opened TestSuggestions

  // ---------------------------------------------------------------- shared pieces

  /** Rounding goes to the nearest integer, and up from half-way. */
  lemma RoundNearest(x: real, n: int)
    ensures Round(x) == n <==> n as real - 0.5 <= x < n as real + 0.5
  {
  }

  function CutTo(s: string, max: nat): string {
    if |s| <= max then s else s[..max]
  }

  /** `out` is the text: cleaned, not empty, and cut to `max` characters. */
  predicate CleanedTo(rules: Rules, j: Json, max: nat, out: string) {
    && j.Text? && rules.host.redact(Squash(j.text)) != ""
    && out == CutTo(rules.host.redact(Squash(j.text)), max)
  }

  lemma CleanTextExactly(rules: Rules, j: Json, max: nat, out: string)
    requires max >= 1
    ensures CleanText(rules, j, max) == Some(out) <==> CleanedTo(rules, j, max, out)
    ensures CleanText(rules, j, max) == None <==> !j.Text? || rules.host.redact(Squash(j.text)) == ""
  {
  }

  /** The keys named in a refusal are those not allowed, in order. */
  lemma {:induction false} ExtraKeysNext(members: seq<Member>, m: Member, allowed: set<string>)
    ensures ExtraKeys(members + [m], allowed)
         == ExtraKeys(members, allowed) + if m.key in allowed then [] else [m.key]
    decreases |members|
  {
    var last := if m.key in allowed then [] else [m.key];
    if members == [] {
      assert members + [m] == [m] && [m][1..] == [];
      assert last + [] == last == [] + last;
    } else {
      var first, rest := if members[0].key in allowed then [] else [members[0].key], members[1..];
      ExtraKeysNext(rest, m, allowed);
      assert (members + [m])[0] == members[0] && (members + [m])[1..] == rest + [m];
      assert first + (ExtraKeys(rest, allowed) + last) == first + ExtraKeys(rest, allowed) + last;
    }
  }

  // ---------------------------------------------------------------- steps

  /** No selector, or an allowed one of at most 200 characters, kept trimmed. */
  predicate SelectorIs(rules: Rules, j: Json, out: Option<string>) {
    if j.Undefined? then out == None
    else
      j.Text? && Trim(j.text) != "" && |j.text| <= 200 && rules.allowedSelector(Trim(j.text))
        && out == Some(Trim(j.text))
  }

  /** No value, or a harmless text of at most 200 characters, kept redacted. */
  predicate ValueIs(rules: Rules, j: Json, out: Option<string>) {
    if j.Undefined? then out == None
    else j.Text? && |j.text| <= 200 && !rules.dangerous(j.text) && out == Some(rules.host.redact(j.text))
  }

  /** A wait of at most five seconds, rounded; half a second for a wait without one. */
  predicate WaitIs(kind: string, j: Json, out: Option<int>) {
    if j.Undefined? then out == if kind == "wait" then Some(500) else None
    else j.Number? && 0.0 <= j.value <= 5000.0 && out == Some((j.value + 0.5).Floor)
  }

  /** The test page itself, or a URL the policy passes as https. */
  predicate UrlIs(rules: Rules, j: Json, out: string) {
    && j.Text?
    && (Trim(j.text) == out == "http://127.0.0.1:8080/extensionlab-test"
        || (Trim(j.text) != "http://127.0.0.1:8080/extensionlab-test" && !rules.refusedScheme(Trim(j.text))
            && rules.checkUrl(Trim(j.text)) == Some(out) && "https://" <= out))
  }

  predicate StepKind(kind: string) {
    kind in ["open_url", "reload_page", "wait", "click", "type", "select", "scroll", "inspect_text", "inspect_element",
             "open_popup", "clear_console", "capture_screenshot"]
  }

  predicate NeedsSelector(kind: string) {
    kind in ["click", "type", "select", "scroll", "inspect_text", "inspect_element"]
  }

  predicate StepKey(key: string) {
    key in ["type", "selector", "value", "milliseconds", "url"]
  }

  /** `j` is an acceptable step, and `s` is what it becomes. */
  predicate StepIs(rules: Rules, j: Json, s: Step) {
    && j.Object? && Field(j, "type") == Text(s.kind)
    && StepKind(s.kind) && (forall m :: m in j.members ==> StepKey(m.key))
    && SelectorIs(rules, Field(j, "selector"), s.selector)
    && (NeedsSelector(s.kind) ==> s.selector.Some?)
    && ValueIs(rules, Field(j, "value"), s.value)
    && (s.kind == "type" ==> s.value.Some?)
    && WaitIs(s.kind, Field(j, "milliseconds"), s.milliseconds)
    && if s.kind == "open_url" then s.url.Some? && UrlIs(rules, Field(j, "url"), s.url.value)
       else s.url == None && Field(j, "url").Undefined?
  }

  lemma UrlExactly(rules: Rules, j: Json, out: string)
    ensures UrlOf(rules, j) == Some(out) <==> UrlIs(rules, j, out)
  {
  }

  lemma SelectorExactly(rules: Rules, j: Json, out: Option<string>)
    ensures SelectorIs(rules, j, out) <==> (j.Undefined? || SelectorOk(rules, j)) && out == SelectorOf(j)
  {
  }

  lemma ValueExactly(rules: Rules, j: Json, out: Option<string>)
    ensures ValueIs(rules, j, out) <==> (j.Undefined? || ValueOk(rules, j)) && out == ValueOf(rules, j)
  {
  }

  lemma WaitExactly(kind: string, j: Json, out: Option<int>)
    ensures WaitIs(kind, j, out)
       <==> (j.Undefined? || WaitOk(j))
            && out == if j.Number? then Some(Round(j.value)) else if kind == "wait" then Some(500) else None
  {
  }

  lemma StepKinds(kind: string)
    ensures StepKind(kind) <==> kind in ALLOWED_ACTIONS
    ensures NeedsSelector(kind) <==> kind in SELECTOR_ACTIONS
    ensures StepKey(kind) <==> kind in STEP_KEYS
  {
  }

  lemma StepKeys(members: seq<Member>)
    ensures (forall m :: m in members ==> StepKey(m.key)) <==> (forall m :: m in members ==> m.key in STEP_KEYS)
  {
    forall m | m in members
      ensures StepKey(m.key) <==> m.key in STEP_KEYS
    {
      StepKinds(m.key);
    }
  }

  lemma StepExactly(rules: Rules, j: Json, s: Step)
    ensures StepVerdict(rules, j) == Ok(s) <==> StepIs(rules, j, s)
  {
    SelectorExactly(rules, Field(j, "selector"), s.selector);
    ValueExactly(rules, Field(j, "value"), s.value);
    WaitExactly(s.kind, Field(j, "milliseconds"), s.milliseconds);
    StepKinds(s.kind);
    if j.Object? {
      StepKeys(j.members);
    }
    if s.url.Some? {
      UrlExactly(rules, Field(j, "url"), s.url.value);
    }
  }

  // ---------------------------------------------------------------- assertions

  predicate CheckKind(kind: string) {
    kind in ["element_exists", "element_visible", "text_contains", "url_equals", "url_contains", "console_contains",
             "console_not_contains", "network_request_seen", "network_status_equals", "extension_loaded",
             "content_script_detected", "service_worker_detected", "popup_available", "runtime_error_none",
             "network_4xx_none", "network_5xx_none"]
  }

  predicate CheckKey(key: string) {
    key in ["type", "selector", "value", "expectedStatus", "message"]
  }

  predicate NeedsValue(kind: string) {
    kind in ["text_contains", "url_equals", "url_contains", "console_contains", "console_not_contains",
             "network_request_seen"]
  }

  /** `j` is an acceptable assertion, and `c` is what it becomes. */
  predicate CheckIs(rules: Rules, j: Json, c: Check) {
    && j.Object? && Field(j, "type") == Text(c.kind)
    && CheckKind(c.kind) && (forall m :: m in j.members ==> CheckKey(m.key))
    && SelectorIs(rules, Field(j, "selector"), c.selector)
    && (c.kind in ["element_exists", "element_visible"] ==> c.selector.Some?)
    && ValueIs(rules, Field(j, "value"), c.value)
    && (NeedsValue(c.kind) ==> c.value.Some?)
    && StatusIs(Field(j, "expectedStatus"), c.expectedStatus)
    && (c.kind == "network_status_equals" ==> c.expectedStatus.Some?)
    && MessageIs(rules, Field(j, "message"), c.message)
  }

  /** No status, or a whole number from 100 to 599. */
  predicate StatusIs(j: Json, out: Option<real>) {
    if j.Undefined? then out == None
    else j.Number? && 100.0 <= j.value <= 599.0 && j.value == j.value.Floor as real && out == Some(j.value)
  }

  predicate MessageIs(rules: Rules, j: Json, out: Option<string>) {
    match out
    case Some(text) => CleanedTo(rules, j, 400, text)
    case None => !j.Text? || rules.host.redact(Squash(j.text)) == ""
  }

  lemma StatusExactly(j: Json, out: Option<real>)
    ensures StatusIs(j, out)
       <==> (j.Undefined? || StatusOk(j)) && out == if j.Number? then Some(j.value) else None
  {
  }

  lemma MessageExactly(rules: Rules, j: Json, out: Option<string>)
    ensures MessageIs(rules, j, out) <==> out == CleanText(rules, j, 400)
  {
    if out.Some? {
      CleanTextExactly(rules, j, 400, out.value);
    } else {
      CleanTextExactly(rules, j, 400, "");
    }
  }

  lemma CheckKinds(kind: string)
    ensures CheckKind(kind) <==> kind in ALLOWED_ASSERTIONS
    ensures NeedsValue(kind) <==> kind in VALUE_ASSERTIONS
    ensures CheckKey(kind) <==> kind in CHECK_KEYS
  {
  }

  lemma CheckKeys(members: seq<Member>)
    ensures (forall m :: m in members ==> CheckKey(m.key)) <==> (forall m :: m in members ==> m.key in CHECK_KEYS)
  {
    forall m | m in members
      ensures CheckKey(m.key) <==> m.key in CHECK_KEYS
    {
      CheckKinds(m.key);
    }
  }

  lemma CheckExactly(rules: Rules, j: Json, c: Check)
    ensures CheckVerdict(rules, j) == Ok(c) <==> CheckIs(rules, j, c)
  {
    SelectorExactly(rules, Field(j, "selector"), c.selector);
    ValueExactly(rules, Field(j, "value"), c.value);
    StatusExactly(Field(j, "expectedStatus"), c.expectedStatus);
    MessageExactly(rules, Field(j, "message"), c.message);
    CheckKinds(c.kind);
    if j.Object? {
      CheckKeys(j.members);
    }
  }

  // ---------------------------------------------------------------- whole tests

  /** A lower-case letter and two to sixty-three more letters, digits or hyphens. */
  predicate IdIs(s: string) {
    && 3 <= |s| <= 64 && 'a' <= s[0] <= 'z'
    && forall i :: 1 <= i < |s| ==> 'a' <= s[i] <= 'z' || '0' <= s[i] <= '9' || s[i] == '-'
  }

  /** The cleaned text under a key, or what stands in for it. */
  predicate TextOr(rules: Rules, j: Json, max: nat, standIn: string, out: string) {
    CleanedTo(rules, j, max, out) || ((!j.Text? || rules.host.redact(Squash(j.text)) == "") && out == standIn)
  }

  /** The identifying part of a candidate is in order, and `t` holds it. */
  predicate HeadIs(rules: Rules, j: Json, t: SuggestedTest) {
    && Field(j, "id").Text? && t.id == rules.lower(Trim(Field(j, "id").text)) && IdIs(t.id)
    && TextOr(rules, Field(j, "name"), 120, "Unnamed suggestion", t.name)
    && Field(j, "category") == Text(t.category)
    && t.category in ["manifest", "loading", "page", "content_script", "popup", "background", "service_worker",
                      "permissions", "console", "network", "storage", "performance", "security"]
    && Field(j, "severity") == Text(t.severity) && t.severity in ["info", "low", "medium", "high", "critical"]
    && CleanedTo(rules, Field(j, "description"), 400, t.description)
    && t.timeout == (if Field(j, "timeout").Number? then (Field(j, "timeout").value + 0.5).Floor else 10000)
    && 1000 <= t.timeout <= 10000
    && TextOr(rules, Field(j, "rationale"), 400, "", t.rationale)
  }

  predicate StepsAre(rules: Rules, j: Json, steps: seq<Step>) {
    && j.Array? && 1 <= |j.items| <= 24 && |steps| == |j.items|
    && forall i :: 0 <= i < |steps| ==> StepIs(rules, j.items[i], steps[i])
  }

  predicate ChecksAre(rules: Rules, j: Json, checks: seq<Check>) {
    && j.Array? && 1 <= |j.items| <= 12 && |checks| == |j.items|
    && forall i :: 0 <= i < |checks| ==> CheckIs(rules, j.items[i], checks[i])
  }

  /** `j` is an acceptable candidate, and `t` is what it becomes. */
  ghost predicate TestIs(rules: Rules, index: seq<Ref>, j: Json, t: SuggestedTest) {
    && j.Object? && HeadIs(rules, j, t)
    && StepsAre(rules, Field(j, "steps"), t.steps)
    && (exists sums :: AddsUp(t.steps, sums) && sums[|t.steps|] <= t.timeout)
    && ChecksAre(rules, Field(j, "assertions"), t.assertions)
    && (forall m :: m in j.members ==> m.key in ["id", "name", "description", "category", "severity", "timeout",
                                                 "steps", "assertions", "rationale", "evidence"])
    && EvidenceHolds(index, Field(j, "evidence"), t.evidence)
  }

  lemma IdExactly(s: string)
    ensures IdPattern(s) <==> IdIs(s)
  {
    if IdIs(s) {
      assert forall c :: c in s[1..] ==> exists i :: 1 <= i < |s| && s[i] == c;
    }
    assert forall i :: 1 <= i < |s| ==> s[i] in s[1..] by {
      assert forall i :: 1 <= i < |s| ==> s[i] == s[1..][i - 1];
    }
  }

  lemma HeadExactly(rules: Rules, j: Json, t: SuggestedTest)
    ensures HeadIs(rules, j, t)
       <==> HeadAcceptable(rules, j) && t.id == IdOf(rules, Field(j, "id")) && t.name == NameOf(rules, j)
            && CleanText(rules, Field(j, "description"), 400) == Some(t.description)
            && Field(j, "category") == Text(t.category) && Field(j, "severity") == Text(t.severity)
            && t.timeout == TimeoutOf(Field(j, "timeout")) && t.rationale == RationaleOf(rules, j)
  {
    IdExactly(t.id);
    CleanTextExactly(rules, Field(j, "name"), 120, t.name);
    CleanTextExactly(rules, Field(j, "description"), 400, t.description);
    CleanTextExactly(rules, Field(j, "rationale"), 400, t.rationale);
  }

  lemma CollectedIs<T>(spec: Json -> Result<T, Reason>, items: seq<Json>, out: seq<T>)
    ensures Collected(spec, items) == Ok(out)
       <==> |out| == |items| && forall i :: 0 <= i < |items| ==> spec(items[i]) == Ok(out[i])
  {
    CollectedExactly(spec, items);
    if Collected(spec, items).Ok? && |out| == |items| && forall i :: 0 <= i < |items| ==> spec(items[i]) == Ok(out[i]) {
      assert Collected(spec, items).value == out;
    }
  }

  lemma StepsExactly(rules: Rules, j: Json, steps: seq<Step>)
    requires j.Array?
    ensures StepsAre(rules, j, steps)
       <==> 1 <= |j.items| <= 24 && Collected(StepVerdicts(rules), j.items) == Ok(steps)
  {
    CollectedIs(StepVerdicts(rules), j.items, steps);
    forall i | 0 <= i < |steps| && i < |j.items|
      ensures StepIs(rules, j.items[i], steps[i]) <==> StepVerdicts(rules)(j.items[i]) == Ok(steps[i])
    {
      StepExactly(rules, j.items[i], steps[i]);
    }
  }

  lemma ChecksExactly(rules: Rules, j: Json, checks: seq<Check>)
    requires j.Array?
    ensures ChecksAre(rules, j, checks)
       <==> 1 <= |j.items| <= 12 && Collected(CheckVerdicts(rules), j.items) == Ok(checks)
  {
    CollectedIs(CheckVerdicts(rules), j.items, checks);
    forall i | 0 <= i < |checks| && i < |j.items|
      ensures CheckIs(rules, j.items[i], checks[i]) <==> CheckVerdicts(rules)(j.items[i]) == Ok(checks[i])
    {
      CheckExactly(rules, j.items[i], checks[i]);
    }
  }

  /** A candidate is accepted as `t` exactly when it is acceptable and `t` is what it
      becomes: in particular a running sum of the waits ends within the timeout. */
  lemma AcceptedExactly(rules: Rules, index: seq<Ref>, j: Json, t: SuggestedTest)
    ensures VerdictOn(rules, index, j) == Accepted(t) <==> TestIs(rules, index, j, t)
  {
    HeadExactly(rules, j, t);
    WaitBound(t.steps, t.timeout);
    EvidenceFieldExactly(Field(j, "evidence"), index, "$.tests", t.evidence);
    if Field(j, "steps").Array? && Field(j, "assertions").Array? {
      StepsExactly(rules, Field(j, "steps"), t.steps);
      ChecksExactly(rules, Field(j, "assertions"), t.assertions);
    }
  }

  lemma {:induction false} NotCollected<T>(spec: Json -> Result<T, Reason>, items: seq<Json>, reason: Reason)
    requires forall j :: j in items ==> spec(j) != Err(reason)
    ensures Collected(spec, items) != Err(reason)
    decreases |items|
  {
    if items != [] {
      assert items[|items| - 1] in items;
      NotCollected(spec, items[..|items| - 1], reason);
    }
  }

  lemma WaitReason(rules: Rules, j: Json, steps: seq<Step>)
    requires j.Object? && HeadAcceptable(rules, j) && 1 <= |Items(Field(j, "steps"))| <= 24
    requires Collected(StepVerdicts(rules), Items(Field(j, "steps"))) == Ok(steps)
    ensures TotalWait(steps) > TimeoutOf(Field(j, "timeout")) ==>
              !TestAcceptable(rules, j) && TestReason(rules, j) == WaitExceedsTimeout
    ensures TotalWait(steps) <= TimeoutOf(Field(j, "timeout")) && !TestAcceptable(rules, j) ==>
              TestReason(rules, j) != WaitExceedsTimeout
  {
    ChecksNeverWait(rules, Field(j, "assertions"));
  }

  lemma ChecksNeverWait(rules: Rules, j: Json)
    ensures ChecksReason(rules, j) != WaitExceedsTimeout
  {
    NotCollected(CheckVerdicts(rules), Items(j), WaitExceedsTimeout);
  }

  /** A candidate with its head and every step in order is refused for its waits exactly
      when their running sum ends above the timeout. */
  lemma WaitsRefusedExactly(rules: Rules, index: seq<Ref>, j: Json, t: SuggestedTest, sums: seq<int>)
    requires j.Object? && HeadIs(rules, j, t) && StepsAre(rules, Field(j, "steps"), t.steps) && AddsUp(t.steps, sums)
    ensures VerdictOn(rules, index, j) == Rejected(t.name, WaitExceedsTimeout) <==> sums[|t.steps|] > t.timeout
  {
    HeadExactly(rules, j, t);
    StepsExactly(rules, Field(j, "steps"), t.steps);
    TotalWaitAddsUp(t.steps, sums);
    WaitReason(rules, j, t.steps);
  }
}

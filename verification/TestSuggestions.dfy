/** Validation of suggested tests against the test engine's rules. */
module TestSuggestions {
  import opened Seqs
  import opened JsText
  import opened Json
  import opened AIContext
  import opened AIOutput
  import opened Schema

  const TEST_TIMEOUT: int := 10000
  const MAX_ACTIONS_PER_TEST: nat := 24
  const MAX_WAIT_MS: real := 5000.0
  const MAX_SELECTOR_LENGTH: nat := 200
  const MAX_VALUE_LENGTH: nat := 200
  const MAX_TEXT_LENGTH: nat := 400
  const MAX_ASSERTIONS_PER_TEST: nat := 12
  const DEFAULT_TEST_PAGE_URL: string := "http://127.0.0.1:8080/extensionlab-test"

  const ALLOWED_ACTIONS: set<string> :=
    {"open_url", "reload_page", "wait", "click", "type", "select", "scroll", "inspect_text", "inspect_element",
     "open_popup", "clear_console", "capture_screenshot"}
  const ALLOWED_ASSERTIONS: set<string> :=
    {"element_exists", "element_visible", "text_contains", "url_equals", "url_contains", "console_contains",
     "console_not_contains", "network_request_seen", "network_status_equals", "extension_loaded",
     "content_script_detected", "service_worker_detected", "popup_available", "runtime_error_none",
     "network_4xx_none", "network_5xx_none"}
  const ALLOWED_CATEGORIES: set<string> :=
    {"manifest", "loading", "page", "content_script", "popup", "background", "service_worker", "permissions",
     "console", "network", "storage", "performance", "security"}
  const ALLOWED_SEVERITIES: set<string> := {"info", "low", "medium", "high", "critical"}
  const SELECTOR_ACTIONS: set<string> := {"click", "type", "select", "scroll", "inspect_text", "inspect_element"}
  const SELECTOR_ASSERTIONS: set<string> := {"element_exists", "element_visible", "text_contains"}
  const VALUE_ASSERTIONS: set<string> :=
    {"text_contains", "url_equals", "url_contains", "console_contains", "console_not_contains", "network_request_seen"}
  const STEP_KEYS: set<string> := {"type", "selector", "value", "milliseconds", "url"}
  const CHECK_KEYS: set<string> := {"type", "selector", "value", "expectedStatus", "message"}
  const TEST_KEYS: set<string> :=
    {"id", "name", "description", "category", "severity", "timeout", "steps", "assertions", "rationale", "evidence"}

  /** Pattern tests and the URL policy, as host functions; a validated URL comes
      back in normal form. */
  datatype Rules = Rules(
    host: Host,
    allowedSelector: string -> bool,
    dangerous: string -> bool,
    refusedScheme: string -> bool,
    checkUrl: string -> Option<string>,
    lower: string -> string)

  // ---------------------------------------------------------------- shared pieces

  /** The keys of an object outside the allowed ones, in order. */
  function ExtraKeys(members: seq<Member>, allowed: set<string>): seq<string> {
    if members == [] then []
    else (if members[0].key in allowed then [] else [members[0].key]) + ExtraKeys(members[1..], allowed)
  }

  lemma {:induction false} NoExtraKeys(members: seq<Member>, allowed: set<string>)
    ensures ExtraKeys(members, allowed) == [] <==> forall m :: m in members ==> m.key in allowed
  {
    if members != [] {
      NoExtraKeys(members[1..], allowed);
      assert forall m :: m in members <==> m == members[0] || m in members[1..];
    }
  }

  predicate SelectorOk(rules: Rules, j: Json) {
    j.Text? && Trim(j.text) != "" && |j.text| <= MAX_SELECTOR_LENGTH && rules.allowedSelector(Trim(j.text))
  }

  predicate ValueOk(rules: Rules, j: Json) {
    j.Text? && |j.text| <= MAX_VALUE_LENGTH && !rules.dangerous(j.text)
  }

  function SelectorOf(j: Json): Option<string> {
    if j.Text? then Some(Trim(j.text)) else None
  }

  function ValueOf(rules: Rules, j: Json): Option<string> {
    if j.Text? then Some(rules.host.redact(j.text)) else None
  }

  /** A cleaned text, cut to length, when anything is left of it. */
  function CleanText(rules: Rules, j: Json, max: nat): (r: Option<string>)
    requires max >= 1
    ensures r.Some? ==> 0 < |r.value| <= max
  {
    if !j.Text? then None
    else
      var cleaned := Cleaned(rules.host, j.text);
      if cleaned == "" then None else Some(FirstN(cleaned, max))
  }

  function Round(x: real): int {
    (x + 0.5).Floor
  }

  // ---------------------------------------------------------------- steps

  predicate WaitOk(j: Json) {
    j.Number? && 0.0 <= j.value <= MAX_WAIT_MS
  }

  /** The URL a step opens, if it may be opened. */
  function UrlOf(rules: Rules, j: Json): Option<string> {
    if !j.Text? then None
    else
      var url := Trim(j.text);
      if url == DEFAULT_TEST_PAGE_URL then Some(url)
      else if rules.refusedScheme(url) then None
      else
        var checked := rules.checkUrl(url);
        if checked.Some? && checked.value != "" && StartsWith(checked.value, "https://") then checked else None
  }

  /** What a step must look like to be accepted. */
  predicate StepAcceptable(rules: Rules, j: Json) {
    var action, selector, value, wait, url :=
      Field(j, "type"), Field(j, "selector"), Field(j, "value"), Field(j, "milliseconds"), Field(j, "url");
    && j.Object? && action.Text? && action.text in ALLOWED_ACTIONS
    && (forall m :: m in j.members ==> m.key in STEP_KEYS)
    && (selector.Undefined? || SelectorOk(rules, selector))
    && (action.text in SELECTOR_ACTIONS ==> !selector.Undefined?)
    && (value.Undefined? || ValueOk(rules, value))
    && (action.text == "type" ==> !value.Undefined?)
    && (wait.Undefined? || WaitOk(wait))
    && (if action.text == "open_url" then UrlOf(rules, url).Some? else url.Undefined?)
  }

  /** What an accepted step becomes. */
  function StepImage(rules: Rules, j: Json): Step {
    var action, wait := Field(j, "type"), Field(j, "milliseconds");
    var kind := if action.Text? then action.text else "";
    Step(kind, SelectorOf(Field(j, "selector")), ValueOf(rules, Field(j, "value")),
         if wait.Number? then Some(Round(wait.value)) else if kind == "wait" then Some(500) else None,
         if kind == "open_url" then UrlOf(rules, Field(j, "url")) else None)
  }

  function StepVerdict(rules: Rules, j: Json): Result<Step, Reason> {
    if StepAcceptable(rules, j) then Ok(StepImage(rules, j)) else Err(StepReason(rules, j))
  }

  method ValidateStep(rules: Rules, j: Json) returns (r: Result<Step, Reason>)
    ensures r == StepVerdict(rules, j)
  {
    if !j.Object? {
      return Err(StepNotAnObject);
    }
    var action := Field(j, "type");
    if !action.Text? {
      return Err(StepWithoutType);
    }
    var kind := action.text;
    if kind !in ALLOWED_ACTIONS {
      return Err(UnknownAction);
    }
    var extra := ExtraKeys(j.members, STEP_KEYS);
    NoExtraKeys(j.members, STEP_KEYS);
    if |extra| > 0 {
      return Err(StepFields(FirstN(extra, 3)));
    }
    var out := Step(kind, None, None, None, None);
    var selector := Field(j, "selector");
    if !selector.Undefined? {
      if !SelectorOk(rules, selector) {
        return Err(UnsafeStepSelector);
      }
      out := out.(selector := Some(Trim(selector.text)));
    } else if kind in SELECTOR_ACTIONS {
      return Err(SelectorRequired);
    }
    var value := Field(j, "value");
    if !value.Undefined? {
      if !value.Text? {
        return Err(StepValueNotText);
      }
      if |value.text| > MAX_VALUE_LENGTH {
        return Err(StepValueTooLong);
      }
      if rules.dangerous(value.text) {
        return Err(StepValueDangerous);
      }
      out := out.(value := Some(rules.host.redact(value.text)));
    }
    if kind == "type" && out.value.None? {
      return Err(ValueRequired);
    }
    var wait := Field(j, "milliseconds");
    if !wait.Undefined? {
      if !wait.Number? || wait.value < 0.0 {
        return Err(BadWait);
      }
      if wait.value > MAX_WAIT_MS {
        return Err(WaitTooLong);
      }
      out := out.(milliseconds := Some(Round(wait.value)));
    }
    if kind == "wait" && out.milliseconds.None? {
      out := out.(milliseconds := Some(500));
    }
    var target := Field(j, "url");
    if kind == "open_url" {
      if !target.Text? {
        return Err(UrlRequired);
      }
      var url := Trim(target.text);
      if url == DEFAULT_TEST_PAGE_URL {
        out := out.(url := Some(url));
      } else {
        if rules.refusedScheme(url) {
          return Err(UnsafeUrl);
        }
        var checked := rules.checkUrl(url);
        if checked.None? || checked.value == "" {
          return Err(UnsafeUrl);
        }
        if !StartsWith(checked.value, "https://") {
          return Err(UnsafeUrl);
        }
        out := out.(url := checked);
      }
    } else if !target.Undefined? {
      return Err(UrlNotAccepted);
    }
    r := Ok(out);
  }

  /** The reason given to a step: that of the first rule it breaks. */
  function StepReason(rules: Rules, j: Json): Reason {
    var action, selector, value, wait, url :=
      Field(j, "type"), Field(j, "selector"), Field(j, "value"), Field(j, "milliseconds"), Field(j, "url");
    if !j.Object? then StepNotAnObject
    else if !action.Text? then StepWithoutType
    else if action.text !in ALLOWED_ACTIONS then UnknownAction
    else if ExtraKeys(j.members, STEP_KEYS) != [] then StepFields(FirstN(ExtraKeys(j.members, STEP_KEYS), 3))
    else if !selector.Undefined? && !SelectorOk(rules, selector) then UnsafeStepSelector
    else if selector.Undefined? && action.text in SELECTOR_ACTIONS then SelectorRequired
    else if !value.Undefined? && !value.Text? then StepValueNotText
    else if value.Text? && |value.text| > MAX_VALUE_LENGTH then StepValueTooLong
    else if value.Text? && rules.dangerous(value.text) then StepValueDangerous
    else if action.text == "type" && value.Undefined? then ValueRequired
    else if !wait.Undefined? && (!wait.Number? || wait.value < 0.0) then BadWait
    else if wait.Number? && wait.value > MAX_WAIT_MS then WaitTooLong
    else if action.text != "open_url" then UrlNotAccepted
    else if !url.Text? then UrlRequired
    else UnsafeUrl
  }

  // ---------------------------------------------------------------- assertions

  predicate StatusOk(j: Json) {
    j.Number? && j.value == j.value.Floor as real && 100.0 <= j.value <= 599.0
  }

  /** What an assertion must look like to be accepted. A text assertion may do
      without its selector, but not without its value. */
  predicate CheckAcceptable(rules: Rules, j: Json) {
    var kind, selector, value, status :=
      Field(j, "type"), Field(j, "selector"), Field(j, "value"), Field(j, "expectedStatus");
    && j.Object? && kind.Text? && kind.text in ALLOWED_ASSERTIONS
    && (forall m :: m in j.members ==> m.key in CHECK_KEYS)
    && (selector.Undefined? || SelectorOk(rules, selector))
    && (kind.text in {"element_exists", "element_visible"} ==> !selector.Undefined?)
    && (value.Undefined? || ValueOk(rules, value))
    && (kind.text in VALUE_ASSERTIONS ==> !value.Undefined?)
    && (status.Undefined? || StatusOk(status))
    && (kind.text == "network_status_equals" ==> !status.Undefined?)
  }

  /** What an accepted assertion becomes. */
  function CheckImage(rules: Rules, j: Json): Check {
    var kind, status := Field(j, "type"), Field(j, "expectedStatus");
    Check(if kind.Text? then kind.text else "", SelectorOf(Field(j, "selector")), ValueOf(rules, Field(j, "value")),
          if status.Number? then Some(status.value) else None, CleanText(rules, Field(j, "message"), MAX_TEXT_LENGTH))
  }

  /** The reason given to an assertion: that of the first rule it breaks. */
  function CheckReason(rules: Rules, j: Json): Reason {
    var kind, selector, value, status :=
      Field(j, "type"), Field(j, "selector"), Field(j, "value"), Field(j, "expectedStatus");
    if !j.Object? then CheckNotAnObject
    else if !kind.Text? then CheckWithoutType
    else if kind.text !in ALLOWED_ASSERTIONS then UnknownAssertion
    else if ExtraKeys(j.members, CHECK_KEYS) != [] then CheckFields(FirstN(ExtraKeys(j.members, CHECK_KEYS), 3))
    else if !selector.Undefined? && !SelectorOk(rules, selector) then UnsafeCheckSelector
    else if selector.Undefined? && kind.text in {"element_exists", "element_visible"} then CheckSelectorRequired
    else if !value.Undefined? && !value.Text? then CheckValueNotText
    else if value.Text? && |value.text| > MAX_VALUE_LENGTH then CheckValueTooLong
    else if value.Text? && rules.dangerous(value.text) then CheckValueDangerous
    else if value.Undefined? && kind.text in VALUE_ASSERTIONS then CheckValueRequired
    else if !status.Undefined? && !StatusOk(status) then BadStatus
    else StatusRequired
  }

  function CheckVerdict(rules: Rules, j: Json): Result<Check, Reason> {
    if CheckAcceptable(rules, j) then Ok(CheckImage(rules, j)) else Err(CheckReason(rules, j))
  }

  method ValidateCheck(rules: Rules, j: Json) returns (r: Result<Check, Reason>)
    ensures r == CheckVerdict(rules, j)
  {
    if !j.Object? {
      return Err(CheckNotAnObject);
    }
    var kind := Field(j, "type");
    if !kind.Text? {
      return Err(CheckWithoutType);
    }
    if kind.text !in ALLOWED_ASSERTIONS {
      return Err(UnknownAssertion);
    }
    var extra := ExtraKeys(j.members, CHECK_KEYS);
    NoExtraKeys(j.members, CHECK_KEYS);
    if |extra| > 0 {
      return Err(CheckFields(FirstN(extra, 3)));
    }
    var out := Check(kind.text, None, None, None, None);
    var selector := Field(j, "selector");
    if !selector.Undefined? {
      if !SelectorOk(rules, selector) {
        return Err(UnsafeCheckSelector);
      }
      out := out.(selector := Some(Trim(selector.text)));
    } else if kind.text in SELECTOR_ASSERTIONS && kind.text != "text_contains" {
      return Err(CheckSelectorRequired);
    }
    var value := Field(j, "value");
    if !value.Undefined? {
      if !value.Text? {
        return Err(CheckValueNotText);
      }
      if |value.text| > MAX_VALUE_LENGTH {
        return Err(CheckValueTooLong);
      }
      if rules.dangerous(value.text) {
        return Err(CheckValueDangerous);
      }
      out := out.(value := Some(rules.host.redact(value.text)));
    } else if kind.text in VALUE_ASSERTIONS {
      return Err(CheckValueRequired);
    }
    var status := Field(j, "expectedStatus");
    if !status.Undefined? {
      if !StatusOk(status) {
        return Err(BadStatus);
      }
      out := out.(expectedStatus := Some(status.value));
    } else if kind.text == "network_status_equals" {
      return Err(StatusRequired);
    }
    var message := CleanText(rules, Field(j, "message"), MAX_TEXT_LENGTH);
    if message.Some? {
      out := out.(message := message);
    }
    r := Ok(out);
  }

  // ---------------------------------------------------------------- lists of steps and assertions

  /** All results, or the error of the first item that has one. */
  function Collected<T>(spec: Json -> Result<T, Reason>, items: seq<Json>): Result<seq<T>, Reason>
    decreases |items|
  {
    if items == [] then Ok([])
    else
      var init :- Collected(spec, items[..|items| - 1]);
      var last :- spec(items[|items| - 1]);
      Ok(init + [last])
  }

  /** What item `i` does to the whole list, when all items before it have results. */
  lemma {:induction false} CollectedNext<T>(spec: Json -> Result<T, Reason>, items: seq<Json>, i: nat)
    requires i < |items| && Collected(spec, items[..i]).Ok?
    ensures spec(items[i]).Ok? ==>
              Collected(spec, items[..i + 1]) == Ok(Collected(spec, items[..i]).value + [spec(items[i]).value])
    ensures spec(items[i]).Err? ==> Collected(spec, items) == Err(spec(items[i]).error)
    decreases |items|
  {
    assert items[..i + 1][..i] == items[..i];
    if i + 1 < |items| {
      assert items[..|items| - 1][..i] == items[..i];
      CollectedNext(spec, items[..|items| - 1], i);
    }
  }

  /** There are results exactly when every item has one, and they are in order. */
  lemma {:induction false} CollectedExactly<T>(spec: Json -> Result<T, Reason>, items: seq<Json>)
    ensures Collected(spec, items).Ok? <==> forall i :: 0 <= i < |items| ==> spec(items[i]).Ok?
    ensures Collected(spec, items).Ok? ==>
              |Collected(spec, items).value| == |items|
              && forall i :: 0 <= i < |items| ==> Collected(spec, items).value[i] == spec(items[i]).value
    decreases |items|
  {
    if items != [] {
      CollectedExactly(spec, items[..|items| - 1]);
    }
  }

  function StepVerdicts(rules: Rules): Json -> Result<Step, Reason> {
    (j: Json) => StepVerdict(rules, j)
  }

  function CheckVerdicts(rules: Rules): Json -> Result<Check, Reason> {
    (j: Json) => CheckVerdict(rules, j)
  }

  // ---------------------------------------------------------------- whole tests

  /** `^[a-z][a-z0-9-]{2,63}$` */
  predicate IdPattern(s: string) {
    && 3 <= |s| <= 64 && 'a' <= s[0] <= 'z'
    && forall c :: c in s[1..] ==> 'a' <= c <= 'z' || '0' <= c <= '9' || c == '-'
  }

  function IdOf(rules: Rules, j: Json): string {
    if j.Text? then rules.lower(Trim(j.text)) else ""
  }

  function NameOf(rules: Rules, j: Json): string {
    var name := CleanText(rules, Field(j, "name"), 120);
    if name.Some? then name.value else "Unnamed suggestion"
  }

  function RationaleOf(rules: Rules, j: Json): string {
    var rationale := CleanText(rules, Field(j, "rationale"), MAX_TEXT_LENGTH);
    if rationale.Some? then rationale.value else ""
  }

  function TimeoutOf(j: Json): int {
    if j.Number? then Round(j.value) else TEST_TIMEOUT
  }

  function TotalWait(steps: seq<Step>): int {
    if steps == [] then 0
    else
      var wait := steps[|steps| - 1].milliseconds;
      TotalWait(steps[..|steps| - 1]) + (if wait.Some? then wait.value else 0)
  }

  /** `sums` adds up the waits of the steps, one by one. */
  predicate AddsUp(steps: seq<Step>, sums: seq<int>) {
    && |sums| == |steps| + 1 && sums[0] == 0
    && forall i :: 0 <= i < |steps| ==>
         sums[i + 1] == sums[i] + if steps[i].milliseconds.Some? then steps[i].milliseconds.value else 0
  }

  lemma {:induction false} TotalWaitAddsUp(steps: seq<Step>, sums: seq<int>)
    requires AddsUp(steps, sums)
    ensures TotalWait(steps) == sums[|steps|]
  {
    if steps != [] {
      var n := |steps| - 1;
      assert forall i :: 0 <= i < n ==> steps[..n][i] == steps[i] && sums[..|steps|][i + 1] == sums[i + 1];
      TotalWaitAddsUp(steps[..n], sums[..|steps|]);
    }
  }

  lemma {:induction false} WaitsAddUp(steps: seq<Step>) returns (sums: seq<int>)
    ensures AddsUp(steps, sums)
  {
    if steps == [] {
      sums := [0];
    } else {
      var n := |steps| - 1;
      var init := WaitsAddUp(steps[..n]);
      sums := init + [init[n] + if steps[n].milliseconds.Some? then steps[n].milliseconds.value else 0];
      assert forall i :: 0 <= i < n ==> steps[..n][i] == steps[i];
    }
  }

  lemma WaitBound(steps: seq<Step>, timeout: int)
    ensures TotalWait(steps) <= timeout <==> exists sums :: AddsUp(steps, sums) && sums[|steps|] <= timeout
  {
    var sums := WaitsAddUp(steps);
    TotalWaitAddsUp(steps, sums);
    if other :| AddsUp(steps, other) && other[|steps|] <= timeout {
      TotalWaitAddsUp(steps, other);
    }
  }

  predicate InSet(j: Json, allowed: set<string>) {
    j.Text? && j.text in allowed
  }

  predicate HeadAcceptable(rules: Rules, j: Json) {
    && IdPattern(IdOf(rules, Field(j, "id")))
    && InSet(Field(j, "category"), ALLOWED_CATEGORIES)
    && InSet(Field(j, "severity"), ALLOWED_SEVERITIES)
    && CleanText(rules, Field(j, "description"), MAX_TEXT_LENGTH).Some?
    && 1000 <= TimeoutOf(Field(j, "timeout")) <= TEST_TIMEOUT
  }

  predicate StepsAcceptable(rules: Rules, j: Json, timeout: int) {
    && 1 <= |Items(j)| <= MAX_ACTIONS_PER_TEST
    && (var steps := Collected(StepVerdicts(rules), Items(j)); steps.Ok? && TotalWait(steps.value) <= timeout)
  }

  predicate ChecksAcceptable(rules: Rules, j: Json) {
    && 1 <= |Items(j)| <= MAX_ASSERTIONS_PER_TEST
    && Collected(CheckVerdicts(rules), Items(j)).Ok?
  }

  /** What a candidate must look like, evidence aside. */
  predicate TestAcceptable(rules: Rules, j: Json) {
    && j.Object? && HeadAcceptable(rules, j)
    && StepsAcceptable(rules, Field(j, "steps"), TimeoutOf(Field(j, "timeout")))
    && ChecksAcceptable(rules, Field(j, "assertions"))
    && forall m :: m in j.members ==> m.key in TEST_KEYS
  }

  function StepsReason(rules: Rules, j: Json): Reason {
    var steps := Collected(StepVerdicts(rules), Items(j));
    if Items(j) == [] then NoSteps
    else if |Items(j)| > MAX_ACTIONS_PER_TEST then TooManySteps
    else if steps.Err? then steps.error
    else WaitExceedsTimeout
  }

  function ChecksReason(rules: Rules, j: Json): Reason {
    var checks := Collected(CheckVerdicts(rules), Items(j));
    if Items(j) == [] then NoAssertions
    else if |Items(j)| > MAX_ASSERTIONS_PER_TEST || checks.Ok? then TooManyAssertions
    else checks.error
  }

  /** The reason given to a candidate: that of the first rule it breaks. */
  function TestReason(rules: Rules, j: Json): Reason
    requires j.Object?
  {
    if !IdPattern(IdOf(rules, Field(j, "id"))) then BadId
    else if !InSet(Field(j, "category"), ALLOWED_CATEGORIES) then UnknownCategory
    else if !InSet(Field(j, "severity"), ALLOWED_SEVERITIES) then UnknownSeverity
    else if CleanText(rules, Field(j, "description"), MAX_TEXT_LENGTH).None? then NoDescription
    else if !(1000 <= TimeoutOf(Field(j, "timeout")) <= TEST_TIMEOUT) then BadTimeout
    else if !StepsAcceptable(rules, Field(j, "steps"), TimeoutOf(Field(j, "timeout"))) then
      StepsReason(rules, Field(j, "steps"))
    else if !ChecksAcceptable(rules, Field(j, "assertions")) then ChecksReason(rules, Field(j, "assertions"))
    else UnsupportedFields(FirstN(ExtraKeys(j.members, TEST_KEYS), 3))
  }

  /** What an accepted candidate becomes. */
  function TestImage(rules: Rules, j: Json, evidence: seq<Ref>): SuggestedTest
    requires TestAcceptable(rules, j)
  {
    SuggestedTest(
      IdOf(rules, Field(j, "id")), NameOf(rules, j), CleanText(rules, Field(j, "description"), MAX_TEXT_LENGTH).value,
      Field(j, "category").text, Field(j, "severity").text, TimeoutOf(Field(j, "timeout")),
      Collected(StepVerdicts(rules), Items(Field(j, "steps"))).value,
      Collected(CheckVerdicts(rules), Items(Field(j, "assertions"))).value,
      RationaleOf(rules, j), evidence)
  }

  /** The verdict on a candidate: accepted when every rule holds, raised when only
      the evidence is malformed, rejected otherwise. */
  function VerdictOn(rules: Rules, index: seq<Ref>, j: Json): Verdict {
    if !j.Object? then Rejected("Unnamed suggestion", NotAnObject)
    else if !TestAcceptable(rules, j) then Rejected(NameOf(rules, j), TestReason(rules, j))
    else
      var evidence := EvidenceField(Field(j, "evidence"), index, "$.tests");
      if evidence.Err? then Raises(evidence.error) else Accepted(TestImage(rules, j, evidence.value))
  }

  method CollectSteps(rules: Rules, items: seq<Json>, ghost spec: Json -> Result<Step, Reason>)
    returns (r: Result<seq<Step>, Reason>)
    requires forall j: Json {:trigger StepVerdict(rules, j)} :: StepVerdict(rules, j) == spec(j)
    ensures r == Collected(spec, items)
  {
    var steps: seq<Step> := [];
    for i := 0 to |items|
      invariant Collected(spec, items[..i]) == Ok(steps)
    {
      var verdict := ValidateStep(rules, items[i]);
      CollectedNext(spec, items, i);
      if verdict.Err? {
        return Err(verdict.error);
      }
      steps := steps + [verdict.value];
    }
    assert items[..|items|] == items;
    r := Ok(steps);
  }

  method CollectChecks(rules: Rules, items: seq<Json>, ghost spec: Json -> Result<Check, Reason>)
    returns (r: Result<seq<Check>, Reason>)
    requires forall j: Json {:trigger CheckVerdict(rules, j)} :: CheckVerdict(rules, j) == spec(j)
    ensures r == Collected(spec, items)
  {
    var checks: seq<Check> := [];
    for i := 0 to |items|
      invariant Collected(spec, items[..i]) == Ok(checks)
    {
      var verdict := ValidateCheck(rules, items[i]);
      CollectedNext(spec, items, i);
      if verdict.Err? {
        return Err(verdict.error);
      }
      checks := checks + [verdict.value];
    }
    assert items[..|items|] == items;
    r := Ok(checks);
  }

  /** A test's steps: how many, each of them, and how long they wait in all. */
  method ValidateSteps(rules: Rules, list: Json, timeout: int) returns (r: Result<seq<Step>, Reason>)
    ensures r.Ok? <==> StepsAcceptable(rules, list, timeout)
    ensures r.Ok? ==> r == Collected(StepVerdicts(rules), Items(list))
    ensures r.Err? ==> r.error == StepsReason(rules, list)
    ensures Collected(StepVerdicts(rules), Items(list)).Ok? && 1 <= |Items(list)| <= MAX_ACTIONS_PER_TEST ==>
              var steps := Collected(StepVerdicts(rules), Items(list)).value;
              forall sums :: AddsUp(steps, sums) ==> (r == Err(WaitExceedsTimeout) <==> sums[|steps|] > timeout)
  {
    if !list.Array? || |list.items| == 0 {
      return Err(NoSteps);
    }
    if |list.items| > MAX_ACTIONS_PER_TEST {
      return Err(TooManySteps);
    }
    r := CollectSteps(rules, list.items, StepVerdicts(rules));
    if r.Ok? {
      forall sums | AddsUp(r.value, sums)
        ensures TotalWait(r.value) == sums[|r.value|]
      {
        TotalWaitAddsUp(r.value, sums);
      }
    }
    if r.Ok? && TotalWait(r.value) > timeout {
      return Err(WaitExceedsTimeout);
    }
  }

  method ValidateChecks(rules: Rules, list: Json) returns (r: Result<seq<Check>, Reason>)
    ensures r.Ok? <==> ChecksAcceptable(rules, list)
    ensures r.Ok? ==> r == Collected(CheckVerdicts(rules), Items(list))
    ensures r.Err? ==> r.error == ChecksReason(rules, list)
  {
    if !list.Array? || |list.items| == 0 {
      return Err(NoAssertions);
    }
    if |list.items| > MAX_ASSERTIONS_PER_TEST {
      return Err(TooManyAssertions);
    }
    r := CollectChecks(rules, list.items, CheckVerdicts(rules));
  }

  method ValidateTest(rules: Rules, index: seq<Ref>, j: Json) returns (verdict: Verdict)
    requires j.Object?
    ensures verdict == VerdictOn(rules, index, j)
  {
    var name := NameOf(rules, j);
    var id := IdOf(rules, Field(j, "id"));
    if !IdPattern(id) {
      return Rejected(name, BadId);
    }
    if !InSet(Field(j, "category"), ALLOWED_CATEGORIES) {
      return Rejected(name, UnknownCategory);
    }
    if !InSet(Field(j, "severity"), ALLOWED_SEVERITIES) {
      return Rejected(name, UnknownSeverity);
    }
    var description := CleanText(rules, Field(j, "description"), MAX_TEXT_LENGTH);
    if description.None? {
      return Rejected(name, NoDescription);
    }
    var rationale := RationaleOf(rules, j);
    var timeout := TimeoutOf(Field(j, "timeout"));
    if timeout < 1000 || timeout > TEST_TIMEOUT {
      return Rejected(name, BadTimeout);
    }
    var steps := ValidateSteps(rules, Field(j, "steps"), timeout);
    if steps.Err? {
      return Rejected(name, steps.error);
    }
    var checks := ValidateChecks(rules, Field(j, "assertions"));
    if checks.Err? {
      return Rejected(name, checks.error);
    }
    var extra := ExtraKeys(j.members, TEST_KEYS);
    NoExtraKeys(j.members, TEST_KEYS);
    if |extra| > 0 {
      return Rejected(name, UnsupportedFields(FirstN(extra, 3)));
    }
    var evidence := ValidateEvidence(Field(j, "evidence"), index, "$.tests");
    if evidence.Err? {
      return Raises(evidence.error);
    }
    verdict := Accepted(SuggestedTest(id, name, description.value, Field(j, "category").text, Field(j, "severity").text,
                                      timeout, steps.value, checks.value, rationale, evidence.value));
  }

  // ---------------------------------------------------------------- what acceptance means

  /** Validation does throw, against its own description: exactly for a candidate
      that meets every rule but whose evidence is present and not a list. */
  lemma RaisesExactly(rules: Rules, index: seq<Ref>, j: Json)
    ensures VerdictOn(rules, index, j).Raises?
       <==> TestAcceptable(rules, j) && !Missing(Field(j, "evidence")) && !Field(j, "evidence").Array?
    ensures VerdictOn(rules, index, j).Accepted?
       <==> TestAcceptable(rules, j) && (Missing(Field(j, "evidence")) || Field(j, "evidence").Array?)
  {
  }

  /** An accepted step is one the test engine may run. */
  predicate SafeStep(rules: Rules, s: Step) {
    && s.kind in ALLOWED_ACTIONS
    && (s.kind in SELECTOR_ACTIONS ==> s.selector.Some?)
    && (s.selector.Some? ==> s.selector.value != "" && rules.allowedSelector(s.selector.value))
    && (s.kind == "type" ==> s.value.Some?)
    && (s.milliseconds.Some? ==> 0 <= s.milliseconds.value <= 5000)
    && (s.kind == "wait" ==> s.milliseconds.Some?)
    && (s.url.Some? <==> s.kind == "open_url")
    && (s.url.Some? ==> s.url.value == DEFAULT_TEST_PAGE_URL || StartsWith(s.url.value, "https://"))
  }

  predicate SafeCheck(rules: Rules, c: Check) {
    && c.kind in ALLOWED_ASSERTIONS
    && (c.selector.Some? ==> c.selector.value != "" && rules.allowedSelector(c.selector.value))
    && (c.kind in SELECTOR_ASSERTIONS && c.kind !in VALUE_ASSERTIONS ==> c.selector.Some?)
    && (c.kind in VALUE_ASSERTIONS ==> c.value.Some?)
    && (c.expectedStatus.Some? ==> 100.0 <= c.expectedStatus.value <= 599.0)
    && (c.kind == "network_status_equals" ==> c.expectedStatus.Some?)
    && (c.message.Some? ==> 0 < |c.message.value| <= MAX_TEXT_LENGTH)
  }

  lemma RoundWithin(x: real)
    requires 0.0 <= x <= MAX_WAIT_MS
    ensures 0 <= Round(x) <= 5000
  {
  }

  lemma StepIsSafe(rules: Rules, j: Json)
    requires StepAcceptable(rules, j)
    ensures SafeStep(rules, StepImage(rules, j))
  {
    if Field(j, "milliseconds").Number? {
      RoundWithin(Field(j, "milliseconds").value);
    }
  }

  lemma CheckIsSafe(rules: Rules, j: Json)
    requires CheckAcceptable(rules, j)
    ensures SafeCheck(rules, CheckImage(rules, j))
  {
  }

  /** A list of steps is taken exactly when each of its steps is acceptable, and
      each then becomes its own image. */
  lemma StepsTakenExactly(rules: Rules, items: seq<Json>)
    ensures Collected(StepVerdicts(rules), items).Ok? <==>
              forall i :: 0 <= i < |items| ==> StepAcceptable(rules, items[i])
    ensures Collected(StepVerdicts(rules), items).Ok? ==>
              |Collected(StepVerdicts(rules), items).value| == |items|
              && forall i :: 0 <= i < |items| ==>
                   Collected(StepVerdicts(rules), items).value[i] == StepImage(rules, items[i])
  {
    CollectedExactly(StepVerdicts(rules), items);
  }

  lemma ChecksTakenExactly(rules: Rules, items: seq<Json>)
    ensures Collected(CheckVerdicts(rules), items).Ok? <==>
              forall i :: 0 <= i < |items| ==> CheckAcceptable(rules, items[i])
    ensures Collected(CheckVerdicts(rules), items).Ok? ==>
              |Collected(CheckVerdicts(rules), items).value| == |items|
              && forall i :: 0 <= i < |items| ==>
                   Collected(CheckVerdicts(rules), items).value[i] == CheckImage(rules, items[i])
  {
    CollectedExactly(CheckVerdicts(rules), items);
  }

  lemma StepsAreSafe(rules: Rules, items: seq<Json>)
    requires Collected(StepVerdicts(rules), items).Ok?
    ensures |Collected(StepVerdicts(rules), items).value| == |items|
    ensures forall s :: s in Collected(StepVerdicts(rules), items).value ==> SafeStep(rules, s)
  {
    CollectedExactly(StepVerdicts(rules), items);
    var steps := Collected(StepVerdicts(rules), items).value;
    forall i | 0 <= i < |items|
      ensures SafeStep(rules, steps[i])
    {
      StepIsSafe(rules, items[i]);
    }
  }

  lemma ChecksAreSafe(rules: Rules, items: seq<Json>)
    requires Collected(CheckVerdicts(rules), items).Ok?
    ensures |Collected(CheckVerdicts(rules), items).value| == |items|
    ensures forall c :: c in Collected(CheckVerdicts(rules), items).value ==> SafeCheck(rules, c)
  {
    CollectedExactly(CheckVerdicts(rules), items);
    var checks := Collected(CheckVerdicts(rules), items).value;
    forall i | 0 <= i < |items|
      ensures SafeCheck(rules, checks[i])
    {
      CheckIsSafe(rules, items[i]);
    }
  }

  /** Within the engine's limits: the waits fit in the timeout, the timeout in the
      engine's, and every step and assertion is one of the engine's own. */
  ghost predicate SafeTest(rules: Rules, t: SuggestedTest) {
    && (exists sums :: AddsUp(t.steps, sums) && sums[|t.steps|] <= t.timeout)
    && 1000 <= t.timeout <= TEST_TIMEOUT
    && 1 <= |t.steps| <= MAX_ACTIONS_PER_TEST && 1 <= |t.assertions| <= MAX_ASSERTIONS_PER_TEST
    && (forall s :: s in t.steps ==> SafeStep(rules, s))
    && (forall c :: c in t.assertions ==> SafeCheck(rules, c))
    && IdPattern(t.id) && t.category in ALLOWED_CATEGORIES && t.severity in ALLOWED_SEVERITIES
    && 0 < |t.description| <= MAX_TEXT_LENGTH
  }

  lemma ImageIsSafe(rules: Rules, j: Json, evidence: seq<Ref>)
    requires TestAcceptable(rules, j)
    ensures SafeTest(rules, TestImage(rules, j, evidence))
  {
    StepsAreSafe(rules, Items(Field(j, "steps")));
    ChecksAreSafe(rules, Items(Field(j, "assertions")));
    WaitBound(Collected(StepVerdicts(rules), Items(Field(j, "steps"))).value, TimeoutOf(Field(j, "timeout")));
  }

  lemma EvidenceIsSafe(value: Json, index: seq<Ref>, path: string)
    requires EvidenceField(value, index, path).Ok?
    ensures var evidence := EvidenceField(value, index, path).value;
            |evidence| <= EVIDENCE && forall r :: r in evidence ==> r in index
  {
    forall r | r in EvidenceField(value, index, path).value
      ensures r in index
    {
      EvidenceFieldCites(value, index, path, r);
    }
  }

  /** Every accepted test stays within the engine's limits and cites the index only,
      at most twelve entries of it. */
  lemma AcceptedIsSafe(rules: Rules, index: seq<Ref>, j: Json)
    requires VerdictOn(rules, index, j).Accepted?
    ensures var t := VerdictOn(rules, index, j).test;
            SafeTest(rules, t) && |t.evidence| <= EVIDENCE && forall r :: r in t.evidence ==> r in index
  {
    var evidence := EvidenceField(Field(j, "evidence"), index, "$.tests");
    EvidenceIsSafe(Field(j, "evidence"), index, "$.tests");
    ImageIsSafe(rules, j, evidence.value);
  }

  /** The validator handed to the schema, bound to one context's index. */
  function Validator(rules: Rules, index: seq<Ref>): Json -> Verdict {
    (j: Json) => VerdictOn(rules, index, j)
  }

  lemma ValidatorCitesIndex(rules: Rules, index: seq<Ref>)
    ensures CitesIndex(Validator(rules, index), index)
  {
    forall j: Json | Validator(rules, index)(j).Accepted?
      ensures forall r :: r in Validator(rules, index)(j).test.evidence ==> r in index
    {
      AcceptedIsSafe(rules, index, j);
    }
  }
}

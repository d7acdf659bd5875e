/** The JSON text a context is sent as, and that the byte measure is its length. */
module ContextText {
  import opened Seqs
  import opened AIContext
  import opened ContextBudget

  /** How a number is printed. */
  type Printer = real -> string

  // ---------------------------------------------------------------- texts

  /** The last two digits of a control character's escape. */
  function Hex(c: char): string
    requires c < ' '
  {
    [if c as int < 16 then '0' else '1', "0123456789abcdef"[c as int % 16]]
  }

  function Escaped(c: char): string {
    if c == '"' then "\\\""
    else if c == '\\' then "\\\\"
    else if c == '\n' then "\\n"
    else if c == '\r' then "\\r"
    else if c == '\t' then "\\t"
    else if c == '\U{08}' then "\\b"
    else if c == '\U{0C}' then "\\f"
    else if c < ' ' then "\\u00" + Hex(c)
    else [c]
  }

  function EscapedAll(s: string): string {
    if s == "" then "" else Escaped(s[0]) + EscapedAll(s[1..])
  }

  function Quoted(s: string): string {
    "\"" + EscapedAll(s) + "\""
  }

  lemma {:induction false} RawAppend(a: string, b: string)
    ensures RawBytes(a + b) == RawBytes(a) + RawBytes(b)
  {
    if a == "" {
      assert a + b == b;
    } else {
      RawAppend(a[1..], b);
      assert (a + b)[1..] == a[1..] + b;
    }
  }

  predicate Ascii(s: string) {
    forall i :: 0 <= i < |s| ==> s[i] < '\U{80}'
  }

  lemma {:induction false} RawAscii(s: string)
    requires Ascii(s)
    ensures RawBytes(s) == |s|
  {
    if s != "" {
      RawAscii(s[1..]);
    }
  }

  lemma EscapedBytes(c: char)
    ensures RawBytes(Escaped(c)) == CharBytes(c)
  {
    if c < ' ' || c == '"' || c == '\\' {
      RawAscii(Escaped(c));
    } else {
      assert Escaped(c) == [c] && [c][1..] == "";
    }
  }

  lemma {:induction false} EscapedAllBytes(s: string)
    ensures RawBytes(EscapedAll(s)) == Chars(s)
  {
    if s != "" {
      EscapedBytes(s[0]);
      EscapedAllBytes(s[1..]);
      RawAppend(Escaped(s[0]), EscapedAll(s[1..]));
    }
  }

  lemma QuotedBytes(s: string)
    ensures RawBytes(Quoted(s)) == StringBytes(s)
  {
    EscapedAllBytes(s);
    RawAscii("\"");
    RawAppend("\"", EscapedAll(s));
    RawAppend("\"" + EscapedAll(s), "\"");
  }

  // ---------------------------------------------------------------- values

  /** The texts that stand unquoted or never change. */
  datatype Word = Static | Diagnostic | True | False | Null | Zero

  /** A value to be printed; the members of an object, the last one outermost. */
  datatype Value =
    | Str(text: string) | Strs(texts: seq<string>) | Fixed(word: Word) | Raw(json: string)
    | List(items: seq<Value>) | Obj(all: Members)
  datatype Members =
    | Nil
    | And(rest: Members, key: string, value: Value)
    | AndOpt(rest: Members, key: string, text: Option<string>)

  function WordText(w: Word): string {
    match w
    case Static => "\"static\""
    case Diagnostic => "\"diagnostic\""
    case True => "true"
    case False => "false"
    case Null => "null"
    case Zero => "0"
  }

  /** `JSON.stringify` */
  function Print(v: Value): string
    decreases v
  {
    match v
    case Str(text) => Quoted(text)
    case Strs(texts) => "[" + PrintTexts(texts) + "]"
    case Fixed(word) => WordText(word)
    case Raw(json) => json
    case List(items) => "[" + PrintItems(items) + "]"
    case Obj(all) => "{" + PrintMembers(all) + "}"
  }

  function PrintItems(items: seq<Value>): string
    decreases items
  {
    if items == [] then ""
    else if |items| == 1 then Print(items[0])
    else Print(items[0]) + "," + PrintItems(items[1..])
  }

  function PrintTexts(texts: seq<string>): string {
    if texts == [] then ""
    else if |texts| == 1 then Quoted(texts[0])
    else Quoted(texts[0]) + "," + PrintTexts(texts[1..])
  }

  /** An undefined member is not printed. */
  function PrintMembers(m: Members): string
    decreases m
  {
    match m
    case Nil => ""
    case And(rest, key, value) => Joined(PrintMembers(rest), "\"" + key + "\":" + Print(value))
    case AndOpt(rest, key, None) => PrintMembers(rest)
    case AndOpt(rest, key, Some(text)) => Joined(PrintMembers(rest), "\"" + key + "\":" + Quoted(text))
  }

  function Joined(a: string, b: string): string {
    if a == "" then b else a + "," + b
  }

  // ---------------------------------------------------------------- their bytes

  function WordBytes(w: Word): nat {
    match w
    case Static => 8
    case Diagnostic => 12
    case True => 4
    case False => 5
    case Null => 4
    case Zero => 1
  }

  function Bytes(v: Value): nat
    decreases v
  {
    match v
    case Str(text) => StringBytes(text)
    case Strs(texts) => ArrayBytes(StringBytes, texts)
    case Fixed(word) => WordBytes(word)
    case Raw(json) => RawBytes(json)
    case List(items) => if items == [] then 2 else 1 + ItemsBytes(items)
    case Obj(all) => if MembersBytes(all) == 0 then 2 else 1 + MembersBytes(all)
  }

  /** The bytes of the items, and a comma or bracket for each. */
  function ItemsBytes(items: seq<Value>): nat
    decreases items
  {
    if items == [] then 0 else Bytes(items[0]) + 1 + ItemsBytes(items[1..])
  }

  /** The bytes of the members, and a comma or brace for each. */
  function MembersBytes(m: Members): nat
    decreases m
  {
    match m
    case Nil => 0
    case And(rest, key, value) => MembersBytes(rest) + Member(key, Bytes(value))
    case AndOpt(rest, key, text) => MembersBytes(rest) + OptText(key, text)
  }

  /** All keys are ASCII. */
  predicate Keyed(v: Value)
    decreases v
  {
    match v
    case List(items) => forall i :: 0 <= i < |items| ==> Keyed(items[i])
    case Obj(all) => KeyedMembers(all)
    case _ => true
  }

  predicate KeyedMembers(m: Members)
    decreases m
  {
    match m
    case Nil => true
    case And(rest, key, value) => KeyedMembers(rest) && Ascii(key) && Keyed(value)
    case AndOpt(rest, key, _) => KeyedMembers(rest) && Ascii(key)
  }

  lemma WordLength(w: Word)
    ensures RawBytes(WordText(w)) == WordBytes(w)
  {
    RawAscii(WordText(w));
  }

  lemma PairLength(key: string, value: string)
    requires Ascii(key)
    ensures RawBytes("\"" + key + "\":" + value) + 1 == Member(key, RawBytes(value))
  {
    RawAscii("\"");
    RawAscii("\":");
    RawAscii(key);
    RawAppend("\"", key);
    RawAppend("\"" + key, "\":");
    RawAppend("\"" + key + "\":", value);
  }

  lemma WrappedLength(open: char, text: string, close: char)
    requires open < '\U{80}' && close < '\U{80}'
    ensures RawBytes([open] + text + [close]) == 2 + RawBytes(text)
  {
    RawAscii([open]);
    RawAscii([close]);
    RawAppend([open], text);
    RawAppend([open] + text, [close]);
  }

  lemma JoinedLength(a: string, b: string)
    ensures RawBytes(a + "," + b) == RawBytes(a) + 1 + RawBytes(b)
    ensures Joined(a, b) == "" ==> a == b == ""
  {
    RawAscii(",");
    RawAppend(a, ",");
    RawAppend(a + ",", b);
  }

  lemma {:induction false} TextsLength(texts: seq<string>)
    requires texts != []
    ensures RawBytes(PrintTexts(texts)) + 1 == Elements(StringBytes, texts)
  {
    QuotedBytes(texts[0]);
    if |texts| == 1 {
      assert Elements(StringBytes, texts[1..]) == 0;
    } else {
      TextsLength(texts[1..]);
      JoinedLength(Quoted(texts[0]), PrintTexts(texts[1..]));
    }
  }

  /** The byte count of a value is the length of its text. */
  lemma {:induction false} PrintLength(v: Value)
    requires Keyed(v)
    ensures RawBytes(Print(v)) == Bytes(v)
    decreases v
  {
    match v
    case Str(text) => QuotedBytes(text);
    case Fixed(word) => WordLength(word);
    case Raw(json) =>
    case Strs(texts) =>
      WrappedLength('[', PrintTexts(texts), ']');
      if texts != [] {
        TextsLength(texts);
      }
    case List(items) =>
      WrappedLength('[', PrintItems(items), ']');
      if items != [] {
        ItemsLength(items);
      }
    case Obj(all) =>
      WrappedLength('{', PrintMembers(all), '}');
      MembersLength(all);
  }

  lemma {:induction false} ItemsLength(items: seq<Value>)
    requires items != [] && forall i :: 0 <= i < |items| ==> Keyed(items[i])
    ensures RawBytes(PrintItems(items)) + 1 == ItemsBytes(items)
    decreases items
  {
    PrintLength(items[0]);
    if |items| == 1 {
      assert ItemsBytes(items[1..]) == 0;
    } else {
      ItemsLength(items[1..]);
      JoinedLength(Print(items[0]), PrintItems(items[1..]));
    }
  }

  lemma {:induction false} MembersLength(m: Members)
    requires KeyedMembers(m)
    ensures if PrintMembers(m) == "" then MembersBytes(m) == 0 else RawBytes(PrintMembers(m)) + 1 == MembersBytes(m)
    decreases m
  {
    match m
    case Nil =>
    case And(rest, key, value) =>
      MembersLength(rest);
      PairLength(key, Print(value));
      PrintLength(value);
      JoinedLength(PrintMembers(rest), "\"" + key + "\":" + Print(value));
    case AndOpt(rest, key, text) =>
      MembersLength(rest);
      if text.Some? {
        PairLength(key, Quoted(text.value));
        QuotedBytes(text.value);
        JoinedLength(PrintMembers(rest), "\"" + key + "\":" + Quoted(text.value));
      }
  }

  /** A list's bytes are those of its elements. */
  lemma {:induction false} ElementsAre<T>(value: T -> Value, size: T -> nat, s: seq<T>)
    requires forall x :: x in s ==> Bytes(value(x)) == size(x)
    ensures ItemsBytes(Map(value, s)) == Elements(size, s)
  {
    if s != [] {
      assert s[0] in s && forall x :: x in s[1..] ==> x in s;
      assert Map(value, s)[1..] == Map(value, s[1..]);
      ElementsAre(value, size, s[1..]);
    }
  }

  lemma ListBytes<T>(value: T -> Value, size: T -> nat, s: seq<T>)
    requires forall x :: x in s ==> Bytes(value(x)) == size(x)
    ensures Bytes(List(Map(value, s))) == ArrayBytes(size, s)
  {
    ElementsAre(value, size, s);
  }

  // ---------------------------------------------------------------- the parts of a context

  function With(m: Members, key: string, value: Value): (r: Members)
    ensures MembersBytes(r) == MembersBytes(m) + Member(key, Bytes(value))
    ensures KeyedMembers(r) <==> KeyedMembers(m) && Ascii(key) && Keyed(value)
  {
    And(m, key, value)
  }

  function WithText(m: Members, key: string, text: string): (r: Members)
    ensures MembersBytes(r) == MembersBytes(m) + TextMember(key, text)
    ensures KeyedMembers(r) <==> KeyedMembers(m) && Ascii(key)
  {
    And(m, key, Str(text))
  }

  function WithOpt(m: Members, key: string, text: Option<string>): (r: Members)
    ensures MembersBytes(r) == MembersBytes(m) + OptText(key, text)
    ensures KeyedMembers(r) <==> KeyedMembers(m) && Ascii(key)
  {
    AndOpt(m, key, text)
  }

  function Truth(b: bool): (r: Value)
    ensures Bytes(r) == BoolBytes(b)
  {
    Fixed(if b then True else False)
  }

  function FindingHead(f: Finding): (r: Members)
    ensures MembersBytes(r)
         == TextMember("id", f.id) + Member("source", if f.source.Static? then 8 else 12)
            + TextMember("severity", f.severity) + TextMember("category", f.category) + TextMember("title", f.title)
    ensures KeyedMembers(r)
  {
    var m := WithText(Nil, "id", f.id);
    var m := With(m, "source", Fixed(if f.source.Static? then Word.Static else Word.Diagnostic));
    var m := WithText(m, "severity", f.severity);
    var m := WithText(m, "category", f.category);
    WithText(m, "title", f.title)
  }

  function FindingTail(m: Members, f: Finding): (r: Members)
    ensures MembersBytes(r)
         == MembersBytes(m) + TextMember("message", f.message) + OptText("recommendation", f.recommendation)
            + (if f.evidence.None? then 0 else Member("evidence", ArrayBytes(StringBytes, f.evidence.value)))
            + OptText("relatedTestId", f.relatedTestId) + OptText("sourceFile", f.sourceFile)
    ensures KeyedMembers(m) ==> KeyedMembers(r)
  {
    var m := WithText(m, "message", f.message);
    var m := WithOpt(m, "recommendation", f.recommendation);
    var m := if f.evidence.None? then m else With(m, "evidence", Strs(f.evidence.value));
    var m := WithOpt(m, "relatedTestId", f.relatedTestId);
    WithOpt(m, "sourceFile", f.sourceFile)
  }

  function FindingValue(f: Finding): (v: Value)
    ensures Bytes(v) == FindingBytes(f)
  {
    Obj(FindingTail(FindingHead(f), f))
  }

  function AssertionMembers(a: Assertion): (r: Members)
    ensures MembersBytes(r)
         == TextMember("type", a.kind) + Member("passed", BoolBytes(a.passed)) + TextMember("message", a.message)
            + OptText("selector", a.selector) + OptText("value", a.value)
    ensures KeyedMembers(r)
  {
    var m := WithText(Nil, "type", a.kind);
    var m := With(m, "passed", Truth(a.passed));
    var m := WithText(m, "message", a.message);
    var m := WithOpt(m, "selector", a.selector);
    WithOpt(m, "value", a.value)
  }

  function AssertionValue(a: Assertion): (v: Value)
    ensures Bytes(v) == AssertionBytes(a)
  {
    Obj(AssertionMembers(a))
  }

  function TestEvidenceMembers(e: TestEvidence): (r: Members)
    ensures MembersBytes(r)
         == TextMember("id", e.id) + TextMember("kind", e.kind) + TextMember("label", e.caption)
            + OptText("detail", e.detail)
    ensures KeyedMembers(r)
  {
    var m := WithText(Nil, "id", e.id);
    var m := WithText(m, "kind", e.kind);
    var m := WithText(m, "label", e.caption);
    WithOpt(m, "detail", e.detail)
  }

  function TestEvidenceValue(e: TestEvidence): (v: Value)
    ensures Bytes(v) == TestEvidenceBytes(e)
  {
    Obj(TestEvidenceMembers(e))
  }

  function TestHead(t: Test): (r: Members)
    ensures MembersBytes(r)
         == TextMember("testId", t.testId) + TextMember("name", t.name) + TextMember("description", t.description)
            + TextMember("category", t.category) + TextMember("status", t.status)
    ensures KeyedMembers(r)
  {
    var m := WithText(Nil, "testId", t.testId);
    var m := WithText(m, "name", t.name);
    var m := WithText(m, "description", t.description);
    var m := WithText(m, "category", t.category);
    WithText(m, "status", t.status)
  }

  function TestMiddle(num: Printer, m: Members, t: Test): (r: Members)
    ensures MembersBytes(r)
         == MembersBytes(m) + Member("durationMs", RawBytes(num(t.durationMs)))
            + Member("steps", ArrayBytes(StringBytes, t.steps))
            + Member("assertions", Bytes(List(Map(AssertionValue, t.assertions))))
            + Member("evidence", Bytes(List(Map(TestEvidenceValue, t.evidence))))
    ensures KeyedMembers(m) && Keyed(List(Map(AssertionValue, t.assertions))) &&
            Keyed(List(Map(TestEvidenceValue, t.evidence))) ==>
              KeyedMembers(r)
  {
    var m := With(m, "durationMs", Raw(num(t.durationMs)));
    var m := With(m, "steps", Strs(t.steps));
    var m := With(m, "assertions", List(Map(AssertionValue, t.assertions)));
    With(m, "evidence", List(Map(TestEvidenceValue, t.evidence)))
  }

  function TestTail(m: Members, t: Test): (r: Members)
    ensures MembersBytes(r)
         == MembersBytes(m) + Member("errors", ArrayBytes(StringBytes, t.errors))
            + Member("warnings", ArrayBytes(StringBytes, t.warnings)) + OptText("skippedReason", t.skippedReason)
    ensures KeyedMembers(m) ==> KeyedMembers(r)
  {
    var m := With(m, "errors", Strs(t.errors));
    var m := With(m, "warnings", Strs(t.warnings));
    WithOpt(m, "skippedReason", t.skippedReason)
  }

  function TestValue(num: Printer, t: Test): Value {
    Obj(TestTail(TestMiddle(num, TestHead(t), t), t))
  }

  /** The printer's texts are as long as the host says. */
  ghost predicate Prints(h: Host, num: Printer) {
    forall x :: RawBytes(num(x)) == h.numberBytes(x)
  }

  lemma TestLength(h: Host, num: Printer, t: Test)
    requires Prints(h, num)
    ensures Bytes(TestValue(num, t)) == TestBytes(h, t)
  {
    ListBytes(AssertionValue, AssertionBytes, t.assertions);
    ListBytes(TestEvidenceValue, TestEvidenceBytes, t.evidence);
    assert RawBytes(num(t.durationMs)) == h.numberBytes(t.durationMs);
  }

  function EventMembers(num: Printer, e: RuntimeEvent): (r: Members)
    ensures MembersBytes(r)
         == TextMember("id", e.id) + Member("timestamp", RawBytes(num(e.timestamp))) + TextMember("type", e.kind)
            + OptText("level", e.level) + OptText("source", e.source) + TextMember("message", e.message)
    ensures KeyedMembers(r)
  {
    var m := WithText(Nil, "id", e.id);
    var m := With(m, "timestamp", Raw(num(e.timestamp)));
    var m := WithText(m, "type", e.kind);
    var m := WithOpt(m, "level", e.level);
    var m := WithOpt(m, "source", e.source);
    WithText(m, "message", e.message)
  }

  function EventValue(num: Printer, e: RuntimeEvent): Value {
    Obj(EventMembers(num, e))
  }

  lemma EventLength(h: Host, num: Printer, e: RuntimeEvent)
    requires Prints(h, num)
    ensures Bytes(EventValue(num, e)) == EventBytes(h, e)
  {
    assert RawBytes(num(e.timestamp)) == h.numberBytes(e.timestamp);
  }

  function NumberOrNull(num: Printer, x: Option<real>): Value {
    if x.None? then Fixed(Null) else Raw(num(x.value))
  }

  lemma NumberLength(h: Host, num: Printer, x: Option<real>)
    requires Prints(h, num)
    ensures Bytes(NumberOrNull(num, x)) == NullableNumber(h, x)
  {
    if x.Some? {
      var y := x.value;
      assert RawBytes(num(y)) == h.numberBytes(y);
    }
  }

  function TextOrNull(s: Option<string>): (v: Value)
    ensures Bytes(v) == NullableText(s)
  {
    if s.None? then Fixed(Null) else Str(s.value)
  }

  function RequestMembers(num: Printer, q: Request): (r: Members)
    ensures MembersBytes(r)
         == TextMember("id", q.id) + TextMember("method", q.verb) + TextMember("url", q.url)
            + Member("status", Bytes(NumberOrNull(num, q.status))) + OptText("resourceType", q.resourceType)
    ensures Keyed(NumberOrNull(num, q.status)) ==> KeyedMembers(r)
  {
    var m := WithText(Nil, "id", q.id);
    var m := WithText(m, "method", q.verb);
    var m := WithText(m, "url", q.url);
    var m := With(m, "status", NumberOrNull(num, q.status));
    WithOpt(m, "resourceType", q.resourceType)
  }

  function RequestValue(num: Printer, r: Request): Value {
    Obj(RequestMembers(num, r))
  }

  lemma RequestLength(h: Host, num: Printer, r: Request)
    requires Prints(h, num)
    ensures Bytes(RequestValue(num, r)) == RequestBytes(h, r)
  {
    NumberLength(h, num, r.status);
  }

  function PermissionMembers(p: Permission): (r: Members)
    ensures MembersBytes(r)
         == TextMember("name", p.name) + TextMember("kind", p.kind) + Member("broad", BoolBytes(p.broad))
            + OptText("reason", p.reason)
    ensures KeyedMembers(r)
  {
    var m := WithText(Nil, "name", p.name);
    var m := WithText(m, "kind", p.kind);
    var m := With(m, "broad", Truth(p.broad));
    WithOpt(m, "reason", p.reason)
  }

  function PermissionValue(p: Permission): (v: Value)
    ensures Bytes(v) == PermissionBytes(p)
  {
    Obj(PermissionMembers(p))
  }

  function ExtensionHead(x: Extension): (r: Members)
    ensures MembersBytes(r)
         == Member("name", Bytes(TextOrNull(x.name))) + Member("version", Bytes(TextOrNull(x.version)))
            + Member("manifestVersion", Bytes(TextOrNull(x.manifestVersion)))
    ensures Keyed(TextOrNull(x.name)) && Keyed(TextOrNull(x.version)) && Keyed(TextOrNull(x.manifestVersion)) ==>
              KeyedMembers(r)
  {
    var m := With(Nil, "name", TextOrNull(x.name));
    var m := With(m, "version", TextOrNull(x.version));
    With(m, "manifestVersion", TextOrNull(x.manifestVersion))
  }

  function ExtensionTail(num: Printer, m: Members, x: Extension): (r: Members)
    ensures MembersBytes(r)
         == MembersBytes(m) + Member("permissions", Bytes(List(Map(PermissionValue, x.permissions))))
            + Member("features", ArrayBytes(StringBytes, x.features))
            + Member("fileCount", Bytes(NumberOrNull(num, x.fileCount)))
            + Member("files", ArrayBytes(StringBytes, x.files))
    ensures KeyedMembers(m) && Keyed(List(Map(PermissionValue, x.permissions))) &&
            Keyed(NumberOrNull(num, x.fileCount)) ==>
              KeyedMembers(r)
  {
    var m := With(m, "permissions", List(Map(PermissionValue, x.permissions)));
    var m := With(m, "features", Strs(x.features));
    var m := With(m, "fileCount", NumberOrNull(num, x.fileCount));
    With(m, "files", Strs(x.files))
  }

  function ExtensionValue(num: Printer, x: Extension): Value {
    Obj(ExtensionTail(num, ExtensionHead(x), x))
  }

  lemma ExtensionLength(h: Host, num: Printer, x: Extension)
    requires Prints(h, num)
    ensures Bytes(ExtensionValue(num, x)) == ExtensionBytes(h, x)
  {
    ListBytes(PermissionValue, PermissionBytes, x.permissions);
    NumberLength(h, num, x.fileCount);
  }

  function FocusMembers(f: Focus): (r: Members)
    ensures MembersBytes(r)
         == OptText("findingId", f.findingId) + OptText("testId", f.testId) + OptText("question", f.question)
    ensures KeyedMembers(r)
  {
    var m := WithOpt(Nil, "findingId", f.findingId);
    var m := WithOpt(m, "testId", f.testId);
    WithOpt(m, "question", f.question)
  }

  function FocusValue(f: Focus): (v: Value)
    ensures Bytes(v) == FocusBytes(f)
  {
    Obj(FocusMembers(f))
  }

  function RefMembers(ref: Ref): (r: Members)
    ensures MembersBytes(r)
         == TextMember("kind", ref.kind) + TextMember("id", ref.id) + TextMember("label", ref.caption)
    ensures KeyedMembers(r)
  {
    var m := WithText(Nil, "kind", ref.kind);
    var m := WithText(m, "id", ref.id);
    WithText(m, "label", ref.caption)
  }

  function RefValue(r: Ref): (v: Value)
    ensures Bytes(v) == RefBytes(r)
  {
    Obj(RefMembers(r))
  }

  // ---------------------------------------------------------------- the whole context

  function TestValues(num: Printer): Test -> Value {
    (t: Test) => TestValue(num, t)
  }

  function EventValues(num: Printer): RuntimeEvent -> Value {
    (e: RuntimeEvent) => EventValue(num, e)
  }

  function RequestValues(num: Printer): Request -> Value {
    (r: Request) => RequestValue(num, r)
  }

  function ResourceMembers(c: Context): (r: Members)
    ensures MembersBytes(r)
         == TextMember("kind", c.resourceKind) + TextMember("id", c.resourceId)
    ensures KeyedMembers(r)
  {
    var m := WithText(Nil, "kind", c.resourceKind);
    WithText(m, "id", c.resourceId)
  }

  function ContextHead(resource: Value, extension: Value, scores: string): (r: Members)
    ensures MembersBytes(r)
         == Member("resource", Bytes(resource)) + Member("extension", Bytes(extension))
            + Member("scores", RawBytes(scores))
    ensures Keyed(resource) && Keyed(extension) ==> KeyedMembers(r)
  {
    var m := With(Nil, "resource", resource);
    var m := With(m, "extension", extension);
    With(m, "scores", Raw(scores))
  }

  function ContextMiddle(m: Members, findings: Value, tests: Value, run: string, events: Value, network: Value)
    : (r: Members)
    ensures MembersBytes(r)
         == MembersBytes(m) + Member("findings", Bytes(findings)) + Member("tests", Bytes(tests))
            + Member("run", RawBytes(run)) + Member("events", Bytes(events)) + Member("network", Bytes(network))
    ensures KeyedMembers(m) && Keyed(findings) && Keyed(tests) && Keyed(events) && Keyed(network) ==>
              KeyedMembers(r)
  {
    var m := With(m, "findings", findings);
    var m := With(m, "tests", tests);
    var m := With(m, "run", Raw(run));
    var m := With(m, "events", events);
    With(m, "network", network)
  }

  function ContextTail(m: Members, focus: Value, refs: Value, truncated: bool): (r: Members)
    ensures MembersBytes(r)
         == MembersBytes(m) + Member("focus", Bytes(focus)) + Member("evidenceIndex", Bytes(refs))
            + Member("bytes", Bytes(Fixed(Zero))) + Member("truncated", BoolBytes(truncated))
    ensures KeyedMembers(m) && Keyed(focus) && Keyed(refs) && Keyed(Fixed(Zero)) ==> KeyedMembers(r)
  {
    var m := With(m, "focus", focus);
    var m := With(m, "evidenceIndex", refs);
    var m := With(m, "bytes", Fixed(Zero));
    With(m, "truncated", Truth(truncated))
  }

  function HeadOf(num: Printer, c: Context): Members {
    ContextHead(Obj(ResourceMembers(c)), ExtensionValue(num, c.extension), c.scores)
  }

  function MiddleOf(num: Printer, m: Members, c: Context): Members {
    ContextMiddle(m, List(Map(FindingValue, c.findings)), List(Map(TestValues(num), c.tests)), c.run,
                  List(Map(EventValues(num), c.events)), List(Map(RequestValues(num), c.network)))
  }

  function TailOf(m: Members, c: Context): Members {
    ContextTail(m, FocusValue(c.focus), List(Map(RefValue, c.evidenceIndex)), c.truncated)
  }

  /** The context as it is sent, with its own byte count as zero. */
  function ContextValue(num: Printer, c: Context): Value {
    Obj(TailOf(MiddleOf(num, HeadOf(num, c), c), c))
  }

  lemma ListsLength(h: Host, num: Printer, c: Context)
    requires Prints(h, num)
    ensures Bytes(List(Map(FindingValue, c.findings))) == ArrayBytes(FindingBytes, c.findings)
    ensures Bytes(List(Map(TestValues(num), c.tests))) == ArrayBytes(TestSize(h), c.tests)
    ensures Bytes(List(Map(EventValues(num), c.events))) == ArrayBytes(EventSize(h), c.events)
    ensures Bytes(List(Map(RequestValues(num), c.network))) == ArrayBytes(RequestSize(h), c.network)
    ensures Bytes(List(Map(RefValue, c.evidenceIndex))) == ArrayBytes(RefBytes, c.evidenceIndex)
  {
    ListBytes(FindingValue, FindingBytes, c.findings);
    forall t: Test
      ensures Bytes(TestValues(num)(t)) == TestSize(h)(t)
    {
      TestLength(h, num, t);
    }
    ListBytes(TestValues(num), TestSize(h), c.tests);
    forall e: RuntimeEvent
      ensures Bytes(EventValues(num)(e)) == EventSize(h)(e)
    {
      EventLength(h, num, e);
    }
    ListBytes(EventValues(num), EventSize(h), c.events);
    forall r: Request
      ensures Bytes(RequestValues(num)(r)) == RequestSize(h)(r)
    {
      RequestLength(h, num, r);
    }
    ListBytes(RequestValues(num), RequestSize(h), c.network);
    ListBytes(RefValue, RefBytes, c.evidenceIndex);
  }

  function HeadBytes(h: Host, c: Context): nat {
    Member("resource", 1 + TextMember("kind", c.resourceKind) + TextMember("id", c.resourceId))
    + Member("extension", ExtensionBytes(h, c.extension)) + Member("scores", RawBytes(c.scores))
  }

  function MiddleBytes(h: Host, c: Context): nat {
    Member("findings", ArrayBytes(FindingBytes, c.findings)) + Member("tests", ArrayBytes(TestSize(h), c.tests))
    + Member("run", RawBytes(c.run)) + Member("events", ArrayBytes(EventSize(h), c.events))
    + Member("network", ArrayBytes(RequestSize(h), c.network))
  }

  function TailBytes(c: Context): nat {
    Member("focus", FocusBytes(c.focus)) + Member("evidenceIndex", ArrayBytes(RefBytes, c.evidenceIndex))
    + Member("bytes", 1) + Member("truncated", BoolBytes(c.truncated))
  }

  lemma HeadLength(h: Host, num: Printer, c: Context)
    requires Prints(h, num)
    ensures MembersBytes(HeadOf(num, c)) == HeadBytes(h, c)
  {
    ExtensionLength(h, num, c.extension);
  }

  lemma MiddleLength(h: Host, num: Printer, m: Members, c: Context)
    requires Prints(h, num)
    ensures MembersBytes(MiddleOf(num, m, c)) == MembersBytes(m) + MiddleBytes(h, c)
  {
    ListsLength(h, num, c);
  }

  lemma TailLength(m: Members, c: Context)
    ensures MembersBytes(TailOf(m, c)) == MembersBytes(m) + TailBytes(c)
  {
    ListBytes(RefValue, RefBytes, c.evidenceIndex);
    assert Bytes(FocusValue(c.focus)) == FocusBytes(c.focus);
  }

  lemma MeasureSplits(h: Host, c: Context)
    ensures Measure(h, c) == 1 + HeadBytes(h, c) + MiddleBytes(h, c) + TailBytes(c)
  {
  }

  lemma PartsLength(head: Members, middle: Members, tail: Members, a: nat, b: nat, c: nat)
    requires MembersBytes(head) == a > 0 && MembersBytes(middle) == MembersBytes(head) + b
    requires MembersBytes(tail) == MembersBytes(middle) + c
    ensures Bytes(Obj(tail)) == 1 + a + b + c
  {
  }

  lemma ContextLength(h: Host, num: Printer, c: Context)
    requires Prints(h, num)
    ensures Bytes(ContextValue(num, c)) == Measure(h, c)
  {
    var head := HeadOf(num, c);
    var middle := MiddleOf(num, head, c);
    HeadLength(h, num, c);
    MiddleLength(h, num, head, c);
    TailLength(middle, c);
    MeasureSplits(h, c);
    PartsLength(head, middle, TailOf(middle, c), HeadBytes(h, c), MiddleBytes(h, c), TailBytes(c));
  }

  // ---------------------------------------------------------------- the keys

  lemma FindingKeyed(f: Finding)
    ensures Keyed(FindingValue(f))
  {
  }

  lemma TestKeyed(num: Printer, t: Test)
    ensures Keyed(TestValue(num, t))
  {
    forall i | 0 <= i < |t.assertions|
      ensures Keyed(Map(AssertionValue, t.assertions)[i])
    {
      AssertionKeyed(t.assertions[i]);
    }
    forall i | 0 <= i < |t.evidence|
      ensures Keyed(Map(TestEvidenceValue, t.evidence)[i])
    {
      TestEvidenceKeyed(t.evidence[i]);
    }
  }

  lemma AssertionKeyed(a: Assertion)
    ensures Keyed(AssertionValue(a))
  {
  }

  lemma TestEvidenceKeyed(e: TestEvidence)
    ensures Keyed(TestEvidenceValue(e))
  {
  }

  lemma EventKeyed(num: Printer, e: RuntimeEvent)
    ensures Keyed(EventValue(num, e))
  {
  }

  lemma RequestKeyed(num: Printer, r: Request)
    ensures Keyed(RequestValue(num, r))
  {
  }

  lemma PermissionKeyed(p: Permission)
    ensures Keyed(PermissionValue(p))
  {
  }

  lemma RefKeyed(r: Ref)
    ensures Keyed(RefValue(r))
  {
  }

  lemma ExtensionKeyed(num: Printer, x: Extension)
    ensures Keyed(ExtensionValue(num, x))
  {
    forall i | 0 <= i < |x.permissions|
      ensures Keyed(Map(PermissionValue, x.permissions)[i])
    {
      PermissionKeyed(x.permissions[i]);
    }
  }

  lemma ContextKeyed(num: Printer, c: Context)
    ensures Keyed(ContextValue(num, c))
  {
    ExtensionKeyed(num, c.extension);
    ListsKeyed(num, c);
  }

  lemma ListsKeyed(num: Printer, c: Context)
    ensures Keyed(List(Map(FindingValue, c.findings))) && Keyed(List(Map(TestValues(num), c.tests)))
    ensures Keyed(List(Map(EventValues(num), c.events))) && Keyed(List(Map(RequestValues(num), c.network)))
    ensures Keyed(List(Map(RefValue, c.evidenceIndex)))
  {
    forall i | 0 <= i < |c.findings|
      ensures Keyed(Map(FindingValue, c.findings)[i])
    {
      FindingKeyed(c.findings[i]);
    }
    forall i | 0 <= i < |c.tests|
      ensures Keyed(Map(TestValues(num), c.tests)[i])
    {
      TestKeyed(num, c.tests[i]);
    }
    forall i | 0 <= i < |c.events|
      ensures Keyed(Map(EventValues(num), c.events)[i])
    {
      EventKeyed(num, c.events[i]);
    }
    forall i | 0 <= i < |c.network|
      ensures Keyed(Map(RequestValues(num), c.network)[i])
    {
      RequestKeyed(num, c.network[i]);
    }
    forall i | 0 <= i < |c.evidenceIndex|
      ensures Keyed(Map(RefValue, c.evidenceIndex)[i])
    {
      RefKeyed(c.evidenceIndex[i]);
    }
  }

  /** The measure is the number of UTF-8 bytes of the context's JSON text. */
  lemma MeasureIsLength(h: Host, num: Printer, c: Context)
    requires Prints(h, num)
    ensures RawBytes(Print(ContextValue(num, c))) == Measure(h, c)
  {
    ContextKeyed(num, c);
    PrintLength(ContextValue(num, c));
    ContextLength(h, num, c);
  }
}

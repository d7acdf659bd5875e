/** The line parser of the configuration checker, and the flat configurations it
    reads back. */
module SimpleYaml {
  import opened Seqs
  import opened JsText

  datatype JsNumber = Finite(value: real) | PlusInfinity | MinusInfinity

  datatype Value = Flag(flag: bool) | Num(number: JsNumber) | Str(text: string) | List(items: seq<string>)

  /** `Number(text)`, unless it is NaN. */
  type ToNumber = string -> Option<JsNumber>

  /** `open` says that `currentArr` is set; the array is then the one stored under
      `key`. */
  datatype State = State(obj: map<string, Value>, open: bool, key: string)

  /** An unset key is written as the property "null". */
  const INITIAL := State(map[], false, "null")

  // ---------------------------------------------------------------- lines

  /** `text.split(/\r?\n/)` */
  function Lines(text: string): seq<string> {
    DropReturns(SplitOn(text, '\n'))
  }

  function DropReturns(parts: seq<string>): seq<string> {
    if |parts| <= 1 then parts
    else
      var first := parts[0];
      [if first != "" && first[|first| - 1] == '\r' then first[..|first| - 1] else first] + DropReturns(parts[1..])
  }

  /** `lines.indexOf(line)`, or the number of lines. */
  function FirstIndex(lines: seq<string>, line: string): (i: nat)
    ensures i <= |lines|
    ensures i < |lines| ==> lines[i] == line
    ensures forall j :: 0 <= j < i ==> lines[j] != line
  {
    if lines == [] || lines[0] == line then 0 else 1 + FirstIndex(lines[1..], line)
  }

  /** A line with text that is not a list item. */
  predicate Plain(line: string) {
    Trim(line) != "" && !StartsWith(Trim(line), "-")
  }

  function LastPlain(lines: seq<string>): Option<string> {
    if lines == [] then None
    else if Plain(lines[|lines| - 1]) then Some(lines[|lines| - 1])
    else LastPlain(lines[..|lines| - 1])
  }

  predicate EndsLine(c: char) {
    c in {'\n', '\r', '\U{2028}', '\U{2029}'}
  }

  /** `s.replace(/:.*$/, "")` */
  function CutAtColon(s: string): string {
    if s == "" then ""
    else if s[0] == ':' && (forall c :: c in s ==> !EndsLine(c)) then ""
    else [s[0]] + CutAtColon(s[1..])
  }

  predicate IsQuote(c: char) {
    c == '"' || c == '\''
  }

  /** `s.replace(/^["']|["']$/g, "")` */
  function StripQuotes(s: string): string {
    var tail := if s != "" && IsQuote(s[0]) then s[1..] else s;
    if tail != "" && IsQuote(tail[|tail| - 1]) then tail[..|tail| - 1] else tail
  }

  function ReadScalar(toNumber: ToNumber, text: string): Value {
    if text == "true" then Flag(true)
    else if text == "false" then Flag(false)
    else if text == "[]" then List([])
    else
      var number := toNumber(text);
      if number.Some? then Num(number.value) else Str(StripQuotes(text))
  }

  // ---------------------------------------------------------------- the parser

  predicate IsItem(line: string) {
    StartsWith(Trim(line), "- ") && |line| - |TrimStart(line)| <= 2
  }

  lemma PlainBeforePrefix(lines: seq<string>, i: nat)
    requires i < |lines|
    ensures PlainBefore(lines, lines[i]) == PlainBefore(lines[..i], lines[i])
  {
    FirstIndexPrefix(lines, i);
    var first := FirstIndex(lines, lines[i]);
    assert lines[..first] == lines[..i][..first];
  }

  /** The last plain line before the first line equal to `raw`. */
  function PlainBefore(lines: seq<string>, raw: string): Option<string> {
    LastPlain(lines[..FirstIndex(lines, raw)])
  }

  /** The key a list starting with the line `raw` is stored under: that of the last
      plain line before the first line equal to `raw`. */
  function Owner(before: seq<string>, raw: string, current: string): string {
    var prev := PlainBefore(before, raw);
    if prev.Some? then CutAtColon(Trim(prev.value)) else current
  }

  function Push(st: State, item: string): State {
    var items := if st.key in st.obj && st.obj[st.key].List? then st.obj[st.key].items else [];
    st.(obj := st.obj[st.key := List(items + [item])])
  }

  /** One line, after the lines `before`. */
  function Step(toNumber: ToNumber, before: seq<string>, st: State, raw: string): State {
    var line := Before(raw, '#');
    var trimmed := Trim(line);
    if trimmed == "" then st
    else if IsItem(line) then
      var owner := if st.open then st.key else Owner(before, raw, st.key);
      var started := if st.open then st else State(st.obj[owner := List([])], true, owner);
      Push(started, Trim(trimmed[2..]))
    else
      var colon := IndexOf(trimmed, ':');
      if colon < 0 then st
      else
        var key, val := Trim(trimmed[..colon]), Trim(trimmed[colon + 1..]);
        if val == "" then State(st.obj, false, key)
        else State(st.obj[key := ReadScalar(toNumber, val)], false, st.key)
  }

  function After(toNumber: ToNumber, lines: seq<string>): State
    decreases |lines|
  {
    if lines == [] then INITIAL
    else
      var before := lines[..|lines| - 1];
      Step(toNumber, before, After(toNumber, before), lines[|lines| - 1])
  }

  function Parse(toNumber: ToNumber, text: string): map<string, Value> {
    After(toNumber, Lines(text)).obj
  }

  lemma {:induction false} FirstIndexPrefix(lines: seq<string>, i: nat)
    requires i < |lines|
    ensures FirstIndex(lines, lines[i]) == FirstIndex(lines[..i], lines[i]) <= i
  {
    var at, before := FirstIndex(lines, lines[i]), FirstIndex(lines[..i], lines[i]);
    assert at <= i;
    assert forall k :: 0 <= k < i ==> lines[..i][k] == lines[k];
  }

  method ParseSimpleYaml(toNumber: ToNumber, text: string) returns (obj: map<string, Value>)
    ensures obj == Parse(toNumber, text)
  {
    var lines := Lines(text);
    obj := map[];
    var open, currentKey := false, "null";
    for i := 0 to |lines|
      invariant After(toNumber, lines[..i]) == State(obj, open, currentKey)
      invariant open ==> currentKey in obj && obj[currentKey].List?
    {
      var rawLine := lines[i];
      ghost var st := State(obj, open, currentKey);
      assert lines[..i + 1][..i] == lines[..i];
      assert After(toNumber, lines[..i + 1]) == Step(toNumber, lines[..i], st, rawLine);
      var line := Before(rawLine, '#');
      var trimmed := Trim(line);
      if trimmed == "" {
        continue;
      }
      if IsItem(line) {
        if !open {
          PlainBeforePrefix(lines, i);
          var prev := LastPlain(lines[..FirstIndex(lines, rawLine)]);
          if prev.Some? {
            currentKey := CutAtColon(Trim(prev.value));
          }
          open := true;
          obj := obj[currentKey := List([])];
        }
        obj := obj[currentKey := List(obj[currentKey].items + [Trim(trimmed[2..])])];
      } else {
        var colon := IndexOf(trimmed, ':');
        if colon >= 0 {
          var key, val := Trim(trimmed[..colon]), Trim(trimmed[colon + 1..]);
          if val == "" {
            currentKey := key;
          } else {
            obj := obj[key := ReadScalar(toNumber, val)];
          }
          open := false;
        }
      }
    }
    assert lines[..|lines|] == lines;
  }

  // ---------------------------------------------------------------- flat configurations

  datatype Entry = Scalar(key: string, text: string) | Items(key: string, items: seq<string>)

  /** One line of text, trimmed, without a comment sign. */
  predicate Clean(s: string) {
    Trimmed(s) && '#' !in s && '\n' !in s
  }

  predicate GoodKey(key: string) {
    Clean(key) && ':' !in key && key[0] != '-'
  }

  predicate GoodEntry(e: Entry) {
    && GoodKey(e.key)
    && (e.Scalar? ==> Clean(e.text))
    && (e.Items? ==> e.items != [] && forall item :: item in e.items ==> Clean(item))
  }

  ghost predicate Flat(cfg: seq<Entry>) {
    && (forall e :: e in cfg ==> GoodEntry(e))
    && (forall i, j :: 0 <= i < j < |cfg| ==> cfg[i].key != cfg[j].key)
  }

  function ItemLine(item: string): string {
    "  - " + item
  }

  function EntryLines(e: Entry): seq<string> {
    match e
    case Scalar(key, text) => [key + ": " + text]
    case Items(key, items) => [key + ":"] + Map(ItemLine, items)
  }

  function ConfigLines(cfg: seq<Entry>): seq<string>
    decreases |cfg|
  {
    if cfg == [] then [] else ConfigLines(cfg[..|cfg| - 1]) + EntryLines(cfg[|cfg| - 1])
  }

  function Print(cfg: seq<Entry>): string {
    JoinWith(ConfigLines(cfg), '\n')
  }

  function ValueOf(toNumber: ToNumber, e: Entry): Value {
    match e
    case Scalar(_, text) => ReadScalar(toNumber, text)
    case Items(_, items) => List(items)
  }

  /** What a configuration says. */
  function Meaning(toNumber: ToNumber, cfg: seq<Entry>): map<string, Value>
    decreases |cfg|
  {
    if cfg == [] then map[]
    else
      var last := cfg[|cfg| - 1];
      Meaning(toNumber, cfg[..|cfg| - 1])[last.key := ValueOf(toNumber, last)]
  }

  /** The key of the first list that has the item. */
  function FirstListWith(cfg: seq<Entry>, item: string): Option<string> {
    if cfg == [] then None
    else if cfg[0].Items? && item in cfg[0].items then Some(cfg[0].key)
    else FirstListWith(cfg[1..], item)
  }

  /** Where an entry's value goes: a list goes to the first list that has its first
      item. */
  function Target(before: seq<Entry>, e: Entry): string
    requires e.Items? ==> e.items != []
  {
    if e.Items? && FirstListWith(before, e.items[0]).Some? then FirstListWith(before, e.items[0]).value else e.key
  }

  /** What the parser makes of a printed configuration. */
  ghost function Stored(toNumber: ToNumber, cfg: seq<Entry>): map<string, Value>
    requires Flat(cfg)
    decreases |cfg|
  {
    if cfg == [] then map[]
    else
      var before, last := cfg[..|cfg| - 1], cfg[|cfg| - 1];
      assert last in cfg && forall e :: e in before ==> e in cfg;
      Stored(toNumber, before)[Target(before, last) := ValueOf(toNumber, last)]
  }

  /** No list starts with an item that an earlier list has. */
  ghost predicate FreshStarts(cfg: seq<Entry>) {
    forall i, j :: 0 <= i < j < |cfg| && cfg[i].Items? && cfg[j].Items? && cfg[j].items != [] ==>
      cfg[j].items[0] !in cfg[i].items
  }

  // ---------------------------------------------------------------- reading printed lines

  lemma NoHashKept(s: string)
    requires '#' !in s
    ensures Before(s, '#') == s
  {
  }

  lemma ColonAt(key: string, rest: string)
    requires ':' !in key
    ensures IndexOf(key + ":" + rest, ':') == |key|
  {
    var s := key + ":" + rest;
    var i := IndexOf(s, ':');
    assert s[|key|] == ':';
    assert forall j :: 0 <= j < |key| ==> s[j] == key[j] && key[j] in key;
    assert forall j :: 0 <= j < i ==> s[..i][j] == s[j] && s[..i][j] in s[..i];
  }

  /** A line that reads `key: val` and is no item. */
  predicate KeyLine(raw: string, key: string, val: string) {
    && Before(raw, '#') == raw && Trim(raw) == raw != "" && !IsItem(raw) && IndexOf(raw, ':') == |key| < |raw|
    && Trim(raw[..|key|]) == key && Trim(raw[|key| + 1..]) == val
  }

  lemma KeyLineStep(toNumber: ToNumber, before: seq<string>, st: State, raw: string, key: string, val: string)
    requires KeyLine(raw, key, val)
    ensures Step(toNumber, before, st, raw)
         == if val == "" then State(st.obj, false, key)
           else State(st.obj[key := ReadScalar(toNumber, val)], false, st.key)
  {
  }

  lemma ScalarStep(toNumber: ToNumber, before: seq<string>, st: State, key: string, text: string)
    requires GoodKey(key) && Clean(text)
    ensures Step(toNumber, before, st, key + ": " + text)
              == State(st.obj[key := ReadScalar(toNumber, text)], false, st.key)
  {
    var raw := key + ": " + text;
    assert raw == key + ":" + (" " + text);
    assert raw[0] == key[0] && raw[|raw| - 1] == text[|text| - 1];
    NoHashKept(raw);
    TrimmedUnchanged(raw);
    TrimmedUnchanged(key);
    ColonAt(key, " " + text);
    assert raw[..|key|] == key && raw[|key| + 1..] == " " + text;
    TrimPadded(text);
    assert KeyLine(raw, key, text);
    KeyLineStep(toNumber, before, st, raw, key, text);
  }

  lemma HeaderStep(toNumber: ToNumber, before: seq<string>, st: State, key: string)
    requires GoodKey(key)
    ensures Step(toNumber, before, st, key + ":") == State(st.obj, false, key)
  {
    var raw := key + ":";
    assert raw == key + ":" + "";
    NoHashKept(raw);
    TrimmedUnchanged(raw);
    TrimmedUnchanged(key);
    ColonAt(key, "");
    assert raw[..|key|] == key && raw[|key| + 1..] == "";
    assert KeyLine(raw, key, "");
    KeyLineStep(toNumber, before, st, raw, key, "");
  }

  lemma ItemLineTrims(item: string)
    requires Trimmed(item)
    ensures Trim(ItemLine(item)) == "- " + item && TrimStart(ItemLine(item)) == "- " + item
  {
    var raw, shown := ItemLine(item), "- " + item;
    assert raw[1..] == " - " + item && raw[1..][1..] == shown;
    assert shown[0] == '-' && shown[|shown| - 1] == item[|item| - 1];
    TrimmedUnchanged(shown);
    assert TrimStart(raw) == TrimStart(raw[1..]) == TrimStart(raw[1..][1..]);
  }

  lemma ItemStep(toNumber: ToNumber, before: seq<string>, st: State, item: string)
    requires Clean(item)
    ensures var raw := ItemLine(item);
            var owner := if st.open then st.key else Owner(before, raw, st.key);
            var started := if st.open then st else State(st.obj[owner := List([])], true, owner);
            Step(toNumber, before, st, raw) == Push(started, item)
  {
    var raw := ItemLine(item);
    NoHashKept(raw);
    ItemLineTrims(item);
    assert (" " + item)[..] == " " + item;
    assert ("- " + item)[2..] == item;
    assert ("- " + item)[..2] == "- ";
    TrimmedUnchanged(item);
  }

  lemma PushMore(obj: map<string, Value>, owner: string, items: seq<string>, item: string)
    ensures Push(State(obj[owner := List(items)], true, owner), item)
              == State(obj[owner := List(items + [item])], true, owner)
  {
  }

  /** The first item after a header opens the list. */
  lemma FirstItem(toNumber: ToNumber, lines: seq<string>, key: string, item: string)
    requires GoodKey(key) && Clean(item)
    ensures var head := lines + [key + ":"];
            var owner := Owner(head, ItemLine(item), key);
            After(toNumber, head + [ItemLine(item)])
              == State(After(toNumber, lines).obj[owner := List([item])], true, owner)
  {
    var head, raw := lines + [key + ":"], ItemLine(item);
    var obj := After(toNumber, lines).obj;
    assert head[..|head| - 1] == lines;
    HeaderStep(toNumber, lines, After(toNumber, lines), key);
    assert After(toNumber, head) == State(obj, false, key);
    var all := head + [raw];
    assert all[..|all| - 1] == head;
    ItemStep(toNumber, head, State(obj, false, key), item);
    PushMore(obj, Owner(head, raw, key), [], item);
    assert [] + [item] == [item];
  }

  lemma NextItem(toNumber: ToNumber, lines: seq<string>, obj: map<string, Value>, owner: string, items: seq<string>,
                 item: string)
    requires Clean(item) && After(toNumber, lines) == State(obj[owner := List(items)], true, owner)
    ensures After(toNumber, lines + [ItemLine(item)]) == State(obj[owner := List(items + [item])], true, owner)
  {
    var all := lines + [ItemLine(item)];
    assert all[..|all| - 1] == lines;
    ItemStep(toNumber, lines, After(toNumber, lines), item);
    PushMore(obj, owner, items, item);
  }

  /** A header and its items store the items under the first item's owner. */
  lemma {:induction false} AfterItems(toNumber: ToNumber, lines: seq<string>, key: string, items: seq<string>)
    requires GoodKey(key) && items != [] && forall item :: item in items ==> Clean(item)
    ensures var head := lines + [key + ":"];
            var owner := Owner(head, ItemLine(items[0]), key);
            After(toNumber, head + Map(ItemLine, items))
              == State(After(toNumber, lines).obj[owner := List(items)], true, owner)
    decreases |items|
  {
    var head := lines + [key + ":"];
    var init, last := items[..|items| - 1], items[|items| - 1];
    assert last in items && init + [last] == items;
    assert head + Map(ItemLine, items) == head + Map(ItemLine, init) + [ItemLine(last)];
    if init == [] {
      assert head + Map(ItemLine, init) == head && items == [last];
      FirstItem(toNumber, lines, key, last);
    } else {
      AfterItems(toNumber, lines, key, init);
      var owner := Owner(head, ItemLine(items[0]), key);
      NextItem(toNumber, head + Map(ItemLine, init), After(toNumber, lines).obj, owner, init, last);
    }
  }

  // ---------------------------------------------------------------- owners

  lemma {:induction false} LastPlainSkips(lines: seq<string>, items: seq<string>)
    requires forall item :: item in items ==> Clean(item)
    ensures LastPlain(lines + Map(ItemLine, items)) == LastPlain(lines)
    decreases |items|
  {
    var all := lines + Map(ItemLine, items);
    if items == [] {
      assert all == lines;
    } else {
      var init, last := items[..|items| - 1], items[|items| - 1];
      assert all[..|all| - 1] == lines + Map(ItemLine, init);
      assert last in items;
      ItemLineTrims(last);
      LastPlainSkips(lines, init);
    }
  }

  lemma HeaderIsPlain(key: string)
    requires GoodKey(key)
    ensures Plain(key + ":") && CutAtColon(Trim(key + ":")) == key
    ensures forall item :: ItemLine(item) != key + ":"
  {
    TrimmedUnchanged(key + ":");
    CutKey(key);
    assert (key + ":")[0] == key[0];
    assert forall item :: ItemLine(item)[0] == ' ';
  }

  lemma {:induction false} CutKey(key: string)
    requires ':' !in key
    ensures CutAtColon(key + ":") == key
  {
    var s := key + ":";
    if key == "" {
      assert s == ":";
    } else {
      assert s[1..] == key[1..] + ":";
      CutKey(key[1..]);
      assert [key[0]] + key[1..] == key;
    }
  }

  lemma ItemLineInjective(a: string, b: string)
    ensures ItemLine(a) == ItemLine(b) <==> a == b
  {
    assert ItemLine(a)[4..] == a && ItemLine(b)[4..] == b;
  }

  lemma FirstIndexAppend(a: seq<string>, b: seq<string>, line: string)
    ensures line in a ==> FirstIndex(a + b, line) == FirstIndex(a, line)
    ensures line !in a ==> FirstIndex(a + b, line) == |a| + FirstIndex(b, line)
  {
    var i, j, k := FirstIndex(a + b, line), FirstIndex(a, line), FirstIndex(b, line);
    assert forall n :: 0 <= n < |a| ==> (a + b)[n] == a[n];
    assert forall n :: 0 <= n < |b| ==> (a + b)[|a| + n] == b[n];
    assert forall n :: |a| <= n < |a| + |b| ==> (a + b)[n] == b[n - |a|];
  }

  lemma ItemIn(items: seq<string>, item: string)
    ensures ItemLine(item) in Map(ItemLine, items) <==> item in items
  {
    var lines := Map(ItemLine, items);
    if item in items {
      var k :| 0 <= k < |items| && items[k] == item;
      assert lines[k] == ItemLine(item);
    }
    if ItemLine(item) in lines {
      var k :| 0 <= k < |lines| && lines[k] == ItemLine(item);
      ItemLineInjective(items[k], item);
    }
  }

  lemma HeaderAndItems(key: string, items: seq<string>, item: string)
    requires GoodKey(key) && forall i :: i in items ==> Clean(i)
    ensures var lines, raw := [key + ":"] + Map(ItemLine, items), ItemLine(item);
            (raw in lines <==> item in items) && (raw in lines ==> PlainBefore(lines, raw) == Some(key + ":"))
  {
    var head, rest, raw := [key + ":"], Map(ItemLine, items), ItemLine(item);
    HeaderIsPlain(key);
    ItemIn(items, item);
    FirstIndexAppend(head, rest, raw);
    if raw in rest {
      var at := FirstIndex(rest, raw);
      assert (head + rest)[..1 + at] == head + Map(ItemLine, items[..at]);
      LastPlainSkips(head, items[..at]);
    }
  }

  lemma EntryLineOf(e: Entry, item: string)
    requires GoodEntry(e)
    ensures ItemLine(item) in EntryLines(e) <==> e.Items? && item in e.items
    ensures ItemLine(item) in EntryLines(e) ==> PlainBefore(EntryLines(e), ItemLine(item)) == Some(e.key + ":")
  {
    match e
    case Scalar(key, text) =>
      assert EntryLines(e)[0][0] == key[0] && ItemLine(item)[0] == ' ';
    case Items(key, items) =>
      HeaderAndItems(key, items, item);
  }

  lemma PlainBeforeAppend(a: seq<string>, b: seq<string>, raw: string)
    ensures raw in a ==> PlainBefore(a + b, raw) == PlainBefore(a, raw)
    ensures raw !in a && PlainBefore(b, raw).Some? ==> PlainBefore(a + b, raw) == PlainBefore(b, raw)
  {
    FirstIndexAppend(a, b, raw);
    if raw in a {
      assert (a + b)[..FirstIndex(a, raw)] == a[..FirstIndex(a, raw)];
    } else if PlainBefore(b, raw).Some? {
      var at := FirstIndex(b, raw);
      assert (a + b)[..|a| + at] == a + b[..at];
      LastPlainAppend(a, b[..at]);
    }
  }

  lemma {:induction false} LastPlainAppend(a: seq<string>, b: seq<string>)
    requires LastPlain(b).Some?
    ensures LastPlain(a + b) == LastPlain(b)
    decreases |b|
  {
    var all := a + b;
    if !Plain(b[|b| - 1]) {
      assert all[..|all| - 1] == a + b[..|b| - 1];
      LastPlainAppend(a, b[..|b| - 1]);
    }
  }

  lemma {:induction false} FirstListAppend(cfg: seq<Entry>, e: Entry, item: string)
    ensures FirstListWith(cfg + [e], item)
         == if FirstListWith(cfg, item).Some? then FirstListWith(cfg, item)
            else if e.Items? && item in e.items then Some(e.key) else None
  {
    if cfg == [] {
      assert cfg + [e] == [e];
    } else {
      FirstListAppend(cfg[1..], e, item);
      assert (cfg + [e])[1..] == cfg[1..] + [e];
    }
  }

  lemma FlatPrefix(cfg: seq<Entry>)
    requires Flat(cfg) && cfg != []
    ensures Flat(cfg[..|cfg| - 1]) && GoodEntry(cfg[|cfg| - 1])
  {
    assert cfg[|cfg| - 1] in cfg;
    assert forall e :: e in cfg[..|cfg| - 1] ==> e in cfg;
  }

  /** The line of an item occurs exactly when some list has the item, and the last
      plain line before its first occurrence is the header of the first such list. */
  lemma {:induction false} OwnerIsFirstList(cfg: seq<Entry>, item: string)
    requires Flat(cfg)
    ensures ItemLine(item) in ConfigLines(cfg) <==> FirstListWith(cfg, item).Some?
    ensures ItemLine(item) in ConfigLines(cfg) ==>
              PlainBefore(ConfigLines(cfg), ItemLine(item)) == Some(FirstListWith(cfg, item).value + ":")
    decreases |cfg|
  {
    if cfg != [] {
      var init, last := cfg[..|cfg| - 1], cfg[|cfg| - 1];
      var a, b, raw := ConfigLines(init), EntryLines(last), ItemLine(item);
      FlatPrefix(cfg);
      assert cfg == init + [last];
      OwnerIsFirstList(init, item);
      EntryLineOf(last, item);
      FirstListAppend(init, last, item);
      PlainBeforeAppend(a, b, raw);
    }
  }

  lemma {:induction false} FirstListKey(cfg: seq<Entry>, item: string)
    requires FirstListWith(cfg, item).Some?
    ensures exists i :: 0 <= i < |cfg| && cfg[i].Items? && item in cfg[i].items
              && cfg[i].key == FirstListWith(cfg, item).value
  {
    if !(cfg[0].Items? && item in cfg[0].items) {
      FirstListKey(cfg[1..], item);
      var i :| 0 <= i < |cfg[1..]| && cfg[1..][i].Items? && item in cfg[1..][i].items
        && cfg[1..][i].key == FirstListWith(cfg, item).value;
      assert cfg[i + 1] == cfg[1..][i];
    }
  }

  /** The first item line of a list names the list's target. */
  lemma OwnerIsTarget(cfg: seq<Entry>, key: string, item: string)
    requires Flat(cfg) && GoodKey(key) && Clean(item)
    ensures Owner(ConfigLines(cfg) + [key + ":"], ItemLine(item), key)
         == if FirstListWith(cfg, item).Some? then FirstListWith(cfg, item).value else key
  {
    var lines, raw := ConfigLines(cfg), ItemLine(item);
    var head := lines + [key + ":"];
    OwnerIsFirstList(cfg, item);
    HeaderIsPlain(key);
    FirstIndexAppend(lines, [key + ":"], raw);
    if raw in lines {
      assert head[..FirstIndex(lines, raw)] == lines[..FirstIndex(lines, raw)];
      FirstListKey(cfg, item);
      var i :| 0 <= i < |cfg| && cfg[i].key == FirstListWith(cfg, item).value;
      assert cfg[i] in cfg;
      HeaderIsPlain(cfg[i].key);
    } else {
      assert FirstIndex([key + ":"], raw) == 1;
      assert head[..|head|] == head;
      assert LastPlain(head) == Some(key + ":");
    }
  }

  /** Reading the printed lines stores every value at its target. */
  lemma {:induction false} AfterConfig(toNumber: ToNumber, cfg: seq<Entry>)
    requires Flat(cfg)
    ensures After(toNumber, ConfigLines(cfg)).obj == Stored(toNumber, cfg)
    decreases |cfg|
  {
    if cfg != [] {
      var init, last := cfg[..|cfg| - 1], cfg[|cfg| - 1];
      var lines := ConfigLines(init);
      FlatPrefix(cfg);
      AfterConfig(toNumber, init);
      match last
      case Scalar(key, text) =>
        var all := lines + [key + ": " + text];
        assert all[..|all| - 1] == lines;
        ScalarStep(toNumber, lines, After(toNumber, lines), key, text);
      case Items(key, items) =>
        assert items[0] in items;
        assert lines + EntryLines(last) == lines + [key + ":"] + Map(ItemLine, items);
        AfterItems(toNumber, lines, key, items);
        OwnerIsTarget(init, key, items[0]);
    }
  }

  // ---------------------------------------------------------------- the text

  predicate LineOk(line: string) {
    line != "" && '\n' !in line && line[|line| - 1] != '\r'
  }

  lemma ItemLineOk(item: string)
    requires Clean(item)
    ensures LineOk(ItemLine(item))
  {
    var line := ItemLine(item);
    assert line[|line| - 1] == item[|item| - 1];
  }

  lemma EntryLinesOk(e: Entry, line: string)
    requires GoodEntry(e) && line in EntryLines(e)
    ensures LineOk(line)
  {
    match e
    case Scalar(key, text) =>
      assert line[|line| - 1] == text[|text| - 1];
    case Items(key, items) =>
      if line == key + ":" {
        assert line[|line| - 1] == ':';
      } else {
        MapMember(ItemLine, items, line);
        var item :| item in items && line == ItemLine(item);
        ItemLineOk(item);
      }
  }

  lemma {:induction false} ConfigLinesOk(cfg: seq<Entry>, line: string)
    requires Flat(cfg) && line in ConfigLines(cfg)
    ensures LineOk(line)
    decreases |cfg|
  {
    FlatPrefix(cfg);
    if line in EntryLines(cfg[|cfg| - 1]) {
      EntryLinesOk(cfg[|cfg| - 1], line);
    } else {
      ConfigLinesOk(cfg[..|cfg| - 1], line);
    }
  }

  lemma {:induction false} NoReturns(parts: seq<string>)
    requires forall p :: p in parts ==> LineOk(p)
    ensures DropReturns(parts) == parts
  {
    if |parts| > 1 {
      assert parts[0] in parts;
      NoReturns(parts[1..]);
    }
  }

  lemma PrintedLines(cfg: seq<Entry>)
    requires Flat(cfg) && cfg != []
    ensures Lines(Print(cfg)) == ConfigLines(cfg)
  {
    var lines := ConfigLines(cfg);
    assert |EntryLines(cfg[|cfg| - 1])| > 0;
    forall line | line in lines
      ensures LineOk(line)
    {
      ConfigLinesOk(cfg, line);
    }
    SplitJoin(lines, '\n');
    NoReturns(lines);
  }

  lemma ParsePrinted(toNumber: ToNumber, cfg: seq<Entry>)
    requires Flat(cfg)
    ensures Parse(toNumber, Print(cfg)) == Stored(toNumber, cfg)
  {
    if cfg == [] {
      var lines := Lines(Print(cfg));
      assert lines == [""] && lines[..0] == [];
      assert After(toNumber, lines) == Step(toNumber, [], INITIAL, "");
      assert Before("", '#') == "" && Trim("") == "";
    } else {
      PrintedLines(cfg);
      AfterConfig(toNumber, cfg);
    }
  }

  // ---------------------------------------------------------------- the round trip

  lemma {:induction false} MeaningKeys(toNumber: ToNumber, cfg: seq<Entry>, key: string)
    ensures key in Meaning(toNumber, cfg) <==> exists i :: 0 <= i < |cfg| && cfg[i].key == key
    decreases |cfg|
  {
    if cfg != [] {
      MeaningKeys(toNumber, cfg[..|cfg| - 1], key);
      if i :| 0 <= i < |cfg| - 1 && cfg[i].key == key {
        assert cfg[..|cfg| - 1][i].key == key;
      }
    }
  }

  lemma {:induction false} StoredKeys(toNumber: ToNumber, cfg: seq<Entry>, key: string)
    requires Flat(cfg) && key in Stored(toNumber, cfg)
    ensures exists i :: 0 <= i < |cfg| && cfg[i].key == key
    decreases |cfg|
  {
    var init, last := cfg[..|cfg| - 1], cfg[|cfg| - 1];
    FlatPrefix(cfg);
    if key in Stored(toNumber, init) {
      StoredKeys(toNumber, init, key);
      var i :| 0 <= i < |init| && init[i].key == key;
      assert cfg[i].key == key;
    } else if key != last.key {
      FirstListKey(init, last.items[0]);
      var i :| 0 <= i < |init| && init[i].key == key;
      assert cfg[i].key == key;
    }
  }

  /** The last entry starts with an item no earlier list has. */
  ghost predicate FreshLast(cfg: seq<Entry>)
    requires cfg != []
  {
    var last := cfg[|cfg| - 1];
    last.Items? && last.items != [] ==> FirstListWith(cfg[..|cfg| - 1], last.items[0]).None?
  }

  lemma {:induction false} NoListMeansNone(cfg: seq<Entry>, item: string)
    ensures FirstListWith(cfg, item).None? <==> forall i :: 0 <= i < |cfg| && cfg[i].Items? ==> item !in cfg[i].items
  {
    if cfg != [] {
      NoListMeansNone(cfg[1..], item);
      assert forall i :: 0 <= i < |cfg| - 1 ==> cfg[1..][i] == cfg[i + 1];
      assert forall i :: 1 <= i < |cfg| ==> cfg[i] == cfg[1..][i - 1];
    }
  }

  lemma FreshStartsSplit(cfg: seq<Entry>)
    requires cfg != []
    ensures FreshStarts(cfg) <==> FreshStarts(cfg[..|cfg| - 1]) && FreshLast(cfg)
  {
    var init, last := cfg[..|cfg| - 1], cfg[|cfg| - 1];
    assert forall i :: 0 <= i < |init| ==> init[i] == cfg[i];
    if last.Items? && last.items != [] {
      NoListMeansNone(init, last.items[0]);
    }
  }

  lemma {:induction false} StoredMeans(toNumber: ToNumber, cfg: seq<Entry>)
    requires Flat(cfg)
    ensures Stored(toNumber, cfg) == Meaning(toNumber, cfg) <==> FreshStarts(cfg)
    decreases |cfg|
  {
    if cfg != [] {
      var init, last := cfg[..|cfg| - 1], cfg[|cfg| - 1];
      FlatPrefix(cfg);
      StoredMeans(toNumber, init);
      FreshStartsSplit(cfg);
      assert forall i :: 0 <= i < |init| ==> init[i] == cfg[i] && init[i].key != last.key;
      var before, meant := Stored(toNumber, init), Meaning(toNumber, init);
      if last.key in before {
        StoredKeys(toNumber, init, last.key);
      }
      MeaningKeys(toNumber, init, last.key);
      if FreshLast(cfg) {
        assert Target(init, last) == last.key;
        assert before[last.key := ValueOf(toNumber, last)] - {last.key} == before;
        assert meant[last.key := ValueOf(toNumber, last)] - {last.key} == meant;
      } else {
        FirstListKey(init, last.items[0]);
        assert last.key !in Stored(toNumber, cfg);
      }
    }
  }

  /** The parser reads a printed flat configuration back exactly when no list starts
      with an item that an earlier list has: such a list is stored under the earlier
      list's key. */
  lemma RoundTripsExactly(toNumber: ToNumber, cfg: seq<Entry>)
    requires Flat(cfg)
    ensures Parse(toNumber, Print(cfg)) == Meaning(toNumber, cfg) <==> FreshStarts(cfg)
  {
    ParsePrinted(toNumber, cfg);
    StoredMeans(toNumber, cfg);
  }

  /** A list that starts with an item of an earlier list takes that list's place, and
      its own key is lost. */
  lemma DisplacedList(toNumber: ToNumber, first: Entry, second: Entry)
    requires Flat([first, second]) && first.Items? && second.Items?
    requires second.items != [] && second.items[0] in first.items
    ensures Parse(toNumber, Print([first, second])) == map[first.key := List(second.items)]
  {
    var cfg := [first, second];
    ParsePrinted(toNumber, cfg);
    FlatPrefix(cfg);
    assert cfg[..1] == [first] && [first][..0] == [];
    assert Stored(toNumber, [first]) == map[first.key := List(first.items)];
    assert FirstListWith([first], second.items[0]) == Some(first.key);
  }

  /** So it goes for two lists that both start with the item "a". */
  lemma SecondListDisplaced(toNumber: ToNumber)
    ensures var cfg := [Items("tests", ["a"]), Items("browsers", ["a", "b"])];
            Flat(cfg) && Parse(toNumber, Print(cfg)) == map["tests" := List(["a", "b"])]
  {
    var first, second := Items("tests", ["a"]), Items("browsers", ["a", "b"]);
    assert first.key[0] != second.key[0];
    assert GoodEntry(first);
    assert GoodEntry(second);
    DisplacedList(toNumber, first, second);
  }
}

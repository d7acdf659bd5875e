/** The parts a configuration line is read by, said outright. */
module YamlParts {
  import opened Seqs
  import opened JsText
  import opened SimpleYaml
  import opened TextLaws

  // ---------------------------------------------------------------- values

  predicate AQuote(c: char) {
    c == '"' || c == '\''
  }

  /** `out` is `s` without a quote in front and a quote at the end; a single quote is one
      in front. */
  ghost predicate Unquoted(s: string, out: string) {
    exists front, back ::
      && s == front + out + back
      && (if s != "" && AQuote(s[0]) then front == s[..1] else front == "")
      && (if |s| > |front| && AQuote(s[|s| - 1]) then back == s[|s| - 1..] else back == "")
  }

  lemma StripQuotesExactly(s: string)
    ensures Unquoted(s, StripQuotes(s))
    ensures forall out :: Unquoted(s, out) ==> out == StripQuotes(s)
  {
    var out := StripQuotes(s);
    var front := if s != "" && AQuote(s[0]) then s[..1] else "";
    var back := if |s| > |front| && AQuote(s[|s| - 1]) then s[|s| - 1..] else "";
    assert s[|front|..|s| - |back|] == out;
    assert s == front + out + back;
    forall other | Unquoted(s, other)
      ensures other == out
    {
      assert front + other + back == s;
      assert (front + other + back)[|front|..|s| - |back|] == other;
    }
  }

  /** A scalar is a truth value, the empty list, what `Number` makes of it, or the text
      without its quotes, whichever comes first. */
  lemma ScalarExactly(toNumber: ToNumber, text: string, value: Value)
    ensures value == ReadScalar(toNumber, text)
       <==> match text
            case "true" => value == Flag(true)
            case "false" => value == Flag(false)
            case "[]" => value == List([])
            case _ =>
              match toNumber(text)
              case Some(number) => value == Num(number)
              case None => value.Str? && Unquoted(text, value.text)
  {
    StripQuotesExactly(text);
  }

  // ---------------------------------------------------------------- lines

  /** The lines with what ends them: a line feed, or a return and a line feed. */
  function Ended(lines: seq<string>, crs: seq<bool>): string
    requires |lines| == |crs| + 1
  {
    if crs == [] then lines[0]
    else lines[0] + ((if crs[0] then "\r\n" else "\n") + Ended(lines[1..], crs[1..]))
  }

  predicate EndsInReturn(s: string) {
    s != "" && s[|s| - 1] == '\r'
  }

  lemma EndedNext(line: string, lines: seq<string>, cr: bool, crs: seq<bool>)
    requires |lines| == |crs| + 1
    ensures Ended([line] + lines, [cr] + crs) == line + ((if cr then "\r\n" else "\n") + Ended(lines, crs))
  {
    assert ([line] + lines)[1..] == lines && ([cr] + crs)[1..] == crs;
  }

  lemma ReturnKept(first: string, text: string)
    ensures var cut := if EndsInReturn(first) then first[..|first| - 1] else first;
            cut + ((if EndsInReturn(first) then "\r\n" else "\n") + text) == first + "\n" + text
  {
    if EndsInReturn(first) {
      var cut := first[..|first| - 1];
      assert first == cut + "\r" && "\r\n" == "\r" + "\n";
      assert cut + ("\r" + "\n" + text) == cut + "\r" + "\n" + text;
    }
  }

  function Returns(parts: seq<string>): seq<bool>
    requires parts != []
  {
    seq(|parts| - 1, i requires 0 <= i < |parts| - 1 => EndsInReturn(parts[i]))
  }

  lemma {:induction false} DroppedAt(parts: seq<string>, i: nat)
    requires i < |parts|
    ensures |DropReturns(parts)| == |parts|
    ensures parts[i] == DropReturns(parts)[i] + if i < |parts| - 1 && EndsInReturn(parts[i]) then "\r" else ""
  {
    if |parts| > 1 {
      DroppedAt(parts[1..], if i > 0 then i - 1 else 0);
    }
  }

  lemma {:induction false} DroppedJoins(parts: seq<string>)
    requires parts != []
    ensures |DropReturns(parts)| == |parts| && Ended(DropReturns(parts), Returns(parts)) == JoinWith(parts, '\n')
  {
    if |parts| > 1 {
      var first, tail := parts[0], DropReturns(parts[1..]);
      DroppedJoins(parts[1..]);
      var cut := if EndsInReturn(first) then first[..|first| - 1] else first;
      assert DropReturns(parts) == [cut] + tail;
      assert Returns(parts) == [EndsInReturn(first)] + Returns(parts[1..]);
      EndedNext(cut, tail, EndsInReturn(first), Returns(parts[1..]));
      ReturnKept(first, JoinWith(parts[1..], '\n'));
    }
  }

  /** The lines of a text are what stands between its line ends, a return before a line
      feed belonging to the end. */
  lemma LinesEndWhereSaid(text: string) returns (crs: seq<bool>)
    ensures var lines := Lines(text);
            && |lines| == |crs| + 1 && Ended(lines, crs) == text
            && (forall line :: line in lines ==> '\n' !in line)
            && forall i :: 0 <= i < |crs| && !crs[i] ==> !EndsInReturn(lines[i])
  {
    JoinSplit(text, '\n');
    var parts := SplitOn(text, '\n');
    crs := Returns(parts);
    DroppedJoins(parts);
    forall i | 0 <= i < |parts|
      ensures '\n' !in Lines(text)[i] && (i < |crs| && !crs[i] ==> !EndsInReturn(Lines(text)[i]))
    {
      DroppedAt(parts, i);
      assert parts[i] in parts;
    }
  }

  // ---------------------------------------------------------------- items and headers

  /** The first solid character of a line is at `k`. */
  predicate StartsAt(line: string, k: nat) {
    k < |line| && !IsSpace(line[k]) && forall i :: 0 <= i < k ==> IsSpace(line[i])
  }

  lemma TrimStartsAt(line: string) returns (k: nat)
    ensures k <= |line| && |line| - |TrimStart(line)| == k
    ensures if Trim(line) == "" then Blank(line) else StartsAt(line, k) && Trim(line) <= line[k..]
    ensures Trim(line) != "" ==> !IsSpace(Trim(line)[|Trim(line)| - 1]) && Blank(line[k + |Trim(line)|..])
  {
    k := StartTrimmed(line);
    var n := EndTrimmed(line[k..]);
    assert Trim(line) == line[k..][..n];
    assert forall i :: 0 <= i < k ==> line[i] in line[..k];
    assert line[k..][n..] == line[k + n..];
    if n == 0 {
      assert k == |line|;
      assert line[..k] == line;
    }
  }

  lemma OneStart(line: string, i: nat, k: nat)
    requires StartsAt(line, i) && StartsAt(line, k)
    ensures i == k
  {
  }

  /** A dash and a blank at `k`, indented by at most two, and something after. */
  predicate ItemAt(line: string, k: nat) {
    && k <= 2 && StartsAt(line, k) && |line| >= k + 2 && line[k] == '-' && line[k + 1] == ' '
    && exists j :: k + 2 <= j < |line| && !IsSpace(line[j])
  }

  lemma ItemIsAt(line: string, k: nat)
    requires k <= |line| && |line| - |TrimStart(line)| == k && Trim(line) != "" && StartsAt(line, k)
    requires Trim(line) <= line[k..] && !IsSpace(Trim(line)[|Trim(line)| - 1])
    requires Blank(line[k + |Trim(line)|..])
    ensures IsItem(line) <==> ItemAt(line, k)
  {
    var trimmed := Trim(line);
    assert forall i :: 0 <= i < |trimmed| ==> trimmed[i] == line[k..][i] == line[k + i];
    assert forall j :: k + |trimmed| <= j < |line| ==> line[j] in line[k + |trimmed|..];
    if |trimmed| > 2 {
      assert line[k + |trimmed| - 1] == trimmed[|trimmed| - 1];
    }
  }

  /** What an item line is. */
  lemma ItemExactly(line: string)
    ensures IsItem(line) <==> exists k: nat :: ItemAt(line, k)
  {
    var k := TrimStartsAt(line);
    if Trim(line) != "" {
      ItemIsAt(line, k);
    }
    assert forall i :: 0 <= i < |line| ==> line[i] in line;
    if i: nat :| ItemAt(line, i) {
      OneStart(line, i, k);
    }
  }

  /** A plain line: its first solid character is no dash. */
  lemma PlainExactly(line: string)
    ensures Plain(line) <==> exists k: nat :: StartsAt(line, k) && line[k] != '-'
  {
    var k := TrimStartsAt(line);
    assert forall i :: 0 <= i < |line| ==> line[i] in line;
    if i: nat :| StartsAt(line, i) && line[i] != '-' {
      OneStart(line, i, k);
    }
  }

  lemma {:induction false} LastPlainIs(lines: seq<string>, i: nat)
    requires i < |lines| && Plain(lines[i]) && forall j :: i < j < |lines| ==> !Plain(lines[j])
    ensures LastPlain(lines) == Some(lines[i])
    decreases |lines|
  {
    if i < |lines| - 1 {
      LastPlainIs(lines[..|lines| - 1], i);
    }
  }

  predicate LineEnd(c: char) {
    c == '\n' || c == '\r' || c == '\U{2028}' || c == '\U{2029}'
  }

  /** A colon that nothing but the rest of its line follows. */
  predicate Cuts(s: string, k: nat) {
    k < |s| && s[k] == ':' && forall j :: k <= j < |s| ==> !LineEnd(s[j])
  }

  lemma NoLineEnd(s: string)
    ensures (forall c :: c in s ==> !EndsLine(c)) <==> (forall j :: 0 <= j < |s| ==> !LineEnd(s[j]))
  {
    if forall c :: c in s ==> !EndsLine(c) {
      forall j | 0 <= j < |s|
        ensures !LineEnd(s[j])
      {
        assert s[j] in s;
      }
    }
    if forall j :: 0 <= j < |s| ==> !LineEnd(s[j]) {
      forall c | c in s
        ensures !EndsLine(c)
      {
        var j :| 0 <= j < |s| && s[j] == c;
      }
    }
  }

  /** A header is cut at its first such colon. */
  lemma {:induction false} CutAtColonExactly(s: string, k: nat)
    requires k <= |s| && (k < |s| ==> Cuts(s, k)) && forall j :: 0 <= j < k ==> !Cuts(s, j)
    ensures CutAtColon(s) == s[..k]
  {
    if s != "" {
      NoLineEnd(s);
      if k == 0 {
        assert Cuts(s, 0);
      } else {
        assert !Cuts(s, 0);
        forall j | 0 <= j < |s[1..]|
          ensures Cuts(s[1..], j) <==> Cuts(s, j + 1)
        {
          assert forall i :: j <= i < |s[1..]| ==> s[1..][i] == s[i + 1];
          assert forall i :: j + 1 <= i < |s| ==> s[i] == s[1..][i - 1];
        }
        CutAtColonExactly(s[1..], k - 1);
        assert s[..k] == [s[0]] + s[1..][..k - 1];
      }
    }
  }
}

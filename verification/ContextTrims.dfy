/** What each of the eight trims does to every item of a context. */
module ContextTrims {
  import opened Seqs
  import opened AIContext
  import opened ContextBudget
  import opened ContextBuild
  import opened ContextShapes

  // ---------------------------------------------------------------- focused items

  predicate FocusFinding(c: Context, f: Finding) {
    c.focus.findingId == Some(f.id)
  }

  predicate FocusTest(c: Context, t: Test) {
    c.focus.testId == Some(t.testId)
  }

  function InFocusFinding(c: Context): Finding -> bool {
    (f: Finding) => FocusFinding(c, f)
  }

  function InFocusTest(c: Context): Test -> bool {
    (t: Test) => FocusTest(c, t)
  }

  // ---------------------------------------------------------------- selections

  /** The first `n` elements, and the later ones with `p`. */
  function Leading<T>(s: seq<T>, n: nat, p: T -> bool): seq<T> {
    FirstN(s, n) + Filter(s[|FirstN(s, n)|..], p)
  }

  lemma {:induction false} KeepFirstIsLeading<T>(s: seq<T>, keep: T -> bool, i: nat, n: nat)
    ensures KeepFirst(s, keep, i, n) == Leading(s, if i <= n then n - i else 0, keep)
    decreases |s|
  {
    var m := if i <= n then n - i else 0;
    if s != [] {
      KeepFirstIsLeading(s[1..], keep, i + 1, n);
      if i < n {
        assert FirstN(s, m) == [s[0]] + FirstN(s[1..], m - 1);
        assert s[|FirstN(s, m)|..] == s[1..][|FirstN(s[1..], m - 1)|..];
      } else {
        assert FirstN(s, 0) == [] && s[0..] == s && s[1..][0..] == s[1..];
      }
    }
  }

  /** An element of `s` is kept exactly when it has `p` or stands before position `n`;
      the others go, and the order stays. */
  lemma {:induction false} LeadingMember<T>(s: seq<T>, n: nat, p: T -> bool, x: T)
    ensures x in Leading(s, n, p) <==> exists i :: 0 <= i < |s| && s[i] == x && (i < n || p(x))
  {
    var first := FirstN(s, n);
    FilterMember(s[|first|..], p, x);
    if i :| 0 <= i < |s| && s[i] == x && (i < n || p(x)) {
      if i < |first| {
        assert first[i] == x;
      } else {
        assert s[|first|..][i - |first|] == x;
      }
    }
    if x in Leading(s, n, p) && x !in first {
      var k :| 0 <= k < |s[|first|..]| && s[|first|..][k] == x;
      assert s[|first| + k] == x;
    }
    if x in first {
      var k :| 0 <= k < |first| && first[k] == x;
      assert s[k] == x;
    }
  }

  lemma KeptFindings(c: Context, n: nat)
    ensures KeepFirst(c.findings, FocusedFinding(c.focus.findingId), 0, n) == Leading(c.findings, n, InFocusFinding(c))
  {
    KeepFirstIsLeading(c.findings, FocusedFinding(c.focus.findingId), 0, n);
    FilterSame(c.findings[|FirstN(c.findings, n)|..], FocusedFinding(c.focus.findingId), InFocusFinding(c));
  }

  lemma KeptTests(c: Context, n: nat)
    ensures KeepFirst(c.tests, FocusedTest(c.focus.testId), 0, n) == Leading(c.tests, n, InFocusTest(c))
  {
    KeepFirstIsLeading(c.tests, FocusedTest(c.focus.testId), 0, n);
    FilterSame(c.tests[|FirstN(c.tests, n)|..], FocusedTest(c.focus.testId), InFocusTest(c));
  }

  // ---------------------------------------------------------------- the eight

  /** The first trim keeps the first twenty files. */
  lemma FirstTrim(c: Context)
    ensures Trimmed(0, c) == c.(extension := c.extension.(files := FirstN(c.extension.files, 20)), truncated := true)
  {
  }

  /** The second keeps the last ten requests and twenty events. */
  lemma SecondTrim(c: Context)
    ensures Trimmed(1, c) == c.(network := LastN(c.network, 10), events := LastN(c.events, 20), truncated := true)
  {
  }

  /** The third takes steps and evidence off every test but the focused one, which it
      leaves as it is. */
  lemma ThirdTrim(c: Context)
    ensures Trimmed(2, c) == c.(tests := Trimmed(2, c).tests, truncated := true)
    ensures |Trimmed(2, c).tests| == |c.tests|
    ensures forall i :: 0 <= i < |c.tests| ==>
              Trimmed(2, c).tests[i]
              == if FocusTest(c, c.tests[i]) then c.tests[i] else c.tests[i].(steps := [], evidence := [])
  {
    forall i | 0 <= i < |c.tests|
      ensures Trimmed(2, c).tests[i]
              == if FocusTest(c, c.tests[i]) then c.tests[i] else c.tests[i].(steps := [], evidence := [])
    {
      MapAt(Lighten(c.focus.testId), c.tests, i);
    }
  }

  /** The fourth keeps the first twelve findings and the focused one. */
  lemma FourthTrim(c: Context)
    ensures Trimmed(3, c) == c.(findings := Leading(c.findings, 12, InFocusFinding(c)), truncated := true)
  {
    KeptFindings(c, 12);
  }

  /** The fifth keeps the first eight tests and the focused one. */
  lemma FifthTrim(c: Context)
    ensures Trimmed(4, c) == c.(tests := Leading(c.tests, 8, InFocusTest(c)), truncated := true)
  {
    KeptTests(c, 8);
  }

  /** The sixth drops all requests and keeps the last eight events and the first eight
      files. */
  lemma SixthTrim(c: Context)
    ensures Trimmed(5, c)
         == c.(network := [], events := LastN(c.events, 8),
               extension := c.extension.(files := FirstN(c.extension.files, 8)), truncated := true)
  {
  }

  /** The seventh keeps the first four findings and three tests, and the focused ones. */
  lemma SeventhTrim(c: Context)
    ensures Trimmed(6, c)
         == c.(findings := Leading(c.findings, 4, InFocusFinding(c)), tests := Leading(c.tests, 3, InFocusTest(c)),
               truncated := true)
  {
    KeptFindings(c, 4);
    KeptTests(c, 3);
  }

  function FirstThree(lines: Option<seq<string>>): Option<seq<string>> {
    if lines.Some? then Some(FirstN(lines.value, 3)) else None
  }

  /** The eighth shortens every item, the focused ones too: messages to 400 characters,
      evidence lines and errors to three, steps, evidence and assertions to six. */
  lemma LastTrimShortens(c: Context)
    ensures var r := Trimmed(7, c);
            && r == c.(findings := r.findings, tests := r.tests, events := r.events, truncated := true)
            && |r.findings| == |c.findings| && |r.tests| == |c.tests| && |r.events| == |c.events|
            && (forall i :: 0 <= i < |c.findings| ==>
                  r.findings[i] == c.findings[i].(message := Truncate(c.findings[i].message, 400),
                                                  evidence := FirstThree(c.findings[i].evidence)))
            && (forall i :: 0 <= i < |c.tests| ==>
                  r.tests[i] == c.tests[i].(steps := FirstN(c.tests[i].steps, 6),
                                            evidence := FirstN(c.tests[i].evidence, 6),
                                            assertions := FirstN(c.tests[i].assertions, 6),
                                            errors := FirstN(c.tests[i].errors, 3)))
            && (forall i :: 0 <= i < |c.events| ==>
                  r.events[i] == c.events[i].(message := Truncate(c.events[i].message, 400)))
  {
    ShortenedFindings(c.findings);
    ShortenedTests(c.tests);
    ShortenedEvents(c.events);
  }

  lemma ShortenedFindings(s: seq<Finding>)
    ensures forall i :: 0 <= i < |s| ==>
              Map(ShortenFinding, s)[i]
                == s[i].(message := Truncate(s[i].message, 400), evidence := FirstThree(s[i].evidence))
  {
    forall i | 0 <= i < |s|
      ensures Map(ShortenFinding, s)[i]
                == s[i].(message := Truncate(s[i].message, 400), evidence := FirstThree(s[i].evidence))
    {
      MapAt(ShortenFinding, s, i);
    }
  }

  lemma ShortenedTests(s: seq<Test>)
    ensures forall i :: 0 <= i < |s| ==>
              Map(Shorten, s)[i] == s[i].(steps := FirstN(s[i].steps, 6), evidence := FirstN(s[i].evidence, 6),
                                          assertions := FirstN(s[i].assertions, 6), errors := FirstN(s[i].errors, 3))
  {
    forall i | 0 <= i < |s|
      ensures Map(Shorten, s)[i] == s[i].(steps := FirstN(s[i].steps, 6), evidence := FirstN(s[i].evidence, 6),
                                          assertions := FirstN(s[i].assertions, 6), errors := FirstN(s[i].errors, 3))
    {
      MapAt(Shorten, s, i);
    }
  }

  lemma ShortenedEvents(s: seq<RuntimeEvent>)
    ensures forall i :: 0 <= i < |s| ==> Map(ShortenEvent, s)[i] == s[i].(message := Truncate(s[i].message, 400))
  {
    forall i | 0 <= i < |s|
      ensures Map(ShortenEvent, s)[i] == s[i].(message := Truncate(s[i].message, 400))
    {
      MapAt(ShortenEvent, s, i);
    }
  }

  // ---------------------------------------------------------------- focused items through the trims

  lemma TrimKeepsFocused(i: nat, c: Context)
    requires i < 7
    ensures Trimmed(i, c).focus == c.focus
    ensures forall f :: f in c.findings && FocusFinding(c, f) ==> f in Trimmed(i, c).findings
    ensures forall t :: t in c.tests && FocusTest(c, t) ==> t in Trimmed(i, c).tests
  {
    var r := Trimmed(i, c);
    if i == 2 {
      ThirdTrim(c);
      forall t | t in c.tests && FocusTest(c, t)
        ensures t in r.tests
      {
        var k :| 0 <= k < |c.tests| && c.tests[k] == t;
        assert r.tests[k] == t;
      }
    } else if i == 3 || i == 6 {
      var n := if i == 3 then 12 else 4;
      if i == 3 {
        FourthTrim(c);
      } else {
        SeventhTrim(c);
        LeadingKeeps(c.tests, 3, InFocusTest(c));
      }
      LeadingKeeps(c.findings, n, InFocusFinding(c));
    } else if i == 4 {
      FifthTrim(c);
      LeadingKeeps(c.tests, 8, InFocusTest(c));
    }
  }

  lemma LeadingKeeps<T(!new)>(s: seq<T>, n: nat, p: T -> bool)
    ensures forall x :: x in s && p(x) ==> x in Leading(s, n, p)
  {
    forall x | x in s && p(x)
      ensures x in Leading(s, n, p)
    {
      LeadingMember(s, n, p, x);
    }
  }

  /** Through the first seven trims focused findings and tests stay as they are. */
  lemma {:induction false} FocusedUnchanged(c: Context, n: nat)
    requires n <= 7
    ensures AfterTrims(c, n).focus == c.focus
    ensures forall f :: f in c.findings && FocusFinding(c, f) ==> f in AfterTrims(c, n).findings
    ensures forall t :: t in c.tests && FocusTest(c, t) ==> t in AfterTrims(c, n).tests
  {
    if n > 0 {
      FocusedUnchanged(c, n - 1);
      OneTrimMore(n - 1, AfterTrims(c, n - 1), c);
    }
  }

  lemma OneTrimMore(i: nat, before: Context, c: Context)
    requires i < 7 && before.focus == c.focus
    requires forall f :: f in c.findings && FocusFinding(c, f) ==> f in before.findings
    requires forall t :: t in c.tests && FocusTest(c, t) ==> t in before.tests
    ensures Trimmed(i, before).focus == c.focus
    ensures forall f :: f in c.findings && FocusFinding(c, f) ==> f in Trimmed(i, before).findings
    ensures forall t :: t in c.tests && FocusTest(c, t) ==> t in Trimmed(i, before).tests
  {
    TrimKeepsFocused(i, before);
  }
}

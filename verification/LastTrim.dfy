/** The eighth trim, the only one that can make a context longer. */
module LastTrim {
  import opened Seqs
  import opened AIContext
  import opened ContextBudget

  // ---------------------------------------------------------------- one text

  lemma {:induction false} CharsAppend(a: string, b: string)
    ensures Chars(a + b) == Chars(a) + Chars(b)
  {
    if a == "" {
      assert a + b == b;
    } else {
      CharsAppend(a[1..], b);
      assert (a + b)[1..] == a[1..] + b;
    }
  }

  lemma {:induction false} CharsAtLeastLength(s: string)
    ensures Chars(s) >= |s|
  {
    if s != "" {
      CharsAtLeastLength(s[1..]);
    }
  }

  /** A text of two or more characters takes two bytes exactly when it is two
      one-byte characters. */
  lemma LostAtLeastTwo(lost: string)
    requires |lost| >= 2
    ensures Chars(lost) >= 2
    ensures Chars(lost) == 2 <==> |lost| == 2 && CharBytes(lost[0]) == 1 && CharBytes(lost[1]) == 1
  {
    assert lost == [lost[0], lost[1]] + lost[2..];
    CharsAppend([lost[0], lost[1]], lost[2..]);
    assert [lost[0], lost[1]][1..] == [lost[1]];
    CharsAtLeastLength(lost[2..]);
  }

  /** One character too long, and the two characters the ellipsis replaces take one
      byte each while the ellipsis takes three. */
  predicate Overlong(s: string) {
    |s| == TEXT + 1 && CharBytes(s[TEXT - 1]) == 1 && CharBytes(s[TEXT]) == 1
  }

  /** The bytes that cutting a text saves: those of the characters cut, less the
      ellipsis. */
  function TextSaved(s: string): nat {
    if |s| <= TEXT || Chars(s[TEXT - 1..]) <= 3 then 0 else Chars(s[TEXT - 1..]) - 3
  }

  function TextGrown(s: string): nat {
    if Overlong(s) then 1 else 0
  }

  /** Cutting a text to 400 characters saves those bytes, or adds one exactly when the
      text is overlong. */
  lemma TruncationGrows(s: string)
    ensures Chars(Truncate(s, TEXT)) + TextSaved(s) == Chars(s) + TextGrown(s)
    ensures Chars(Truncate(s, TEXT)) > Chars(s) <==> Overlong(s)
  {
    if |s| > TEXT {
      var kept, lost := s[..TEXT - 1], s[TEXT - 1..];
      assert s == kept + lost;
      CharsAppend(kept, lost);
      CharsAppend(kept, ['\U{2026}']);
      LostAtLeastTwo(lost);
    }
  }

  // ---------------------------------------------------------------- lists

  function Sum<T>(f: T -> nat, s: seq<T>): nat {
    if s == [] then 0 else f(s[0]) + Sum(f, s[1..])
  }

  lemma {:induction false} SumZero<T>(f: T -> nat, s: seq<T>)
    ensures Sum(f, s) == 0 <==> forall x :: x in s ==> f(x) == 0
  {
    if s != [] {
      SumZero(f, s[1..]);
      assert forall x :: x in s <==> x == s[0] || x in s[1..];
    }
  }

  /** The bytes of the elements after the first `n`. */
  function Dropped<T>(size: T -> nat, s: seq<T>, n: nat): nat {
    if |s| <= n then 0 else Elements(size, s[n..])
  }

  lemma KeepingFirst<T>(size: T -> nat, s: seq<T>, n: nat)
    requires n >= 1
    ensures ArrayBytes(size, FirstN(s, n)) + Dropped(size, s, n) == ArrayBytes(size, s)
  {
    if |s| > n {
      assert s == s[..n] + s[n..];
      ElementsAppend(size, s[..n], s[n..]);
    }
  }

  lemma {:induction false} MappedElements<T(!new)>(m: T -> T, size: T -> nat, saved: T -> nat, grown: T -> nat,
                                            s: seq<T>)
    requires forall x :: size(m(x)) + saved(x) == size(x) + grown(x)
    ensures Elements(size, Map(m, s)) + Sum(saved, s) == Elements(size, s) + Sum(grown, s)
  {
    if s != [] {
      assert Map(m, s)[1..] == Map(m, s[1..]);
      MappedElements(m, size, saved, grown, s[1..]);
    }
  }

  lemma MappedBytes<T(!new)>(m: T -> T, size: T -> nat, saved: T -> nat, grown: T -> nat, s: seq<T>)
    requires forall x :: size(m(x)) + saved(x) == size(x) + grown(x)
    ensures ArrayBytes(size, Map(m, s)) + Sum(saved, s) == ArrayBytes(size, s) + Sum(grown, s)
  {
    MappedElements(m, size, saved, grown, s);
  }

  // ---------------------------------------------------------------- items

  function FindingSaved(f: Finding): nat {
    TextSaved(f.message) + (if f.evidence.None? then 0 else Dropped(StringBytes, f.evidence.value, 3))
  }

  function FindingGrown(f: Finding): nat {
    TextGrown(f.message)
  }

  function EventSaved(e: RuntimeEvent): nat {
    TextSaved(e.message)
  }

  function EventGrown(e: RuntimeEvent): nat {
    TextGrown(e.message)
  }

  function TestSaved(t: Test): nat {
    Dropped(StringBytes, t.steps, 6) + Dropped(TestEvidenceBytes, t.evidence, 6)
    + Dropped(AssertionBytes, t.assertions, 6) + Dropped(StringBytes, t.errors, 3)
  }

  function Nothing(t: Test): nat {
    0
  }

  lemma ShortenedFinding(f: Finding)
    ensures FindingBytes(ShortenFinding(f)) + FindingSaved(f) == FindingBytes(f) + FindingGrown(f)
  {
    TruncationGrows(f.message);
    if f.evidence.Some? {
      KeepingFirst(StringBytes, f.evidence.value, 3);
    }
  }

  lemma ShortenedEvent(h: Host, e: RuntimeEvent)
    ensures EventSize(h)(ShortenEvent(e)) + EventSaved(e) == EventSize(h)(e) + EventGrown(e)
  {
    TruncationGrows(e.message);
  }

  lemma ShortenedTest(h: Host, t: Test)
    ensures TestSize(h)(Shorten(t)) + TestSaved(t) == TestSize(h)(t) + Nothing(t)
  {
    KeepingFirst(StringBytes, t.steps, 6);
    KeepingFirst(TestEvidenceBytes, t.evidence, 6);
    KeepingFirst(AssertionBytes, t.assertions, 6);
    KeepingFirst(StringBytes, t.errors, 3);
  }

  lemma ShortenedLists(h: Host, findings: seq<Finding>, tests: seq<Test>, events: seq<RuntimeEvent>)
    ensures ArrayBytes(FindingBytes, Map(ShortenFinding, findings)) + Sum(FindingSaved, findings)
         == ArrayBytes(FindingBytes, findings) + Sum(FindingGrown, findings)
    ensures ArrayBytes(TestSize(h), Map(Shorten, tests)) + Sum(TestSaved, tests) == ArrayBytes(TestSize(h), tests)
    ensures ArrayBytes(EventSize(h), Map(ShortenEvent, events)) + Sum(EventSaved, events)
         == ArrayBytes(EventSize(h), events) + Sum(EventGrown, events)
  {
    forall f: Finding
      ensures FindingBytes(ShortenFinding(f)) + FindingSaved(f) == FindingBytes(f) + FindingGrown(f)
    {
      ShortenedFinding(f);
    }
    MappedBytes(ShortenFinding, FindingBytes, FindingSaved, FindingGrown, findings);
    forall t: Test
      ensures TestSize(h)(Shorten(t)) + TestSaved(t) == TestSize(h)(t) + Nothing(t)
    {
      ShortenedTest(h, t);
    }
    MappedBytes(Shorten, TestSize(h), TestSaved, Nothing, tests);
    SumZero(Nothing, tests);
    forall e: RuntimeEvent
      ensures EventSize(h)(ShortenEvent(e)) + EventSaved(e) == EventSize(h)(e) + EventGrown(e)
    {
      ShortenedEvent(h, e);
    }
    MappedBytes(ShortenEvent, EventSize(h), EventSaved, EventGrown, events);
  }

  // ---------------------------------------------------------------- a whole context

  /** How many finding and event messages are overlong. */
  function Growing(c: Context): nat {
    Sum(FindingGrown, c.findings) + Sum(EventGrown, c.events)
  }

  /** The bytes the trim saves: cut messages, dropped list elements, and the one by
      which `true` is shorter than `false`. */
  function Saved(c: Context): nat {
    Sum(FindingSaved, c.findings) + Sum(TestSaved, c.tests) + Sum(EventSaved, c.events) + (if c.truncated then 0 else 1)
  }

  /** The measure and the parts of it the last trim changes. */
  lemma MeasureOfParts(h: Host, a: Context, b: Context)
    requires a == b.(findings := a.findings, tests := a.tests, events := a.events, truncated := true)
    ensures Measure(h, a) + ArrayBytes(FindingBytes, b.findings) + ArrayBytes(TestSize(h), b.tests)
            + ArrayBytes(EventSize(h), b.events) + BoolBytes(b.truncated)
         == Measure(h, b) + ArrayBytes(FindingBytes, a.findings) + ArrayBytes(TestSize(h), a.tests)
            + ArrayBytes(EventSize(h), a.events) + BoolBytes(true)
  {
  }

  /** The eighth trim changes a context's bytes by exactly one per overlong message
      less what it saves, so it lengthens the context exactly when there are more of
      the one than of the other, and never by more than one byte per overlong message. */
  lemma EighthTrimExactly(h: Host, c: Context)
    ensures Measure(h, Trimmed(TRIMS - 1, c)) + Saved(c) == Measure(h, c) + Growing(c)
    ensures Measure(h, Trimmed(TRIMS - 1, c)) > Measure(h, c) <==> Growing(c) > Saved(c)
    ensures Measure(h, Trimmed(TRIMS - 1, c)) <= Measure(h, c) + Growing(c)
  {
    ShortenedLists(h, c.findings, c.tests, c.events);
    MeasureOfParts(h, Trimmed(TRIMS - 1, c), c);
  }

  /** Without an overlong message the eighth trim never lengthens a context. */
  lemma NoOverlongNoGrowth(h: Host, c: Context)
    ensures Growing(c) == 0
       <==> !(exists f :: f in c.findings && Overlong(f.message)) && !(exists e :: e in c.events && Overlong(e.message))
    ensures Growing(c) == 0 ==> Measure(h, Trimmed(TRIMS - 1, c)) <= Measure(h, c)
  {
    SumZero(FindingGrown, c.findings);
    SumZero(EventGrown, c.events);
    EighthTrimExactly(h, c);
  }

  /** With one it can: a context of overlong findings and events that has nothing to
      drop grows by one byte for each. */
  lemma EighthTrimCanGrow(h: Host, c: Context)
    requires c.truncated && c.tests == []
    requires forall f :: f in c.findings ==> Overlong(f.message) && f.evidence == None
    requires forall e :: e in c.events ==> Overlong(e.message)
    ensures Measure(h, Trimmed(TRIMS - 1, c)) == Measure(h, c) + |c.findings| + |c.events|
  {
    AllGrow(FindingGrown, c.findings);
    AllGrow(EventGrown, c.events);
    forall f | f in c.findings
      ensures FindingSaved(f) == 0
    {
      OverlongSavesNothing(f.message);
    }
    forall e | e in c.events
      ensures EventSaved(e) == 0
    {
      OverlongSavesNothing(e.message);
    }
    SumZero(FindingSaved, c.findings);
    SumZero(EventSaved, c.events);
    EighthTrimExactly(h, c);
  }

  lemma OverlongSavesNothing(s: string)
    requires Overlong(s)
    ensures TextSaved(s) == 0
  {
    LostAtLeastTwo(s[TEXT - 1..]);
  }

  lemma {:induction false} AllGrow<T>(f: T -> nat, s: seq<T>)
    requires forall x :: x in s ==> f(x) == 1
    ensures Sum(f, s) == |s|
  {
    if s != [] {
      AllGrow(f, s[1..]);
    }
  }
}

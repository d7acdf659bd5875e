/** What the shared text and record operations do, said without them. */
module TextLaws {
  import opened JsText
  import opened Json
  import opened Schema

  // ---------------------------------------------------------------- records

  predicate FirstWithKey(members: seq<Member>, i: nat, key: string) {
    i < |members| && members[i].key == key && forall j :: 0 <= j < i ==> members[j].key != key
  }

  lemma {:induction false} LookupFirst(members: seq<Member>, i: nat, key: string)
    requires FirstWithKey(members, i, key)
    ensures Lookup(members, key) == members[i].value
  {
    if i > 0 {
      assert forall j :: 0 <= j < i - 1 ==> members[1..][j] == members[j + 1];
      LookupFirst(members[1..], i - 1, key);
    }
  }

  lemma {:induction false} LookupAbsent(members: seq<Member>, key: string)
    requires forall m :: m in members ==> m.key != key
    ensures Lookup(members, key) == Undefined
  {
    if members != [] {
      assert members[0] in members;
      LookupAbsent(members[1..], key);
    }
  }

  /** A field is the value of the first member with its key; without one, and in anything
      but an object, it is undefined. */
  lemma FieldReads(j: Json, key: string)
    ensures j.Object? ==> forall i: nat :: FirstWithKey(j.members, i, key) ==> Field(j, key) == j.members[i].value
    ensures (j.Object? ==> forall m :: m in j.members ==> m.key != key) ==> Field(j, key) == Undefined
  {
    if j.Object? {
      forall i: nat | FirstWithKey(j.members, i, key)
        ensures Field(j, key) == j.members[i].value
      {
        LookupFirst(j.members, i, key);
      }
      if forall m :: m in j.members ==> m.key != key {
        LookupAbsent(j.members, key);
      }
    }
  }

  /** What counts as false: nothing, null, false, zero and the empty text. */
  lemma TruthyExactly(j: Json)
    ensures !Truthy(j) <==> j in [Undefined, Null, Flag(false), Number(0.0), Text("")]
  {
  }

  // ---------------------------------------------------------------- white space

  predicate Blank(s: string) {
    forall c :: c in s ==> IsSpace(c)
  }

  predicate Solid(s: string) {
    s != "" && forall c :: c in s ==> !IsSpace(c)
  }

  lemma {:induction false} StartTrimmed(s: string) returns (k: nat)
    ensures k <= |s| && Blank(s[..k]) && TrimStart(s) == s[k..]
    ensures k < |s| ==> !IsSpace(s[k])
  {
    if s != "" && IsSpace(s[0]) {
      var n := StartTrimmed(s[1..]);
      k := n + 1;
      assert s[..k] == [s[0]] + s[1..][..n] && s[k..] == s[1..][n..];
    } else {
      k := 0;
    }
  }

  lemma {:induction false} EndTrimmed(s: string) returns (k: nat)
    ensures k <= |s| && Blank(s[k..]) && TrimEnd(s) == s[..k]
    ensures k > 0 ==> !IsSpace(s[k - 1])
  {
    if s != "" && IsSpace(s[|s| - 1]) {
      var init := s[..|s| - 1];
      k := EndTrimmed(init);
      assert s[k..] == init[k..] + [s[|s| - 1]] && s[..k] == init[..k];
    } else {
      k := |s|;
    }
  }

  /** Trimming takes white space off both ends, and all of it. */
  lemma TrimTakesSpace(s: string) returns (i: nat, k: nat)
    ensures i <= k <= |s| && Trim(s) == s[i..k] && Blank(s[..i]) && Blank(s[k..])
    ensures Trim(s) == "" || Trimmed(Trim(s))
  {
    i := StartTrimmed(s);
    var n := EndTrimmed(s[i..]);
    k := i + n;
    assert s[i..][n..] == s[k..] && s[i..][..n] == s[i..k];
  }

  // ---------------------------------------------------------------- squeezed text

  /** The words with the gaps before, between and after them. */
  function Spread(gaps: seq<string>, words: seq<string>): string
    requires |gaps| == |words| + 1
  {
    if words == [] then gaps[0] else gaps[0] + words[0] + Spread(gaps[1..], words[1..])
  }

  /** Gaps are white space, and only the outer two may be missing. */
  predicate Spaced(gaps: seq<string>, words: seq<string>) {
    && |gaps| == |words| + 1 && (forall g :: g in gaps ==> Blank(g)) && (forall w :: w in words ==> Solid(w))
    && forall i :: 1 <= i < |words| ==> gaps[i] != ""
  }

  lemma {:induction false} CollapseGap(gap: string, rest: string)
    requires Blank(gap) && (rest == "" || !IsSpace(rest[0]))
    ensures TrimStart(gap + rest) == rest
    ensures gap != "" ==> Collapse(gap + rest) == " " + Collapse(rest)
  {
    if gap == "" {
      assert gap + rest == rest;
    } else {
      assert gap[0] in gap && forall c :: c in gap[1..] ==> c in gap;
      assert (gap + rest)[1..] == gap[1..] + rest;
      CollapseGap(gap[1..], rest);
    }
  }

  lemma {:induction false} CollapseWord(word: string, rest: string)
    requires forall c :: c in word ==> !IsSpace(c)
    ensures Collapse(word + rest) == word + Collapse(rest)
  {
    if word == "" {
      assert word + rest == rest;
    } else {
      assert word[0] in word && (word + rest)[1..] == word[1..] + rest;
      CollapseWord(word[1..], rest);
      assert word == [word[0]] + word[1..];
    }
  }

  function Gap(gap: string): string {
    if gap == "" then "" else " "
  }

  lemma CollapseNext(gap: string, word: string, rest: string)
    requires Blank(gap) && Solid(word)
    ensures Collapse(gap + word + rest) == Gap(gap) + (word + Collapse(rest))
  {
    assert word[0] in word;
    CollapseWord(word, rest);
    CollapseGap(gap, word + rest);
    assert gap + word + rest == gap + (word + rest);
    if gap == "" {
      assert gap + (word + rest) == word + rest;
    }
  }

  /** The words with one blank in between. */
  function Squeezed(words: seq<string>): string {
    if |words| <= 1 then JoinWith(words, ' ') else words[0] + (" " + Squeezed(words[1..]))
  }

  lemma {:induction false} SqueezedIsJoined(words: seq<string>)
    ensures Squeezed(words) == JoinWith(words, ' ')
  {
    if |words| > 1 {
      SqueezedIsJoined(words[1..]);
      assert [' '] == " ";
      assert words[0] + (" " + Squeezed(words[1..])) == words[0] + " " + Squeezed(words[1..]);
    }
  }

  lemma SpacedTail(gaps: seq<string>, words: seq<string>)
    requires Spaced(gaps, words) && words != []
    ensures Spaced(gaps[1..], words[1..])
  {
    assert forall w :: w in words[1..] ==> w in words;
    assert forall g :: g in gaps[1..] ==> g in gaps;
    assert forall i :: 1 <= i < |words[1..]| ==> gaps[1..][i] == gaps[i + 1];
  }

  /** Collapsing leaves one blank of each gap. */
  lemma {:induction false} CollapseSpread(gaps: seq<string>, words: seq<string>)
    requires Spaced(gaps, words) && words != []
    ensures Collapse(Spread(gaps, words)) == Gap(gaps[0]) + (Squeezed(words) + Gap(gaps[|words|]))
    decreases |words|
  {
    assert gaps[0] in gaps && words[0] in words;
    SpacedTail(gaps, words);
    var tail := Spread(gaps[1..], words[1..]);
    CollapseNext(gaps[0], words[0], tail);
    if |words| == 1 {
      assert gaps[1] in gaps && gaps[1..][0] == gaps[1];
      CollapseGap(gaps[1], "");
      assert gaps[1] + "" == gaps[1];
      assert Collapse(tail) == Gap(gaps[1]);
    } else {
      CollapseSpread(gaps[1..], words[1..]);
      var last := Gap(gaps[|words|]);
      assert gaps[1..][|words| - 1] == gaps[|words|] && gaps[1..][0] == gaps[1] != "";
      assert Collapse(tail) == " " + (Squeezed(words[1..]) + last);
      assert words[0] + (" " + (Squeezed(words[1..]) + last)) == words[0] + (" " + Squeezed(words[1..])) + last;
    }
  }

  lemma {:induction false} SqueezedTrimmed(words: seq<string>)
    requires words != [] && forall w :: w in words ==> Solid(w)
    ensures Trimmed(Squeezed(words))
  {
    var w := words[0];
    assert w in words && w[0] in w && w[|w| - 1] in w;
    if |words| > 1 {
      assert forall x :: x in words[1..] ==> x in words;
      SqueezedTrimmed(words[1..]);
      var rest := Squeezed(words[1..]);
      var all := w + (" " + rest);
      assert all[0] == w[0] && all[|all| - 1] == rest[|rest| - 1];
    }
  }

  lemma TrimGaps(before: string, s: string, after: string)
    requires Trimmed(s) && before in ["", " "] && after in ["", " "]
    ensures Trim(before + (s + after)) == s
  {
    var right := s + after;
    assert right[0] == s[0];
    assert TrimStart(right) == right;
    if before == "" {
      assert before + right == right;
    } else {
      assert (before + right)[1..] == right;
    }
    TrimmedUnchanged(s);
    if after == "" {
      assert right == s;
    } else {
      assert right[..|right| - 1] == s && right[|right| - 1] == ' ';
    }
  }

  /** Squeezing white space leaves the words, one blank apart. */
  lemma SquashSpread(gaps: seq<string>, words: seq<string>)
    requires Spaced(gaps, words)
    ensures Squash(Spread(gaps, words)) == JoinWith(words, ' ')
  {
    if words == [] {
      assert gaps[0] in gaps;
      CollapseGap(gaps[0], "");
      assert gaps[0] + "" == gaps[0];
      assert " "[1..] == "" && TrimStart(" ") == TrimStart("") == "";
    } else {
      CollapseSpread(gaps, words);
      SqueezedTrimmed(words);
      SqueezedIsJoined(words);
      TrimGaps(Gap(gaps[0]), Squeezed(words), Gap(gaps[|words|]));
    }
  }

  /** Every text is words with gaps. */
  lemma {:induction false} EveryTextSpreads(s: string) returns (gaps: seq<string>, words: seq<string>)
    ensures Spaced(gaps, words) && Spread(gaps, words) == s
  {
    if s == "" {
      gaps, words := [""], [];
    } else {
      var g, w := EveryTextSpreads(s[1..]);
      assert s == [s[0]] + s[1..] && g[0] in g;
      if IsSpace(s[0]) {
        assert Blank([s[0]] + g[0]) && forall x :: x in g[1..] ==> x in g;
        gaps, words := [[s[0]] + g[0]] + g[1..], w;
        if w != [] {
          assert [s[0]] + (g[0] + w[0] + Spread(g[1..], w[1..])) == [s[0]] + g[0] + w[0] + Spread(g[1..], w[1..]);
        }
      } else if w == [] || g[0] != "" {
        gaps, words := [""] + g, [[s[0]]] + w;
        assert gaps[1..] == g && words[1..] == w;
        assert "" + [s[0]] + Spread(g, w) == [s[0]] + Spread(g, w);
      } else {
        gaps, words := g, [[s[0]] + w[0]] + w[1..];
        assert w[0] in w && Solid([s[0]] + w[0]) && forall x :: x in w[1..] ==> x in w;
        assert words[1..] == w[1..];
        assert g[0] + ([s[0]] + w[0]) + Spread(g[1..], w[1..]) == [s[0]] + (g[0] + w[0] + Spread(g[1..], w[1..]));
      }
    }
  }

  // ---------------------------------------------------------------- numbers and lines

  /** The number a row of digits spells. */
  function Digits(s: string): int {
    if s == "" then 0 else 10 * Digits(s[..|s| - 1]) + (s[|s| - 1] as int - '0' as int)
  }

  /** A number prints as its decimal digits, without leading zeros. */
  lemma {:induction false} DecimalSpells(n: nat)
    ensures Decimal(n) != "" && Digits(Decimal(n)) == n && (Decimal(n)[0] == '0' <==> n == 0)
  {
    DecimalDigits(n);
    var digit := ['0' + (n % 10) as char];
    if n < 10 {
      assert digit[..0] == "";
    } else {
      DecimalSpells(n / 10);
      DecimalDigits(n / 10);
      assert Decimal(n)[..|Decimal(n)| - 1] == Decimal(n / 10);
    }
  }

  /** Splitting is undone by joining, and leaves no separator. */
  lemma {:induction false} JoinSplit(s: string, c: char)
    ensures JoinWith(SplitOn(s, c), c) == s
    ensures forall part :: part in SplitOn(s, c) ==> c !in part
  {
    if s != "" {
      var rest := SplitOn(s[1..], c);
      JoinSplit(s[1..], c);
      assert s == [s[0]] + s[1..];
      if s[0] == c {
        assert ([""] + rest)[1..] == rest;
        assert "" + [c] + JoinWith(rest, c) == [c] + s[1..];
      } else {
        var parts := [[s[0]] + rest[0]] + rest[1..];
        assert rest[0] in rest && parts[1..] == rest[1..];
        if |rest| > 1 {
          assert [s[0]] + rest[0] + [c] + JoinWith(rest[1..], c) == [s[0]] + (rest[0] + [c] + JoinWith(rest[1..], c));
        }
      }
    }
  }
}

/**
 * Feature extraction of `Analyzer.analyze_trends`: lower-casing, the
 * `#(\w+)` and `@(\w+)` scans, the `\b\w+\b` word scan and the list of
 * contiguous 3-word phrases.
 *
 * The regular-expression class `\w` is modelled over ASCII (letters, digits
 * and the underscore) and `str.lower` as ASCII lower-casing.
 */
module TextFeatures {

  /** The regex class `\w`. */
  predicate IsWordChar(c: char) {
    ('a' <= c <= 'z') || ('A' <= c <= 'Z') || ('0' <= c <= '9') || c == '_'
  }

  predicate IsUpper(c: char) {
    'A' <= c <= 'Z'
  }

  predicate AllWordChars(s: string) {
    forall i :: 0 <= i < |s| ==> IsWordChar(s[i])
  }

  function LowerChar(c: char): (r: char)
    ensures !IsUpper(r)
    ensures IsWordChar(r) == IsWordChar(c)
    ensures !IsUpper(c) ==> r == c
    ensures IsUpper(c) ==> r as int == c as int + 32
  {
    if IsUpper(c) then (c as int + 32) as char else c
  }

  /** `str.lower`: every character lower-cased, nothing added or dropped. */
  function Lower(s: string): (r: string)
    ensures |r| == |s|
    ensures forall i :: 0 <= i < |s| ==> r[i] == LowerChar(s[i])
  {
    if s == [] then [] else [LowerChar(s[0])] + Lower(s[1..])
  }

  lemma LowerIdempotent(s: string)
    ensures Lower(Lower(s)) == Lower(s)
  {
  }

  /** The greedy `\w+` match at the start of `s`: the longest prefix of word characters. */
  function LeadingRun(s: string): (r: string)
    ensures r <= s
    ensures AllWordChars(r)
    ensures |r| < |s| ==> !IsWordChar(s[|r|])
  {
    if s != [] && IsWordChar(s[0]) then [s[0]] + LeadingRun(s[1..]) else []
  }

  /** `re.findall(r'\b\w+\b', text)`: the maximal runs of word characters, left to right. */
  function Words(s: string): seq<string>
    decreases |s|
  {
    if s == [] then []
    else if IsWordChar(s[0]) then
      var w := LeadingRun(s);
      [w] + Words(s[|w|..])
    else Words(s[1..])
  }

  /**
   * `re.findall(marker + r'(\w+)', text)`: scanning left to right, every
   * marker followed by a word character yields the run after it, and the
   * scan resumes just after that run.
   */
  function Tagged(s: string, marker: char): seq<string>
    decreases |s|
  {
    if |s| < 2 then []
    else if s[0] == marker && IsWordChar(s[1]) then
      var w := LeadingRun(s[1..]);
      [w] + Tagged(s[1 + |w|..], marker)
    else Tagged(s[1..], marker)
  }

  const HASH: char := '#'
  const AT: char := '@'

  /** `set(re.findall(r'#(\w+)', text))`: the runs that follow a `#`. */
  function Hashtags(text: string): (r: set<string>)
    ensures forall t :: t in r <==> exists i :: TagAt(text, HASH, i, t)
  {
    TaggedSpec(text, HASH);
    set t | t in Tagged(text, HASH)
  }

  /** `set(re.findall(r'@(\w+)', text))`: the runs that follow an `@`. */
  function Mentions(text: string): (r: set<string>)
    ensures forall t :: t in r <==> exists i :: TagAt(text, AT, i, t)
  {
    TaggedSpec(text, AT);
    set t | t in Tagged(text, AT)
  }

  /** `' '.join(words[i:i+3])` */
  function Phrase(a: string, b: string, c: string): string {
    a + " " + b + " " + c
  }

  /** `[' '.join(words[i:i+3]) for i in range(len(words)-2)]` */
  function Phrases(words: seq<string>): seq<string>
    decreases |words|
  {
    if |words| < 3 then [] else [Phrase(words[0], words[1], words[2])] + Phrases(words[1..])
  }

  // ---------------------------------------------------------------------------
  // Words

  /** Every word is a non-empty run of word characters. */
  lemma {:induction false} WordsAreRuns(s: string)
    ensures forall i :: 0 <= i < |Words(s)| ==> Words(s)[i] != [] && AllWordChars(Words(s)[i])
    decreases |s|
  {
    if s == [] {
    } else if IsWordChar(s[0]) {
      var w := LeadingRun(s);
      WordsAreRuns(s[|w|..]);
    } else {
      WordsAreRuns(s[1..]);
    }
  }

  /** A string made only of word characters is one word. */
  lemma WordsOfRun(s: string)
    requires s != [] && AllWordChars(s)
    ensures Words(s) == [s]
  {
    assert LeadingRun(s) == s;
  }

  /** A run stops at the first non-word character. */
  lemma {:induction false} LeadingRunStopsAt(a: string, c: char, b: string)
    requires !IsWordChar(c)
    ensures LeadingRun(a + [c] + b) == LeadingRun(a)
    decreases |a|
  {
    if a == [] {
      assert (a + [c] + b)[0] == c;
    } else {
      assert (a + [c] + b)[0] == a[0];
      assert (a + [c] + b)[1..] == a[1..] + [c] + b;
      LeadingRunStopsAt(a[1..], c, b);
    }
  }

  /** A non-word character separates the words on its left from those on its right. */
  lemma {:induction false} WordsSplit(a: string, c: char, b: string)
    requires !IsWordChar(c)
    ensures Words(a + [c] + b) == Words(a) + Words(b)
    decreases |a|
  {
    var s := a + [c] + b;
    if a == [] {
      assert s == [c] + b;
      assert s[1..] == b;
    } else if IsWordChar(a[0]) {
      var w := LeadingRun(s);
      LeadingRunStopsAt(a, c, b);
      assert w == LeadingRun(a);
      assert s[|w|..] == a[|w|..] + [c] + b;
      WordsSplit(a[|w|..], c, b);
    } else {
      assert s[0] == a[0];
      assert s[1..] == a[1..] + [c] + b;
      WordsSplit(a[1..], c, b);
    }
  }

  // ---------------------------------------------------------------------------
  // Hashtags and mentions

  /** Position `i` holds `marker`, a word character follows, and `t` is the run after the marker. */
  ghost predicate TagAt(s: string, marker: char, i: int, t: string) {
    0 <= i && i + 1 < |s| && s[i] == marker && IsWordChar(s[i + 1]) && t == LeadingRun(s[i + 1..])
  }

  /** A tag found in a suffix of `s` is a tag of `s`, at the shifted position. */
  lemma TagAtLift(s: string, marker: char, d: nat, j: int, t: string)
    requires d <= |s| && TagAt(s[d..], marker, j, t)
    ensures TagAt(s, marker, d + j, t)
  {
    assert s[d..][j + 1..] == s[d + j + 1..];
  }

  /** A tag of `s` at or after position `d` is a tag of the suffix from `d`. */
  lemma TagAtDrop(s: string, marker: char, d: nat, i: int, t: string)
    requires d <= i && TagAt(s, marker, i, t)
    ensures TagAt(s[d..], marker, i - d, t)
  {
    assert s[d..][i - d + 1..] == s[i + 1..];
  }

  /** Every tag the scan yields is the run after some marker of `s`. */
  lemma {:induction false} TaggedSound(s: string, marker: char, t: string) returns (i: int)
    requires t in Tagged(s, marker)
    ensures TagAt(s, marker, i, t)
    decreases |s|, 2
  {
    if s[0] == marker && IsWordChar(s[1]) {
      i := TaggedSoundAtMarker(s, marker, t);
    } else {
      i := TaggedSoundAfter(s, marker, t, 1);
    }
  }

  /** `TaggedSound` when the scan stands on a marker followed by a word character. */
  lemma {:induction false} TaggedSoundAtMarker(s: string, marker: char, t: string) returns (i: int)
    requires |s| >= 2 && s[0] == marker && IsWordChar(s[1])
    requires t in Tagged(s, marker)
    ensures TagAt(s, marker, i, t)
    decreases |s|, 1
  {
    var w := LeadingRun(s[1..]);
    if t == w {
      i := 0;
    } else {
      i := TaggedSoundAfter(s, marker, t, 1 + |w|);
    }
  }

  /** `TaggedSound` for a tag the scan finds after resuming at position `d`. */
  lemma {:induction false} TaggedSoundAfter(s: string, marker: char, t: string, d: int) returns (i: int)
    requires 1 <= d <= |s|
    requires t in Tagged(s[d..], marker)
    ensures TagAt(s, marker, i, t)
    decreases |s| - d, 3
  {
    var j := TaggedSound(s[d..], marker, t);
    TagAtLift(s, marker, d, j, t);
    i := d + j;
  }

  /** The run after every marker of `s` that a word character follows is yielded by the scan. */
  lemma {:induction false} TaggedComplete(s: string, marker: char, i: int, t: string)
    requires !IsWordChar(marker)
    requires TagAt(s, marker, i, t)
    ensures t in Tagged(s, marker)
    decreases |s|
  {
    if s[0] == marker && IsWordChar(s[1]) {
      var w := LeadingRun(s[1..]);
      var d := 1 + |w|;
      if i != 0 {
        MarkerAfterRun(s, marker, i);
        TagAtDrop(s, marker, d, i, t);
        TaggedComplete(s[d..], marker, i - d, t);
      }
    } else {
      assert i != 0;
      TagAtDrop(s, marker, 1, i, t);
      TaggedComplete(s[1..], marker, i - 1, t);
    }
  }

  /** A marker that is not a word character cannot lie inside the run that follows a marker. */
  lemma MarkerAfterRun(s: string, marker: char, i: int)
    requires !IsWordChar(marker)
    requires 0 < i < |s| && |s| >= 2 && s[i] == marker
    ensures i >= 1 + |LeadingRun(s[1..])|
  {
    var w := LeadingRun(s[1..]);
    forall k | 1 <= k < 1 + |w| ensures IsWordChar(s[k]) {
      assert s[k] == w[k - 1];
    }
  }

  /**
   * The scan finds exactly the runs that follow a marker: `t` is found iff some
   * marker in `s` is followed by the non-empty run `t`.
   */
  lemma TaggedSpec(s: string, marker: char)
    requires !IsWordChar(marker)
    ensures forall t :: t in Tagged(s, marker) <==> exists i :: TagAt(s, marker, i, t)
  {
    forall t | t in Tagged(s, marker)
      ensures exists i :: TagAt(s, marker, i, t)
    {
      var i := TaggedSound(s, marker, t);
    }
    forall t, i | TagAt(s, marker, i, t)
      ensures t in Tagged(s, marker)
    {
      TaggedComplete(s, marker, i, t);
    }
  }

  /** Every tag found in lower-cased text is a non-empty run of lower-case word characters. */
  lemma TagsOfLowered(text: string, marker: char)
    ensures forall t :: t in Tagged(Lower(text), marker) ==>
              t != [] && AllWordChars(t) && forall j :: 0 <= j < |t| ==> !IsUpper(t[j])
  {
    forall t | t in Tagged(Lower(text), marker)
      ensures t != [] && AllWordChars(t) && forall j :: 0 <= j < |t| ==> !IsUpper(t[j])
    {
      TagOfLowered(text, marker, t);
    }
  }

  lemma TagOfLowered(text: string, marker: char, t: string)
    requires t in Tagged(Lower(text), marker)
    ensures t != [] && AllWordChars(t) && forall j :: 0 <= j < |t| ==> !IsUpper(t[j])
  {
    var s := Lower(text);
    var i := TaggedSound(s, marker, t);
    var after := s[i + 1..];
    assert t <= after;
    forall j | 0 <= j < |t| ensures !IsUpper(t[j]) {
      assert t[j] == after[j] == s[i + 1 + j];
    }
  }

  /** `x` and `y` are the same character, or the same ASCII letter in upper and lower case. */
  predicate SameLetterIgnoringCase(x: char, y: char) {
    || x == y
    || (IsUpper(x) && y as int == x as int + 32)
    || (IsUpper(y) && x as int == y as int + 32)
  }

  /**
   * Texts that differ only in the case of their letters give the same
   * hashtags, mentions and words once lower-cased.
   */
  lemma FeaturesIgnoreCase(a: string, b: string)
    requires |a| == |b|
    requires forall i :: 0 <= i < |a| ==> SameLetterIgnoringCase(a[i], b[i])
    ensures Hashtags(Lower(a)) == Hashtags(Lower(b))
    ensures Mentions(Lower(a)) == Mentions(Lower(b))
    ensures Words(Lower(a)) == Words(Lower(b))
  {
    LowerIgnoresCase(a, b);
  }

  /** Lower-casing maps both characters of an ignoring-case pair to the same character. */
  lemma LowerIgnoresCase(a: string, b: string)
    requires |a| == |b|
    requires forall i :: 0 <= i < |a| ==> SameLetterIgnoringCase(a[i], b[i])
    ensures Lower(a) == Lower(b)
  {
    forall i | 0 <= i < |a| ensures Lower(a)[i] == Lower(b)[i] {
      assert SameLetterIgnoringCase(a[i], b[i]);
    }
  }

  // ---------------------------------------------------------------------------
  // Phrases

  /**
   * There are `|words| - 2` phrases when there are at least three words and
   * none otherwise; phrase `i` joins words `i`, `i+1` and `i+2` with single spaces.
   */
  lemma {:induction false} PhrasesSpec(words: seq<string>)
    ensures |Phrases(words)| == if |words| >= 3 then |words| - 2 else 0
    ensures forall i :: 0 <= i < |Phrases(words)| ==>
              Phrases(words)[i] == words[i] + " " + words[i + 1] + " " + words[i + 2]
    decreases |words|
  {
    if |words| >= 3 {
      PhrasesSpec(words[1..]);
      var p := Phrases(words);
      forall i | 0 <= i < |p|
        ensures p[i] == words[i] + " " + words[i + 1] + " " + words[i + 2]
      {
        if i > 0 {
          assert p[i] == Phrases(words[1..])[i - 1];
        }
      }
    }
  }

  /** A phrase built from words starts with a word character, so it is never a hashtag or mention key. */
  lemma PhraseStartsWithWordChar(words: seq<string>, i: int)
    requires forall k :: 0 <= k < |words| ==> words[k] != [] && AllWordChars(words[k])
    requires 0 <= i < |Phrases(words)|
    ensures Phrases(words)[i] != [] && IsWordChar(Phrases(words)[i][0])
  {
    PhrasesSpec(words);
    var w := words[i];
    assert w != [];
    assert Phrases(words)[i] == w + (" " + words[i + 1] + " " + words[i + 2]);
    assert Phrases(words)[i][0] == w[0];
  }
}

/**
 * The trend state of `Analyzer` (analyzer.py): a frequency map `trends`
 * (a `Counter`), the list of insertion times `trendTimestamps`, and the
 * parallel list `trendData` of one-item entries.  Clock reads are parameters.
 */
module Analyzer {
  import opened TextFeatures
  import opened TrendWindow

  /** What one `analyze_trends` call appends, in order: its hashtag keys, its mention keys, its phrases. */
  function AddedKeys(hashtags: seq<string>, mentions: seq<string>, text: string): seq<string> {
    Prefixed(HASH, hashtags) + Prefixed(AT, mentions) + Phrases(Words(Lower(text)))
  }

  class Analyzer {
    var trends: map<string, int>
    var trendTimestamps: seq<Time>
    var trendData: seq<seq<string>>

    /**
     * The two lists run in parallel, every entry holds one key, and the map
     * holds exactly the keys present in the entries, each with the number of
     * times it occurs (so every count in the map is positive).
     */
    ghost predicate Valid()
      reads this
    {
      && |trendTimestamps| == |trendData|
      && (forall i :: 0 <= i < |trendData| ==> |trendData[i]| == 1)
      && trends == Counts(Bag(trendData))
    }

    /** `self.trends[item]`: a `Counter` reads 0 for a missing key. */
    function Count(item: string): int
      reads this
    {
      if item in trends then trends[item] else 0
    }

    /** Under the invariant, a key's count is the number of entries `[item]`: zero exactly for a key no entry holds. */
    lemma CountIsOccurrences(item: string)
      requires Valid()
      ensures Count(item) == Occurrences(trendData, item)
    {
      CountsAreOccurrences(trendData, item);
    }

    /** `__init__` with `datetime.now()` as `now`. */
    constructor (now: Time)
      ensures Valid()
      ensures trendData == Entries(SeedKeys(SAMPLE_TRENDS))
      ensures trendTimestamps == SeedTimes(now, |SAMPLE_TRENDS|)
      ensures forall k :: k in trends <==> k in SAMPLE_TRENDS
      ensures forall k :: k in trends ==> trends[k] == 6
    {
      trends := map[];
      trendTimestamps := [];
      trendData := [];
      new;
      InitializeSampleTrends(now);
      BagOfEntries(SeedKeys(SAMPLE_TRENDS));
      SeedCounts();
    }

    /** `_initialize_sample_trends`: every sample trend once at `now` and five times at `now - 30min`. */
    method InitializeSampleTrends(now: Time)
      requires Valid()
      modifies this
      ensures Valid()
      ensures trendData == old(trendData) + Entries(SeedKeys(SAMPLE_TRENDS))
      ensures trendTimestamps == old(trendTimestamps) + SeedTimes(now, |SAMPLE_TRENDS|)
    {
      var sample := SAMPLE_TRENDS;
      var i := 0;
      while i < |sample|
        invariant 0 <= i <= |sample|
        invariant Valid()
        invariant trendData == old(trendData) + Entries(SeedKeys(sample[..i]))
        invariant trendTimestamps == old(trendTimestamps) + SeedTimes(now, i)
      {
        var trend := sample[i];
        ghost var data0, times0 := trendData, trendTimestamps;
        AddTrend(trend, now);
        RepeatStep(data0, times0, trend, now, now - HALF_HOUR, 0);
        var j := 0;
        while j < 5
          invariant 0 <= j <= 5
          invariant Valid()
          invariant trendData == data0 + Entries(Repeat(trend, j + 1))
          invariant trendTimestamps == times0 + [now] + Repeat(now - HALF_HOUR, j)
        {
          AddTrend(trend, now - HALF_HOUR);
          RepeatStep(data0, times0, trend, now, now - HALF_HOUR, j + 1);
          j := j + 1;
        }
        SeedStep(old(trendData), old(trendTimestamps), sample, i, now);
        i := i + 1;
      }
      assert sample[..|sample|] == sample;
    }

    /** `_add_trend`: one more count for `item`, one more entry `[item]` at `timestamp`. */
    method AddTrend(item: string, timestamp: Time)
      requires Valid()
      modifies this
      ensures Valid()
      ensures trends == old(trends)[item := old(Count(item)) + 1]
      ensures trendTimestamps == old(trendTimestamps) + [timestamp]
      ensures trendData == old(trendData) + [[item]]
    {
      CountsAppend(trendData, item);
      trends := trends[item := Count(item) + 1];
      trendTimestamps := trendTimestamps + [timestamp];
      trendData := trendData + [[item]];
    }

    /**
     * `_clean_old_trends` with `datetime.now()` as `now`: pops entries from the
     * front while the first one is strictly older than `now - 24h`, taking each
     * popped key's count down and deleting the keys that reach zero.
     */
    method CleanOldTrends(now: Time)
      requires Valid()
      modifies this
      ensures Valid()
      ensures var k := StalePrefix(old(trendTimestamps), now - WINDOW);
              trendTimestamps == old(trendTimestamps)[k..] && trendData == old(trendData)[k..]
      ensures StalePrefix(trendTimestamps, now - WINDOW) == 0
      ensures StalePrefix(old(trendTimestamps), now - WINDOW) == 0 ==> trends == old(trends)
    {
      var cutoff := now - WINDOW;
      ghost var popped := 0;
      while |trendTimestamps| > 0 && trendTimestamps[0] < cutoff
        invariant Valid()
        invariant 0 <= popped <= |old(trendTimestamps)|
        invariant trendTimestamps == old(trendTimestamps)[popped..]
        invariant trendData == old(trendData)[popped..]
        invariant StalePrefix(old(trendTimestamps), cutoff) == popped + StalePrefix(trendTimestamps, cutoff)
        decreases |trendTimestamps|
      {
        var oldData := trendData[0];
        ghost var rest := Bag(trendData[1..]);
        trendData := trendData[1..];
        trendTimestamps := trendTimestamps[1..];
        ForgetEntry(oldData, rest);
        popped := popped + 1;
      }
    }

    /**
     * `for item in old_data: ...` of `_clean_old_trends`: takes one count off
     * each key of a popped entry, deleting the keys that reach zero or less.
     */
    method ForgetEntry(entry: seq<string>, ghost rest: multiset<string>)
      requires trends == Counts(rest + multiset(entry))
      modifies this`trends
      ensures trends == Counts(rest)
    {
      assert entry[0..] == entry;
      var j := 0;
      while j < |entry|
        invariant 0 <= j <= |entry|
        invariant trends == Counts(rest + multiset(entry[j..]))
      {
        var item := entry[j];
        assert entry[j..] == [item] + entry[j + 1..];
        assert rest + multiset(entry[j..]) == rest + multiset(entry[j + 1..]) + multiset{item};
        CountsDecrement(rest + multiset(entry[j + 1..]), item);
        var count := Count(item) - 1;
        if count <= 0 {
          trends := trends - {item};
        } else {
          trends := trends[item := count];
        }
        j := j + 1;
      }
      assert entry[|entry|..] == [];
    }

    /**
     * `analyze_trends` with the two clock reads as `cleanTime` (the eviction's)
     * and `now` (the insertions'): evicts, then adds one entry per distinct
     * hashtag, one per distinct mention and one per 3-word phrase of the
     * lower-cased text, and returns the hashtags and mentions in the order they
     * were added and the ten most common trends.
     */
    method AnalyzeTrends(text: string, cleanTime: Time, now: Time)
      returns (hashtags: seq<string>, mentions: seq<string>, topTrends: seq<(string, int)>)
      requires Valid()
      modifies this
      ensures Valid()
      ensures Enumerates(hashtags, Hashtags(Lower(text)))
      ensures Enumerates(mentions, Mentions(Lower(text)))
      ensures var k := StalePrefix(old(trendTimestamps), cleanTime - WINDOW);
              var added := AddedKeys(hashtags, mentions, text);
              && trendData == old(trendData)[k..] + Entries(added)
              && trendTimestamps == old(trendTimestamps)[k..] + Repeat(now, |added|)
              && trends == Counts(Bag(old(trendData)[k..]) + multiset(added))
      ensures IsMostCommon(topTrends, trends, 10)
    {
      CleanOldTrends(cleanTime);
      ghost var kept := trendData;
      ghost var keptTimestamps := trendTimestamps;

      var lowered := Lower(text);
      var tags := Hashtags(lowered);
      var ats := Mentions(lowered);
      var words := Words(lowered);
      var phrases := Phrases(words);

      hashtags := AddTagTrends(tags, HASH, now);
      ghost var data1, times1 := trendData, trendTimestamps;
      mentions := AddTagTrends(ats, AT, now);
      ghost var data2, times2 := trendData, trendTimestamps;
      AddPhraseTrends(phrases, now);
      AppendedInOrder(kept, keptTimestamps, Prefixed(HASH, hashtags), Prefixed(AT, mentions), phrases, now);

      topTrends := MostCommon(10);
    }

    /** `for item in tags: self._add_trend(marker + item, now)`, over the set in some order. */
    method AddTagTrends(tags: set<string>, marker: char, now: Time) returns (order: seq<string>)
      requires Valid()
      modifies this
      ensures Valid()
      ensures Enumerates(order, tags)
      ensures trendData == old(trendData) + Entries(Prefixed(marker, order))
      ensures trendTimestamps == old(trendTimestamps) + Repeat(now, |order|)
    {
      order := [];
      var remaining := tags;
      while remaining != {}
        invariant Valid()
        invariant remaining <= tags
        invariant Enumerates(order, tags - remaining)
        invariant trendData == old(trendData) + Entries(Prefixed(marker, order))
        invariant trendTimestamps == old(trendTimestamps) + Repeat(now, |order|)
        decreases remaining
      {
        var item :| item in remaining;
        AddTrend([marker] + item, now);
        EntriesConcat(Prefixed(marker, order), [[marker] + item]);
        assert Prefixed(marker, order) + [[marker] + item] == Prefixed(marker, order + [item]);
        assert Repeat(now, |order|) + [now] == Repeat(now, |order| + 1);
        order := order + [item];
        remaining := remaining - {item};
      }
    }

    /** `for phrase in phrases: self._add_trend(phrase, now)` */
    method AddPhraseTrends(phrases: seq<string>, now: Time)
      requires Valid()
      modifies this
      ensures Valid()
      ensures trendData == old(trendData) + Entries(phrases)
      ensures trendTimestamps == old(trendTimestamps) + Repeat(now, |phrases|)
    {
      for i := 0 to |phrases|
        invariant Valid()
        invariant trendData == old(trendData) + Entries(phrases[..i])
        invariant trendTimestamps == old(trendTimestamps) + Repeat(now, i)
      {
        AddTrend(phrases[i], now);
        EntriesConcat(phrases[..i], [phrases[i]]);
        assert phrases[..i] + [phrases[i]] == phrases[..i + 1];
        assert Repeat(now, i) + [now] == Repeat(now, i + 1);
      }
      assert phrases[..|phrases|] == phrases;
    }

    /**
     * `self.trends.most_common(n)`: repeatedly takes a key of largest count
     * among those not yet taken; equal counts may come in any order.
     */
    method MostCommon(n: nat) returns (top: seq<(string, int)>)
      ensures IsMostCommon(top, trends, n)
    {
      top := [];
      var rest := trends.Keys;
      while |top| < n && rest != {}
        invariant TakenSoFar(top, rest, trends)
        invariant |rest| + |top| == |trends| && |top| <= n
        decreases |rest|
      {
        MaxKeyExists(rest, trends);
        var key :| key in rest && forall j :: j in rest ==> trends[j] <= trends[key];
        TakeLargest(top, rest, trends, key);
        top := top + [(key, trends[key])];
        rest := rest - {key};
      }
      TakenAll(top, rest, trends, n);
    }
  }

  /** Seeding one more trend appends its six keys and its six timestamps. */
  lemma SeedStep(data: seq<seq<string>>, times: seq<Time>, sample: seq<string>, i: nat, now: Time)
    requires i < |sample|
    ensures data + Entries(SeedKeys(sample[..i])) + Entries(Repeat(sample[i], 6))
         == data + Entries(SeedKeys(sample[..i + 1]))
    ensures times + SeedTimes(now, i) + [now] + Repeat(now - HALF_HOUR, 5) == times + SeedTimes(now, i + 1)
  {
    assert sample[..i + 1][..i] == sample[..i];
    EntriesConcat(SeedKeys(sample[..i]), Repeat(sample[i], 6));
  }

  /** One more `_add_trend` of the same key extends the run of its entries and of the later timestamps. */
  lemma RepeatStep(data: seq<seq<string>>, times: seq<Time>, x: string, first: Time, later: Time, n: nat)
    ensures data + Entries(Repeat(x, n)) + [[x]] == data + Entries(Repeat(x, n + 1))
    ensures times + [first] + Repeat(later, n) + [later] == times + [first] + Repeat(later, n + 1)
    ensures n == 0 ==> times + [first] == times + [first] + Repeat(later, n)
  {
    assert Repeat(x, n) + [x] == Repeat(x, n + 1);
    EntriesConcat(Repeat(x, n), [x]);
    assert Repeat(later, n) + [later] == Repeat(later, n + 1);
  }

  /** Appending the entries of three key lists one after another appends the entries of their concatenation. */
  lemma AppendedInOrder(data: seq<seq<string>>, times: seq<Time>, a: seq<string>, b: seq<string>, c: seq<string>, now: Time)
    ensures data + Entries(a) + Entries(b) + Entries(c) == data + Entries(a + b + c)
    ensures times + Repeat(now, |a|) + Repeat(now, |b|) + Repeat(now, |c|) == times + Repeat(now, |a + b + c|)
    ensures Bag(data + Entries(a + b + c)) == Bag(data) + multiset(a + b + c)
  {
    EntriesConcat(a, b);
    EntriesConcat(a + b, c);
    assert data + Entries(a) + Entries(b) + Entries(c) == data + (Entries(a) + Entries(b) + Entries(c));
    RepeatConcat(now, |a|, |b|);
    RepeatConcat(now, |a| + |b|, |c|);
    assert times + Repeat(now, |a|) + Repeat(now, |b|) + Repeat(now, |c|)
        == times + (Repeat(now, |a|) + Repeat(now, |b|) + Repeat(now, |c|));
    BagConcat(data, Entries(a + b + c));
    BagOfEntries(a + b + c);
  }

  /**
   * What one `analyze_trends` call adds to a key's count: exactly 1 for each
   * distinct hashtag and each distinct mention, however often it occurs in the
   * text, and one per occurrence for a phrase.
   */
  lemma AddedKeyCounts(text: string, hashtags: seq<string>, mentions: seq<string>)
    requires Enumerates(hashtags, Hashtags(Lower(text)))
    requires Enumerates(mentions, Mentions(Lower(text)))
    ensures forall h :: h in Hashtags(Lower(text)) ==> multiset(AddedKeys(hashtags, mentions, text))[[HASH] + h] == 1
    ensures forall m :: m in Mentions(Lower(text)) ==> multiset(AddedKeys(hashtags, mentions, text))[[AT] + m] == 1
    ensures forall p :: p in Phrases(Words(Lower(text))) ==>
              multiset(AddedKeys(hashtags, mentions, text))[p] == multiset(Phrases(Words(Lower(text))))[p]
  {
    var lowered := Lower(text);
    var phrases := Phrases(Words(lowered));
    PhrasesStartWithWordChar(lowered);
    assert NoDup(hashtags) && NoDup(mentions);
    KeyCounts(hashtags, mentions, phrases);
  }

  /** Nothing else is added: every added key is a hashtag key, a mention key or a phrase of the text. */
  lemma AddedKeysOrigin(text: string, hashtags: seq<string>, mentions: seq<string>, k: string)
    requires Enumerates(hashtags, Hashtags(Lower(text)))
    requires Enumerates(mentions, Mentions(Lower(text)))
    requires multiset(AddedKeys(hashtags, mentions, text))[k] > 0
    ensures || (exists h :: h in Hashtags(Lower(text)) && k == [HASH] + h)
            || (exists m :: m in Mentions(Lower(text)) && k == [AT] + m)
            || k in Phrases(Words(Lower(text)))
  {
    var phrases := Phrases(Words(Lower(text)));
    var j := KeyOrigin(hashtags, mentions, phrases, k);
    if j < |hashtags| {
      assert hashtags[j] in Hashtags(Lower(text));
    } else if j < |hashtags| + |mentions| {
      assert mentions[j - |hashtags|] in Mentions(Lower(text));
    } else {
      assert phrases[j - |hashtags| - |mentions|] == k;
    }
  }

  /** Keys are counted by kind: each hashtag and mention key once, each phrase as often as it occurs. */
  lemma KeyCounts(hashtags: seq<string>, mentions: seq<string>, phrases: seq<string>)
    requires NoDup(hashtags) && NoDup(mentions)
    requires forall i :: 0 <= i < |phrases| ==> phrases[i] != [] && IsWordChar(phrases[i][0])
    ensures var added := multiset(Prefixed(HASH, hashtags) + Prefixed(AT, mentions) + phrases);
            && (forall h :: h in hashtags ==> added[[HASH] + h] == 1)
            && (forall m :: m in mentions ==> added[[AT] + m] == 1)
            && (forall p :: p in phrases ==> added[p] == multiset(phrases)[p])
  {
    var tagKeys, atKeys := Prefixed(HASH, hashtags), Prefixed(AT, mentions);
    PrefixedNoDup(HASH, hashtags);
    PrefixedNoDup(AT, mentions);
    PrefixedStart(HASH, hashtags);
    PrefixedStart(AT, mentions);
    forall h | h in hashtags
      ensures multiset(tagKeys + atKeys + phrases)[[HASH] + h] == 1
    {
      var i :| 0 <= i < |hashtags| && hashtags[i] == h;
      assert tagKeys[i] == [HASH] + h;
      NoDupCount(tagKeys, [HASH] + h);
      NotAmong([HASH] + h, atKeys);
      NotAmong([HASH] + h, phrases);
    }
    forall m | m in mentions
      ensures multiset(tagKeys + atKeys + phrases)[[AT] + m] == 1
    {
      var i :| 0 <= i < |mentions| && mentions[i] == m;
      assert atKeys[i] == [AT] + m;
      NoDupCount(atKeys, [AT] + m);
      NotAmong([AT] + m, tagKeys);
      NotAmong([AT] + m, phrases);
    }
    forall p | p in phrases
      ensures multiset(tagKeys + atKeys + phrases)[p] == multiset(phrases)[p]
    {
      NotAmong(p, tagKeys);
      NotAmong(p, atKeys);
    }
  }

  /** A key that was added comes from one of the three lists, at the returned position. */
  lemma KeyOrigin(hashtags: seq<string>, mentions: seq<string>, phrases: seq<string>, k: string) returns (j: int)
    requires multiset(Prefixed(HASH, hashtags) + Prefixed(AT, mentions) + phrases)[k] > 0
    ensures 0 <= j < |hashtags| + |mentions| + |phrases|
    ensures j < |hashtags| ==> k == [HASH] + hashtags[j]
    ensures |hashtags| <= j < |hashtags| + |mentions| ==> k == [AT] + mentions[j - |hashtags|]
    ensures |hashtags| + |mentions| <= j ==> k == phrases[j - |hashtags| - |mentions|]
  {
    var all := Prefixed(HASH, hashtags) + Prefixed(AT, mentions) + phrases;
    assert k in all;
    j :| 0 <= j < |all| && all[j] == k;
  }

  lemma PrefixedStart(marker: char, items: seq<string>)
    ensures forall i :: 0 <= i < |items| ==> Prefixed(marker, items)[i] != [] && Prefixed(marker, items)[i][0] == marker
  {
  }

  /** A key is absent from a list whose every element starts with a different character. */
  lemma NotAmong(key: string, xs: seq<string>)
    requires key != []
    requires forall i :: 0 <= i < |xs| ==> xs[i] != [] && xs[i][0] != key[0]
    ensures multiset(xs)[key] == 0
  {
    forall i | 0 <= i < |xs| ensures xs[i] != key {
      assert xs[i][0] != key[0];
    }
  }

  /** Phrases start with a word character, so none is a hashtag or mention key. */
  lemma PhrasesStartWithWordChar(lowered: string)
    ensures forall i :: 0 <= i < |Phrases(Words(lowered))| ==>
              Phrases(Words(lowered))[i] != [] && IsWordChar(Phrases(Words(lowered))[i][0])
  {
    var words := Words(lowered);
    WordsAreRuns(lowered);
    forall i | 0 <= i < |Phrases(words)| ensures Phrases(words)[i] != [] && IsWordChar(Phrases(words)[i][0]) {
      PhraseStartsWithWordChar(words, i);
    }
  }

  lemma PrefixedNoDup(marker: char, items: seq<string>)
    requires NoDup(items)
    ensures NoDup(Prefixed(marker, items))
  {
    var r := Prefixed(marker, items);
    forall i, j | 0 <= i < j < |r| ensures r[i] != r[j] {
      assert r[i][1..] == items[i];
      assert r[j][1..] == items[j];
    }
  }
}

/**
 * The specification side of the trend window kept by `Analyzer`: the multiset
 * of keys held by the entry list, the frequency map it determines, the stale
 * prefix that eviction removes, the seed data, and what "the ten most common"
 * means.
 */
module TrendWindow {

  /** A `datetime`, as microseconds on one clock. */
  type Time = int

  const MICROS_PER_MINUTE: int := 60 * 1000000

  /** `trend_window = timedelta(hours=24)` */
  const WINDOW: int := 24 * 60 * MICROS_PER_MINUTE

  /** `timedelta(minutes=30)`, the age of five of the six seed insertions. */
  const HALF_HOUR: int := 30 * MICROS_PER_MINUTE

  function Repeat<T>(x: T, n: nat): (r: seq<T>)
    ensures |r| == n
    ensures forall i :: 0 <= i < n ==> r[i] == x
  {
    seq(n, _ => x)
  }

  lemma RepeatConcat<T>(x: T, p: nat, q: nat)
    ensures Repeat(x, p) + Repeat(x, q) == Repeat(x, p + q)
  {
  }

  predicate NoDup<T(==)>(xs: seq<T>) {
    forall i, j :: 0 <= i < j < |xs| ==> xs[i] != xs[j]
  }

  /** `xs` lists every element of `s` exactly once: one iteration order of the set. */
  ghost predicate Enumerates(xs: seq<string>, s: set<string>) {
    NoDup(xs) && forall x :: x in xs <==> x in s
  }

  // ---------------------------------------------------------------------------
  // Entries and counts

  /** One `[item]` entry per key, in order. */
  function Entries(keys: seq<string>): (r: seq<seq<string>>)
    ensures |r| == |keys|
    ensures forall i :: 0 <= i < |keys| ==> r[i] == [keys[i]]
  {
    seq(|keys|, i requires 0 <= i < |keys| => [keys[i]])
  }

  lemma EntriesConcat(a: seq<string>, b: seq<string>)
    ensures Entries(a + b) == Entries(a) + Entries(b)
  {
  }

  /** `[marker + item for item in items]` */
  function Prefixed(marker: char, items: seq<string>): (r: seq<string>)
    ensures |r| == |items|
    ensures forall i :: 0 <= i < |items| ==> r[i] == [marker] + items[i]
  {
    seq(|items|, i requires 0 <= i < |items| => [marker] + items[i])
  }

  /** Every key held by the entry list, with multiplicity. */
  function Bag(data: seq<seq<string>>): multiset<string> {
    if data == [] then multiset{} else multiset(data[0]) + Bag(data[1..])
  }

  lemma {:induction false} BagConcat(a: seq<seq<string>>, b: seq<seq<string>>)
    ensures Bag(a + b) == Bag(a) + Bag(b)
  {
    if a == [] {
      assert a + b == b;
    } else {
      assert (a + b)[0] == a[0];
      assert (a + b)[1..] == a[1..] + b;
      BagConcat(a[1..], b);
    }
  }

  lemma {:induction false} BagOfEntries(keys: seq<string>)
    ensures Bag(Entries(keys)) == multiset(keys)
  {
    if keys == [] {
    } else {
      assert keys == [keys[0]] + keys[1..];
      assert Entries(keys) == [[keys[0]]] + Entries(keys[1..]);
      BagConcat([[keys[0]]], Entries(keys[1..]));
      BagOfEntries(keys[1..]);
    }
  }

  /** The number of entries that are exactly `[key]`. */
  function Occurrences(data: seq<seq<string>>, key: string): nat {
    if data == [] then 0 else (if data[0] == [key] then 1 else 0) + Occurrences(data[1..], key)
  }

  /** When every entry holds one key, a key's multiplicity is the number of entries holding it. */
  lemma {:induction false} BagIsOccurrences(data: seq<seq<string>>, key: string)
    requires forall i :: 0 <= i < |data| ==> |data[i]| == 1
    ensures Bag(data)[key] == Occurrences(data, key)
  {
    if data != [] {
      assert data[0] == [data[0][0]];
      BagIsOccurrences(data[1..], key);
    }
  }

  /**
   * For one-key entries, a key is in the frequency map exactly when some entry
   * holds it, and its count is the number of entries holding it, so it is positive.
   */
  lemma CountsAreOccurrences(data: seq<seq<string>>, key: string)
    requires forall i :: 0 <= i < |data| ==> |data[i]| == 1
    ensures key in Counts(Bag(data)) <==> Occurrences(data, key) > 0
    ensures key in Counts(Bag(data)) ==> Counts(Bag(data))[key] == Occurrences(data, key) > 0
  {
    BagIsOccurrences(data, key);
  }

  /** The frequency map a multiset determines: its keys are the present elements, each with its multiplicity. */
  function Counts(b: multiset<string>): map<string, int> {
    map k | k in b :: b[k]
  }

  lemma CountsAdd(b: multiset<string>, x: string)
    ensures Counts(b + multiset{x}) == Counts(b)[x := b[x] + 1]
  {
    var l, r := Counts(b + multiset{x}), Counts(b)[x := b[x] + 1];
    assert l.Keys == r.Keys;
  }

  /**
   * Appending the entry `[item]` is the `Counter` step `trends[item] += 1`
   * on the frequency map of the entries.
   */
  lemma CountsAppend(data: seq<seq<string>>, item: string)
    ensures var before := Counts(Bag(data));
            Counts(Bag(data + [[item]])) == before[item := (if item in before then before[item] else 0) + 1]
  {
    BagConcat(data, [[item]]);
    assert Bag([[item]]) == multiset{item};
    CountsAdd(Bag(data), item);
  }

  lemma CountsRemove(b: multiset<string>, x: string)
    requires x in b
    ensures Counts(b - multiset{x}) == if b[x] == 1 then Counts(b) - {x} else Counts(b)[x := b[x] - 1]
  {
    var l := Counts(b - multiset{x});
    var r := if b[x] == 1 then Counts(b) - {x} else Counts(b)[x := b[x] - 1];
    assert l.Keys == r.Keys;
  }

  /**
   * Taking one occurrence of `item` out of the entries is the `Counter` step
   * `trends[item] -= 1`, followed by deleting the key when it reaches zero or less.
   */
  lemma CountsDecrement(b: multiset<string>, item: string)
    ensures var before := Counts(b + multiset{item});
            var c := (if item in before then before[item] else 0) - 1;
            Counts(b) == if c <= 0 then before - {item} else before[item := c]
  {
    var full := b + multiset{item};
    assert full - multiset{item} == b;
    CountsRemove(full, item);
  }

  // ---------------------------------------------------------------------------
  // Eviction

  /**
   * The number of leading timestamps strictly before `cutoff`: the entries
   * the eviction loop pops before it meets one that is not older.
   */
  function StalePrefix(ts: seq<Time>, cutoff: Time): (k: nat)
    ensures k <= |ts|
    ensures forall i :: 0 <= i < k ==> ts[i] < cutoff
    ensures k < |ts| ==> ts[k] >= cutoff
  {
    if ts != [] && ts[0] < cutoff then 1 + StalePrefix(ts[1..], cutoff) else 0
  }

  /** After the stale prefix is gone, a second eviction with the same cutoff removes nothing. */
  lemma StalePrefixIdempotent(ts: seq<Time>, cutoff: Time)
    ensures StalePrefix(ts[StalePrefix(ts, cutoff)..], cutoff) == 0
  {
  }

  predicate Sorted(ts: seq<Time>) {
    forall i, j :: 0 <= i < j < |ts| ==> ts[i] <= ts[j]
  }

  /** On timestamps in insertion order, every entry that survives eviction is within the window. */
  lemma SortedEvictionIsComplete(ts: seq<Time>, cutoff: Time)
    requires Sorted(ts)
    ensures forall i :: StalePrefix(ts, cutoff) <= i < |ts| ==> ts[i] >= cutoff
  {
  }

  // ---------------------------------------------------------------------------
  // Seed data

  /** The ten trends the constructor inserts. */
  const SAMPLE_TRENDS: seq<string> := [
    "#AI", "#DataScience", "#Python",
    "machine learning", "artificial intelligence",
    "data analytics", "#Technology", "#Innovation",
    "deep learning", "neural networks"
  ]

  /** The keys the seeding inserts: each trend six times in a row. */
  function SeedKeys(trends: seq<string>): seq<string> {
    if trends == [] then []
    else SeedKeys(trends[..|trends| - 1]) + Repeat(trends[|trends| - 1], 6)
  }

  /** The timestamps of the seeding: per trend, one at `now` and five half an hour earlier. */
  function SeedTimes(now: Time, n: nat): seq<Time> {
    if n == 0 then [] else SeedTimes(now, n - 1) + [now] + Repeat(now - HALF_HOUR, 5)
  }

  lemma {:induction false} SeedKeysCount(trends: seq<string>, key: string)
    ensures multiset(SeedKeys(trends))[key] == 6 * multiset(trends)[key]
    decreases |trends|
  {
    if trends != [] {
      var init, last := trends[..|trends| - 1], trends[|trends| - 1];
      assert trends == init + [last];
      SeedKeysCount(init, key);
      assert Repeat(last, 6) == [last, last, last, last, last, last];
    }
  }

  lemma {:induction false} NoDupCount<T>(xs: seq<T>, x: T)
    requires NoDup(xs) && x in xs
    ensures multiset(xs)[x] == 1
  {
    if xs[0] == x {
      assert xs == [x] + xs[1..];
      assert x !in xs[1..];
    } else {
      assert xs == [xs[0]] + xs[1..];
      NoDupCount(xs[1..], x);
    }
  }

  lemma SampleTrendsDistinct()
    ensures NoDup(SAMPLE_TRENDS)
  {
  }

  /** The seeding gives every sample trend a count of six and nothing else a count. */
  lemma SeedCounts()
    ensures forall k :: k in Counts(multiset(SeedKeys(SAMPLE_TRENDS))) <==> k in SAMPLE_TRENDS
    ensures forall k :: k in SAMPLE_TRENDS ==> Counts(multiset(SeedKeys(SAMPLE_TRENDS)))[k] == 6
  {
    SampleTrendsDistinct();
    forall k
      ensures multiset(SeedKeys(SAMPLE_TRENDS))[k] == if k in SAMPLE_TRENDS then 6 else 0
    {
      SeedKeysCount(SAMPLE_TRENDS, k);
      if k in SAMPLE_TRENDS {
        NoDupCount(SAMPLE_TRENDS, k);
      }
    }
  }

  lemma {:induction false} SeedTimesAt(now: Time, n: nat, i: int)
    requires 0 <= i < 6 * n
    ensures |SeedTimes(now, n)| == 6 * n
    ensures SeedTimes(now, n)[i] == if i % 6 == 0 then now else now - HALF_HOUR
  {
    var prev := SeedTimes(now, n - 1);
    SeedTimesLength(now, n - 1);
    if i < 6 * (n - 1) {
      SeedTimesAt(now, n - 1, i);
    } else {
      assert i % 6 == i - 6 * (n - 1);
    }
  }

  lemma {:induction false} SeedTimesLength(now: Time, n: nat)
    ensures |SeedTimes(now, n)| == 6 * n
  {
    if n > 0 {
      SeedTimesLength(now, n - 1);
    }
  }

  /**
   * The seed timestamps are not in insertion order, so eviction, which only
   * drops a prefix, can keep entries that are older than the window: with the
   * cutoff just after `now - 30min`, the first entry (at `now`) stops the loop
   * and the older seed entries behind it stay counted.
   */
  lemma SeedKeepsStaleEntries(now: Time, cutoff: Time)
    requires now - HALF_HOUR < cutoff <= now
    ensures StalePrefix(SeedTimes(now, |SAMPLE_TRENDS|), cutoff) == 0
    ensures forall i :: 0 <= i < |SeedTimes(now, |SAMPLE_TRENDS|)| && i % 6 != 0 ==>
              SeedTimes(now, |SAMPLE_TRENDS|)[i] < cutoff
    ensures !Sorted(SeedTimes(now, |SAMPLE_TRENDS|))
  {
    var ts := SeedTimes(now, |SAMPLE_TRENDS|);
    SeedTimesLength(now, |SAMPLE_TRENDS|);
    SeedTimesAt(now, |SAMPLE_TRENDS|, 0);
    SeedTimesAt(now, |SAMPLE_TRENDS|, 1);
    forall i | 0 <= i < |ts| && i % 6 != 0 ensures ts[i] < cutoff {
      SeedTimesAt(now, |SAMPLE_TRENDS|, i);
    }
  }

  // ---------------------------------------------------------------------------
  // The most common keys

  function KeysOf(top: seq<(string, int)>): set<string> {
    set i | 0 <= i < |top| :: top[i].0
  }

  lemma KeysOfAppend(top: seq<(string, int)>, p: (string, int))
    ensures KeysOf(top + [p]) == KeysOf(top) + {p.0}
  {
    var t := top + [p];
    forall k | k in KeysOf(t) ensures k in KeysOf(top) + {p.0} {
      var i :| 0 <= i < |t| && t[i].0 == k;
      if i < |top| {
        assert top[i].0 == k;
      }
    }
    forall k | k in KeysOf(top) + {p.0} ensures k in KeysOf(t) {
      if k == p.0 {
        assert t[|top|].0 == k;
      } else {
        var i :| 0 <= i < |top| && top[i].0 == k;
        assert t[i].0 == k;
      }
    }
  }

  /**
   * `top` is an answer of `Counter.most_common(n)` on `counts`: `min(n, |counts|)`
   * distinct keys with their counts, by count descending, and no key left out
   * has a larger count than one included.  Ties may come in any order.
   */
  ghost predicate IsMostCommon(top: seq<(string, int)>, counts: map<string, int>, n: nat) {
    && |top| == (if |counts| < n then |counts| else n)
    && (forall i :: 0 <= i < |top| ==> top[i].0 in counts && top[i].1 == counts[top[i].0])
    && (forall i, j :: 0 <= i < j < |top| ==> top[i].0 != top[j].0 && top[i].1 >= top[j].1)
    && (forall k, i :: k in counts && k !in KeysOf(top) && 0 <= i < |top| ==> counts[k] <= top[i].1)
  }

  /**
   * A partial answer: `top` holds the keys already taken, with their counts, by
   * count descending, and no key still in `rest` has a larger count.
   */
  ghost predicate TakenSoFar(top: seq<(string, int)>, rest: set<string>, counts: map<string, int>) {
    && counts.Keys == rest + KeysOf(top)
    && rest !! KeysOf(top)
    && (forall i :: 0 <= i < |top| ==> top[i].0 in counts && top[i].1 == counts[top[i].0])
    && (forall i, j :: 0 <= i < j < |top| ==> top[i].0 != top[j].0 && top[i].1 >= top[j].1)
    && (forall k, i :: k in rest && 0 <= i < |top| ==> counts[k] <= top[i].1)
  }

  /** Taking a key of largest count among the rest extends a partial answer. */
  lemma TakeLargest(top: seq<(string, int)>, rest: set<string>, counts: map<string, int>, key: string)
    requires TakenSoFar(top, rest, counts)
    requires key in rest && forall j :: j in rest ==> counts[j] <= counts[key]
    ensures TakenSoFar(top + [(key, counts[key])], rest - {key}, counts)
  {
    var top' := top + [(key, counts[key])];
    KeysOfAppend(top, (key, counts[key]));
    forall i, j | 0 <= i < j < |top'| ensures top'[i].0 != top'[j].0 && top'[i].1 >= top'[j].1 {
      if j == |top| {
        assert top[i].0 in KeysOf(top);
      }
    }
  }

  /** A partial answer of the right length, or one that has used up every key, is complete. */
  lemma TakenAll(top: seq<(string, int)>, rest: set<string>, counts: map<string, int>, n: nat)
    requires TakenSoFar(top, rest, counts)
    requires |rest| + |top| == |counts| && |top| <= n && (|top| == n || rest == {})
    ensures IsMostCommon(top, counts, n)
  {
  }

  lemma {:induction false} MaxKeyExists(s: set<string>, counts: map<string, int>)
    requires s != {} && s <= counts.Keys
    ensures exists k :: k in s && forall j :: j in s ==> counts[j] <= counts[k]
    decreases |s|
  {
    var x :| x in s;
    if s != {x} {
      MaxKeyExists(s - {x}, counts);
      var y :| y in s - {x} && forall j :: j in s - {x} ==> counts[j] <= counts[y];
      if counts[x] > counts[y] {
        assert forall j :: j in s ==> counts[j] <= counts[x];
      } else {
        assert forall j :: j in s ==> counts[j] <= counts[y];
      }
    } else {
      assert forall j :: j in s ==> counts[j] <= counts[x];
    }
  }
}

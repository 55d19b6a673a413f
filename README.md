# Trend window and stream listener, modelled in Dafny

This project models the ingestion core of a social-media trend monitor. It has two parts.

- **`Analyzer`** (analyzer.py) keeps a sliding 24-hour trend window. It has three parts:
  - a frequency map `trends` (a `Counter`);
  - a list of insertion times;
  - a parallel list of one-key entries.

  `_add_trend` appends one entry and increments its key's count. `_clean_old_trends` pops stale entries from the front and decrements or deletes their keys. `analyze_trends` does four things in order:
  - evicts stale entries;
  - lower-cases the text;
  - extracts the set of hashtags, the set of mentions and the list of contiguous 3-word phrases, adding each one as a trend;
  - returns the ten most common trends.

  The constructor seeds ten sample trends six times each. `analyze_sentiment` labels a polarity score by its sign and falls back to a neutral score when analysis fails.
- **`StreamListener`** (stream_listener.py) chooses between a live filtered stream and a sample-data stream. It keeps the flags `running` and `use_sample_data`. It falls back to sample mode for good on a rate-limit error (420) or when the live setup raises. In live mode it registers one stream rule, the keywords joined by `" OR "`.

Files:

- `wrappers.dfy`: `Option`.
- `text_features.dfy`: lower-casing, the `#(\w+)`, `@(\w+)` and `\b\w+\b` scans, and the 3-word phrases. All pure functions with their lemmas.
- `sentiment.dfy`: the label rule and the fallback score.
- `trend_window.dfy`: the specification functions the `Analyzer` class is proved against:
  - `Bag`, the multiset of keys held by the entries;
  - `Counts`, the frequency map of a multiset;
  - `StalePrefix`, the number of leading entries older than the cutoff;
  - `SeedKeys` and `SeedTimes`, the seeded state;
  - `IsMostCommon`, what `most_common(n)` may answer.
- `analyzer.dfy`: the class `Analyzer` with fields `trends`, `trendTimestamps` and `trendData`, plus the lemmas about one `analyze_trends` call. Its invariant `Valid()` says three things:
  - the two lists have equal length;
  - every entry holds one key;
  - `trends == Counts(Bag(trendData))`, so each count is the number of entries holding that key.
- `stream_listener.dfy`: the class `StreamListener`.

Modelling choices:

- Time is an integer number of microseconds, the resolution of `datetime`.
- Every `datetime.now()` becomes a parameter. `analyze_trends` reads the clock twice: once inside the eviction (analyzer.py:97) and once for the insertions (analyzer.py:68). So `AnalyzeTrends` takes `cleanTime` and `now`.
- The regex class `\w` is ASCII letters, digits and `_`, and `str.lower` is ASCII lower-casing.
- Python iterates a set in an unspecified order. `AddTagTrends` picks each next element with `:|` and returns the order it used. That order is also what `list(hashtags)` returns, because the set is not changed in between.
- The tweepy client calls become actions on two fields: `rules` (the stream rules the service holds) and `filtering` (the live stream is connected). Which call raises, if any, is a parameter of `Start`.
- Launching the sample thread is counted in `sampleStreams`. One pass of its loop is `SampleStreamStep`. The texts handed on for analysis and storage are recorded in `processed`.

Three behaviours of the code worth knowing:

- **The cutoff entry is kept.** The loop at analyzer.py:101 pops only entries strictly before `now - 24h` (a strict `<`), so an entry exactly 24 hours old stays counted (`StalePrefix`).
- **One entry per key.** Each hashtag, each mention and each phrase occurrence gets its own one-key entry (analyzer.py:69-74). A hashtag repeated in one text counts once, because the tags form a set; a phrase repeated in one text counts once per occurrence (`AddedKeyCounts`).
- **Seed entries older than the window can stay counted.** Eviction only drops a prefix, and the seeded timestamps are not in time order: one at `now`, then five at `now - 30min`, for each trend. Once the cutoff passes `now - 30min` but not `now`, the first entry stops the loop and the older seed entries behind it stay counted (`SeedKeepsStaleEntries`). For entries in time order, no stale entry survives (`SortedEvictionIsComplete`).

## Model

| member | source | states |
|---|---|---|
| TextFeatures.LowerChar | analyzer.py:59 | an upper-case ASCII letter becomes the same letter in lower case (code point + 32); every other character is unchanged; the result is never upper-case and is a word character exactly when the input is |
| TextFeatures.Lower | analyzer.py:59 | `text.lower()` keeps the length and lower-cases every character in place |
| TextFeatures.LowerIdempotent | analyzer.py:59 | lower-casing twice is lower-casing once |
| TextFeatures.LeadingRun | analyzer.py:60-61 | the greedy `\w+` match is a prefix made of word characters and stops before a non-word character or at the end |
| TextFeatures.Words | analyzer.py:64 | `re.findall(r'\b\w+\b', text)` as the maximal runs of word characters, left to right; no contract of its own, pinned down by `WordsAreRuns`, `WordsOfRun` and `WordsSplit` |
| TextFeatures.Tagged | analyzer.py:60-61 | `re.findall` of a marker followed by `(\w+)`, resuming after each match; no contract of its own, pinned down by `TaggedSound`, `TaggedComplete` and `TaggedSpec` |
| TextFeatures.Hashtags | analyzer.py:60 | `t` is a hashtag iff some `#` in the text is followed by the maximal word-character run `t` |
| TextFeatures.Mentions | analyzer.py:61 | `t` is a mention iff some `@` in the text is followed by the maximal word-character run `t` |
| TextFeatures.WordsAreRuns | analyzer.py:64 | every word `\b\w+\b` finds is a non-empty run of word characters |
| TextFeatures.WordsOfRun | analyzer.py:64 | a non-empty string of word characters is exactly one word |
| TextFeatures.WordsSplit | analyzer.py:64 | a non-word character splits the word list: the words of `a + [c] + b` are the words of `a` followed by those of `b` |
| TextFeatures.TaggedSound | analyzer.py:60-61 | every tag the scan yields is the word-character run right after some marker in the text, and the lemma returns that marker's position |
| TextFeatures.TaggedComplete | analyzer.py:60-61 | for a non-word marker, the run after every marker that is followed by a word character is yielded by the scan |
| TextFeatures.TaggedSpec | analyzer.py:60-61 | `t` is found by `#(\w+)` (or `@(\w+)`) iff some marker in the text is followed by the maximal run `t` |
| TextFeatures.TagsOfLowered | analyzer.py:59-61 | every hashtag or mention found in the lower-cased text is non-empty, all word characters and has no upper-case letter |
| TextFeatures.LowerIgnoresCase | analyzer.py:59 | two texts of equal length whose characters pairwise agree up to the case of an ASCII letter lower-case to the same text |
| TextFeatures.FeaturesIgnoreCase | analyzer.py:59-64 | texts that differ only in the case of their letters give the same hashtags, mentions and words |
| TextFeatures.Phrase | analyzer.py:65 | `' '.join` of three words; no contract of its own, its shape is stated by `PhrasesSpec` |
| TextFeatures.Phrases | analyzer.py:65 | the phrase list comprehension; no contract of its own, pinned down by `PhrasesSpec` |
| TextFeatures.PhrasesSpec | analyzer.py:65 | there are `len(words) - 2` phrases when there are at least three words and none otherwise; phrase `i` is words `i`, `i+1`, `i+2` joined by single spaces |
| TextFeatures.PhraseStartsWithWordChar | analyzer.py:64-65 | every phrase starts with a word character, so no phrase can equal a `#` or `@` key |
| Sentiment.LabelOf | analyzer.py:39 | the label is positive iff polarity > 0, negative iff polarity < 0, neutral iff polarity is 0 |
| Sentiment.AnalyzeSentiment | analyzer.py:34-47 | on success it keeps the polarity and subjectivity and labels by sign; on failure it returns polarity 0, subjectivity 0, neutral |
| TrendWindow.StalePrefix | analyzer.py:101 | the loop pops exactly the leading timestamps strictly below the cutoff: all popped ones are older, and the first kept one is at or after the cutoff |
| TrendWindow.StalePrefixIdempotent | analyzer.py:101-107 | after the stale prefix is removed, the same cutoff finds nothing more to remove |
| TrendWindow.SortedEvictionIsComplete | analyzer.py:101 | for timestamps in time order, every entry that survives eviction is within the window |
| TrendWindow.BagIsOccurrences | analyzer.py:111-113 | with one key per entry, a key's multiplicity among the keys is the number of entries `[key]` |
| TrendWindow.CountsAreOccurrences | analyzer.py:101-113 | under the invariant, a key is in the map iff some entry holds it, and its count is the number of entries `[key]`, which is positive |
| TrendWindow.CountsAppend | analyzer.py:111-113 | appending the entry `[item]` is the `Counter` step `trends[item] += 1` on the frequency map |
| TrendWindow.CountsDecrement | analyzer.py:104-107 | removing one occurrence of an item is the `Counter` step `trends[item] -= 1` followed by deleting the key when it reaches ≤ 0 |
| TrendWindow.SeedKeysCount | analyzer.py:23-27 | the seeding inserts every sample trend six times per occurrence in the sample list |
| TrendWindow.SeedCounts | analyzer.py:16-27 | after seeding, the map holds exactly the ten sample trends, each with count 6 |
| TrendWindow.SeedTimesAt | analyzer.py:22-27 | the seeded timestamps are `now` at every sixth position starting from the first, and `now - 30min` at every other position |
| TrendWindow.SeedKeepsStaleEntries | analyzer.py:22-27 | with a cutoff between `now - 30min` and `now`, eviction of the seeded state pops nothing although every non-first seed entry is older than the cutoff, and the seeded timestamps are not sorted |
| TrendWindow.MaxKeyExists | analyzer.py:77 | every non-empty set of keys has one of largest count |
| TrendWindow.TakeLargest | analyzer.py:77 | taking a largest-count key among those not yet taken extends a descending partial answer |
| TrendWindow.TakenAll | analyzer.py:77 | a partial answer with `n` keys, or with every key taken, is a complete `most_common(n)` answer |
| Analyzer.Analyzer.Count | analyzer.py:111 | the `Counter` read `self.trends[item]`, 0 for a missing key; no contract of its own, tied to the entries by `CountIsOccurrences` |
| Analyzer.Analyzer.CountIsOccurrences | analyzer.py:101-113 | under the invariant, `trends[item]` is the number of entries `[item]`, and 0 exactly for a key no entry holds |
| Analyzer.Analyzer.constructor | analyzer.py:7-12 | the new analyzer satisfies the invariant, its entries and timestamps are the seeded ones, and its map holds exactly the ten sample trends with count 6 each |
| Analyzer.Analyzer.InitializeSampleTrends | analyzer.py:14-27 | keeps the invariant and appends, per sample trend in order, six entries of it and the timestamps `now` then five times `now - 30min` |
| Analyzer.Analyzer.AddTrend | analyzer.py:109-113 | keeps the invariant, increments exactly `item`'s count by 1 with every other key unchanged, and appends the timestamp and `[item]` at the end |
| Analyzer.Analyzer.CleanOldTrends | analyzer.py:95-107 | keeps the invariant and drops exactly the stale prefix from both lists, keeping the order of the rest; afterwards no front entry is stale, and when no entry was stale the map is unchanged |
| Analyzer.Analyzer.ForgetEntry | analyzer.py:104-107 | decrementing and deleting the keys of a popped entry turns the frequency map of all keys into that of the keys left |
| Analyzer.Analyzer.AnalyzeTrends | analyzer.py:49-84 | keeps the invariant; returns each distinct hashtag and mention of the lower-cased text once; leaves the kept entries followed by one entry per added key, all at `now`, with the map counting exactly those; returns a `most_common(10)` answer of the new map |
| Analyzer.Analyzer.AddTagTrends | analyzer.py:69-72 | keeps the invariant, visits every element of the set once, and appends one marker-prefixed entry per element in the order visited |
| Analyzer.Analyzer.AddPhraseTrends | analyzer.py:73-74 | keeps the invariant and appends one entry per phrase, in order, all at `now` |
| Analyzer.Analyzer.MostCommon | analyzer.py:77 | returns `min(n, len(trends))` distinct keys with their current counts, by count descending, and no omitted key has a larger count than an included one |
| Analyzer.AddedKeys | analyzer.py:69-74 | the keys one call appends, in order: `#` plus each hashtag, `@` plus each mention, then the phrases; no contract of its own, its counts are stated by `AddedKeyCounts` and `AddedKeysOrigin` |
| Analyzer.AppendedInOrder | analyzer.py:69-74 | adding hashtag keys, then mention keys, then phrases appends their concatenation, and the multiset of keys grows by exactly those keys |
| Analyzer.AddedKeyCounts | analyzer.py:59-74 | a call adds exactly 1 to each distinct hashtag key and each distinct mention key, however often the tag occurs, and one per occurrence to each phrase |
| Analyzer.AddedKeysOrigin | analyzer.py:69-74 | every key a call adds is a `#` hashtag key, an `@` mention key or a phrase of the text |
| Analyzer.PrefixedNoDup | analyzer.py:69-72 | prefixing distinct tags with the same marker keeps them distinct |
| StreamListener.TrackKeywords | stream_listener.py:89-90 | `None` or an empty list gives the four default keywords; any other list is used as given, so the keywords are never empty |
| StreamListener.JoinOr | stream_listener.py:107 | `' OR '.join(keywords)`; no contract of its own, pinned down by `JoinOrConcat`, `JoinOrLength` and `DefaultRule` |
| StreamListener.JoinOrLength | stream_listener.py:107 | the rule is the keywords' characters plus one `" OR "` between each pair of neighbours |
| StreamListener.JoinOrConcat | stream_listener.py:107 | joining two non-empty keyword lists is joining each with one `" OR "` between them |
| StreamListener.DefaultRule | stream_listener.py:87-107 | with no keywords the rule is `python OR data science OR AI OR machine learning` |
| StreamListener.StreamListener.constructor | stream_listener.py:8-20 | a new listener is not running, and it is in sample mode unless a non-empty bearer token is given and client initialisation does not raise |
| StreamListener.StreamListener.OnTweet | stream_listener.py:45-77 | refuses (`false`) and hands nothing on when not running; otherwise accepts (`true`) and hands on the tweet's text when it has one |
| StreamListener.StreamListener.OnError | stream_listener.py:79-85 | status 420 switches to sample mode and returns `false`; any other status returns `true` and changes nothing |
| StreamListener.StreamListener.StartSampleStream | stream_listener.py:118-141 | launches one more sample stream |
| StreamListener.StreamListener.SampleStreamStep | stream_listener.py:120-136 | the sample loop continues iff running, and hands on one generated text only while running |
| StreamListener.StreamListener.Start | stream_listener.py:87-116 | always sets running and never leaves sample mode; in sample mode it only launches the sample stream; in live mode it either ends with the single rule `JoinOr(keywords)` registered and filtering on, or, when a setup call raises, keeps the effects of the earlier calls, switches to sample mode and launches the sample stream |
| StreamListener.StreamListener.Stop | stream_listener.py:143-147 | clears running, and disconnects the live stream only when not in sample mode |

## Left out

- Sentiment.AnalyzeSentiment: TextBlob's polarity and subjectivity computation is a foreign library with float output. The two scores are inputs (`None` when the library raises), and only the sign-based label and the fallback are modelled.
- Analyzer.Analyzer.MostCommon: ties are allowed in any order. `Counter.most_common` orders equal counts by the Counter's current key order (a key deleted at 0 and added again moves to the end), which the model does not track.
- Analyzer.Analyzer.AnalyzeTrends: the `except` branch (analyzer.py:86-93) is not modelled, because nothing in the modelled body can raise. The result's `timestamp` field is not returned. `top_trends` is returned as a list of pairs, in the order `dict(...)` would keep.
- Analyzer.Analyzer.AnalyzeTrends: the date-time formatting (`isoformat`) and the `timedelta` arithmetic are integer microseconds.
- TextFeatures.Lower, TextFeatures.LowerChar, TextFeatures.Tagged, TextFeatures.Words: `\w` and `str.lower` are modelled over ASCII only. Outside ASCII, Python's `lower` can change the length (`'İ'.lower()` is two code points) and its `\w` takes in other letters, so the contracts of these members hold for the ASCII model only.
- Analyzer.Analyzer.AddTrend: every `Analyzer` method is modelled as one atomic step. In the program, the sample thread (a second one when `start` runs again, stream_listener.py:96, 116) and the dashboard's read of `most_common(10)` use the same `Analyzer` with no lock, and `trends[item] += 1` is not atomic across threads. Interleavings are not modelled.
- StreamListener.StreamListener.OnTweet: only the tweet text handed on is recorded. The record's fields (`author_id`, metrics, sentiment, trends) and the calls into the analyzer and the database are not modelled, and neither is the `except` branch (stream_listener.py:75-76), which returns `true` just like the main path.
- StreamListener.StreamListener.SampleStreamStep: `_generate_sample_tweet` is random, so the generated text is a parameter. The daemon thread, `time.sleep` and the error back-off (stream_listener.py:133-136) are not modelled.
- StreamListener.StreamListener.Start: the tweepy calls `get_rules`, `delete_rules`, `add_rules` and `filter` are abstract actions on `rules` and `filtering`; which of them raises first, if any, is a parameter. `filter` blocking the calling thread is not modelled.
- StreamListener.StreamListener.Stop: `disconnect` is the abstract action of clearing `filtering`.
- Log output (`print`) is not modelled.
- dashboard.py, app.py, database.py, config.py, terminal_view.py, sample_data.py and helpers.py are not part of this model. They are presentation, web wiring, SQLite storage, environment loading and file and date helpers.

/**
 * The live/sample mode state machine of `StreamListener` (stream_listener.py).
 *
 * The streaming client's network calls (`get_rules`, `delete_rules`,
 * `add_rules`, `filter`, `disconnect`) are abstract actions on the fields
 * `rules` (the stream rules registered with the service) and `filtering`
 * (the filtered live stream is connected); which call raises, if any, is a
 * parameter of `Start`.  Launching the sample-data thread is counted in
 * `sampleStreams`; one pass of its loop is `SampleStreamStep`.  The texts
 * handed on to the analyzer and the database are recorded in `processed`.
 */
module StreamListener {
  import opened Wrappers

  /** The live-stream setup calls of `start`, in the order they are made. */
  datatype SetupCall = GetRules | DeleteRules | AddRules | Filter

  const DEFAULT_KEYWORDS: seq<string> := ["python", "data science", "AI", "machine learning"]

  const SEPARATOR: string := " OR "

  /** `' OR '.join(keywords)` */
  function JoinOr(keywords: seq<string>): string {
    if keywords == [] then ""
    else if |keywords| == 1 then keywords[0]
    else keywords[0] + SEPARATOR + JoinOr(keywords[1..])
  }

  /** `if not track_keywords: track_keywords = [...]`: `None` and the empty list both fall back to the defaults. */
  function TrackKeywords(trackKeywords: Option<seq<string>>): (r: seq<string>)
    ensures r != []
    ensures trackKeywords.Some? && trackKeywords.value != [] ==> r == trackKeywords.value
    ensures trackKeywords.None? || trackKeywords.value == [] ==> r == DEFAULT_KEYWORDS
  {
    if trackKeywords.None? || trackKeywords.value == [] then DEFAULT_KEYWORDS else trackKeywords.value
  }

  /** The number of characters in all the keywords together. */
  function TotalLength(keywords: seq<string>): nat {
    if keywords == [] then 0 else |keywords[0]| + TotalLength(keywords[1..])
  }

  /** Joining `n` keywords adds `n - 1` separators and nothing else. */
  lemma {:induction false} JoinOrLength(keywords: seq<string>)
    requires keywords != []
    ensures |JoinOr(keywords)| == TotalLength(keywords) + |SEPARATOR| * (|keywords| - 1)
  {
    if |keywords| > 1 {
      JoinOrLength(keywords[1..]);
    }
  }

  /** Joining two non-empty lists is joining each and putting one separator between. */
  lemma {:induction false} JoinOrConcat(a: seq<string>, b: seq<string>)
    requires a != [] && b != []
    ensures JoinOr(a + b) == JoinOr(a) + SEPARATOR + JoinOr(b)
  {
    if |a| == 1 {
      assert (a + b)[1..] == b;
    } else {
      assert (a + b)[1..] == a[1..] + b;
      JoinOrConcat(a[1..], b);
    }
  }

  /** With no keywords given, the stream rule joins the four default keywords. */
  lemma DefaultRule()
    ensures JoinOr(DEFAULT_KEYWORDS)
         == "python" + SEPARATOR + "data science" + SEPARATOR + "AI" + SEPARATOR + "machine learning"
  {
    var d := DEFAULT_KEYWORDS;
    assert d[1..][1..][1..] == ["machine learning"];
  }

  class StreamListener {
    var running: bool
    var useSampleData: bool
    var rules: seq<string>
    var filtering: bool
    var sampleStreams: nat
    var processed: seq<string>

    /**
     * `__init__(api=...)`: live mode only when a non-empty bearer token is given
     * and the client initialisation does not raise.  `registeredRules` are the
     * stream rules the service already holds for these credentials.
     */
    constructor (bearerToken: Option<string>, clientInitRaises: bool, registeredRules: seq<string>)
      ensures !running
      ensures useSampleData <==> (bearerToken.None? || bearerToken.value == "" || clientInitRaises)
      ensures rules == registeredRules && !filtering && sampleStreams == 0 && processed == []
    {
      running := false;
      useSampleData := true;
      rules := registeredRules;
      filtering := false;
      sampleStreams := 0;
      processed := [];
      if bearerToken.Some? && bearerToken.value != "" {
        if !clientInitRaises {
          useSampleData := false;
        }
      }
    }

    /** `on_tweet`: refuses every tweet while not running; otherwise hands on a tweet that has text. */
    method OnTweet(tweetText: Option<string>) returns (accepted: bool)
      modifies this`processed
      ensures accepted == running
      ensures processed == if running && tweetText.Some? then old(processed) + [tweetText.value] else old(processed)
    {
      if !running {
        return false;
      }
      if tweetText.Some? {
        processed := processed + [tweetText.value];
      }
      return true;
    }

    /** `on_error`: status 420 (rate limit) switches to sample data and asks the client to stop. */
    method OnError(status: int) returns (keepGoing: bool)
      modifies this`useSampleData
      ensures keepGoing <==> status != 420
      ensures useSampleData == (old(useSampleData) || status == 420)
    {
      if status == 420 {
        useSampleData := true;
        return false;
      }
      return true;
    }

    /** `_start_sample_stream`: launches the sample-data thread. */
    method StartSampleStream()
      modifies this`sampleStreams
      ensures sampleStreams == old(sampleStreams) + 1
    {
      sampleStreams := sampleStreams + 1;
    }

    /** One pass of the sample thread's `while self.running` loop, processing one generated tweet. */
    method SampleStreamStep(sampleText: string) returns (continues: bool)
      modifies this`processed
      ensures continues == running
      ensures processed == if running then old(processed) + [sampleText] else old(processed)
    {
      if !running {
        return false;
      }
      processed := processed + [sampleText];
      return true;
    }

    /**
     * `start`: defaults the keywords, sets `running`, and in sample mode only
     * launches the sample stream.  In live mode it replaces the registered rules
     * by the OR-join of the keywords and starts filtering; if one of those calls
     * raises (`raises`), the calls before it have taken effect, and the listener
     * switches to sample mode for good and launches the sample stream.
     */
    method Start(trackKeywords: Option<seq<string>>, raises: Option<SetupCall>)
      modifies this
      ensures running
      ensures old(useSampleData) ==> useSampleData
      ensures processed == old(processed)
      ensures old(useSampleData) ==>
                rules == old(rules) && filtering == old(filtering) && sampleStreams == old(sampleStreams) + 1
      ensures !old(useSampleData) ==> LiveSetupSucceeds(old(rules), raises) == !useSampleData
      ensures !old(useSampleData) && !useSampleData ==>
                rules == [JoinOr(TrackKeywords(trackKeywords))] && filtering && sampleStreams == old(sampleStreams)
      ensures !old(useSampleData) && useSampleData ==>
                sampleStreams == old(sampleStreams) + 1 && filtering == old(filtering)
                && rules == RulesAfterFailure(old(rules), JoinOr(TrackKeywords(trackKeywords)), raises.value)
    {
      var keywords := TrackKeywords(trackKeywords);
      running := true;
      if useSampleData {
        StartSampleStream();
        return;
      }
      var failed := false;
      // get_rules
      if raises == Some(GetRules) {
        failed := true;
      }
      // delete_rules, only when rules are registered
      if !failed && rules != [] {
        if raises == Some(DeleteRules) {
          failed := true;
        } else {
          rules := [];
        }
      }
      // add_rules(' OR '.join(keywords))
      if !failed {
        var rule := JoinOr(keywords);
        if raises == Some(AddRules) {
          failed := true;
        } else {
          rules := rules + [rule];
        }
      }
      // filter
      if !failed {
        if raises == Some(Filter) {
          failed := true;
        } else {
          filtering := true;
        }
      }
      if failed {
        useSampleData := true;
        StartSampleStream();
      }
    }

    /** `stop`: clears `running`, and disconnects the live stream only when not in sample mode. */
    method Stop()
      modifies this`running, this`filtering
      ensures !running
      ensures filtering == (old(filtering) && useSampleData)
    {
      running := false;
      if !useSampleData {
        filtering := false;
      }
    }
  }

  /**
   * Whether the live setup gets through: a raising `delete_rules` matters only
   * when rules are registered, since it is not called otherwise.
   */
  function LiveSetupSucceeds(registered: seq<string>, raises: Option<SetupCall>): bool {
    match raises
    case None => true
    case Some(call) => call == DeleteRules && registered == []
  }

  /** The registered rules after the setup call `raised` raised. */
  function RulesAfterFailure(registered: seq<string>, rule: string, raised: SetupCall): seq<string> {
    match raised
    case GetRules => registered
    case DeleteRules => registered
    case AddRules => []
    case Filter => [rule]
  }
}

/**
 * The label rule and the error fallback of `Analyzer.analyze_sentiment`.
 * The polarity and subjectivity scores come from an external sentiment
 * library; here they are inputs, and `None` stands for the library raising.
 */
module Sentiment {
  import opened Wrappers

  datatype Label = Positive | Negative | Neutral

  datatype Score = Score(polarity: real, subjectivity: real, sentiment: Label)

  /** Only the sign of the polarity decides the label. */
  function LabelOf(polarity: real): (l: Label)
    ensures l == Positive <==> polarity > 0.0
    ensures l == Negative <==> polarity < 0.0
    ensures l == Neutral <==> polarity == 0.0
  {
    if polarity > 0.0 then Positive else if polarity < 0.0 then Negative else Neutral
  }

  /** The neutral all-zero score returned when the analysis fails. */
  const NEUTRAL_SCORE: Score := Score(0.0, 0.0, Neutral)

  /**
   * `analyze_sentiment`: the library's scores with their label, or the
   * neutral all-zero score when the library raises.
   */
  function AnalyzeSentiment(analysis: Option<(real, real)>): (r: Score)
    ensures analysis.None? ==> r == Score(0.0, 0.0, Neutral)
    ensures analysis.Some? ==>
              r.polarity == analysis.value.0 && r.subjectivity == analysis.value.1
    ensures r.sentiment == Positive <==> r.polarity > 0.0
    ensures r.sentiment == Negative <==> r.polarity < 0.0
  {
    match analysis
    case None => NEUTRAL_SCORE
    case Some((polarity, subjectivity)) => Score(polarity, subjectivity, LabelOf(polarity))
  }
}

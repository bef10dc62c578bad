/** Social-sentiment aggregation and its volume adjustment
    (`stock_analyzer/sentiment_analyzer.py`), from the point where the
    message list has been fetched. */
module Sentiment {
  import opened Floats
  import Config

  /** The sentiment tag of one message: none (the tag is missing or empty),
      a `basic` label, or a tag without a `basic` label, which makes the
      source raise and report an error. */
  datatype Tag = Untagged | Labelled(basic: string) | Malformed

  datatype Signal = Bullish | Bearish | Neutral

  /** Whether the volume adjustment has been applied, and its result. */
  datatype VolumeAdjustment = NotAdjusted | Adjusted(sentiment: Float, change: Float)

  /** The dictionary the analyser returns, by status. */
  datatype SentimentData =
    | Error
    | InsufficientData
    | NoSentiment
    | Success(average: real, bullishRatio: real, bearishRatio: real,
              messageCount: nat, analyzedCount: nat, signal: Signal,
              volume: VolumeAdjustment)

  /** Score of a label: Bullish 1, Bearish -1, anything else 0. */
  function LabelScore(name: string): (r: real)
    ensures r == 1.0 <==> name == "Bullish"
    ensures r == -1.0 <==> name == "Bearish"
    ensures r == 0.0 || r == 1.0 || r == -1.0
  {
    if name == "Bullish" then 1.0 else if name == "Bearish" then -1.0 else 0.0
  }

  predicate AnyMalformed(tags: seq<Tag>) {
    exists i :: 0 <= i < |tags| && tags[i].Malformed?
  }

  /** Number of labelled messages. */
  function Analyzed(tags: seq<Tag>): (n: nat)
    ensures n <= |tags|
  {
    if |tags| == 0 then 0
    else Analyzed(tags[..|tags| - 1]) + (if tags[|tags| - 1].Labelled? then 1 else 0)
  }

  /** Number of messages whose label scores positive. */
  function Bulls(tags: seq<Tag>): nat {
    if |tags| == 0 then 0
    else Bulls(tags[..|tags| - 1])
         + (if tags[|tags| - 1].Labelled? && LabelScore(tags[|tags| - 1].basic) > 0.0 then 1 else 0)
  }

  /** Number of messages whose label scores negative. */
  function Bears(tags: seq<Tag>): nat {
    if |tags| == 0 then 0
    else Bears(tags[..|tags| - 1])
         + (if tags[|tags| - 1].Labelled? && LabelScore(tags[|tags| - 1].basic) < 0.0 then 1 else 0)
  }

  /** Sum of the label scores of the labelled messages. */
  function ScoreSum(tags: seq<Tag>): real {
    if |tags| == 0 then 0.0
    else ScoreSum(tags[..|tags| - 1])
         + (if tags[|tags| - 1].Labelled? then LabelScore(tags[|tags| - 1].basic) else 0.0)
  }

  /** The score sum counts the bulls up and the bears down, and only labelled
      messages are bulls or bears. */
  lemma {:induction false} ScoreSumCounts(tags: seq<Tag>)
    ensures ScoreSum(tags) == Bulls(tags) as real - Bears(tags) as real
    ensures Bulls(tags) + Bears(tags) <= Analyzed(tags)
  {
    if |tags| > 0 {
      ScoreSumCounts(tags[..|tags| - 1]);
    }
  }

  /** `_generate_sentiment_signal`. */
  function SignalOf(average: real): (s: Signal)
    ensures s == Bullish <==> average > Config.BullishThreshold
    ensures s == Bearish <==> average < Config.BearishThreshold
  {
    if average > Config.BullishThreshold then Bullish
    else if average < Config.BearishThreshold then Bearish
    else Neutral
  }

  /** `get_social_sentiment` after the HTTP response: fewer than the minimum
      number of messages is insufficient data; a malformed tag is an error;
      no labelled message is "no sentiment"; otherwise the mean label score,
      the shares of positive and negative scores, and the signal. */
  function AggregateSentiment(tags: seq<Tag>): (r: SentimentData)
    ensures r.InsufficientData? <==> |tags| < Config.MinMessages
    ensures r.Error? <==> |tags| >= Config.MinMessages && AnyMalformed(tags)
    ensures r.NoSentiment? <==> |tags| >= Config.MinMessages && !AnyMalformed(tags) && Analyzed(tags) == 0
    ensures r.Success? ==>
              && r.messageCount == |tags|
              && r.analyzedCount == Analyzed(tags)
              && 0 < r.analyzedCount <= r.messageCount
              && r.signal == SignalOf(r.average)
              && r.volume == NotAdjusted
  {
    if |tags| < Config.MinMessages then InsufficientData
    else if AnyMalformed(tags) then Error
    else
      var n := Analyzed(tags);
      if n == 0 then NoSentiment
      else
        var average := ScoreSum(tags) / n as real;
        Success(average, Bulls(tags) as real / n as real, Bears(tags) as real / n as real,
                |tags|, n, SignalOf(average), NotAdjusted)
  }

  /** Ratios of a successful aggregation: the average is the bullish share
      minus the bearish share, the two shares together are at most 1, and
      the average therefore lies in [-1, 1]. */
  lemma SuccessRatios(tags: seq<Tag>)
    requires AggregateSentiment(tags).Success?
    ensures var r := AggregateSentiment(tags);
            && r.average == r.bullishRatio - r.bearishRatio
            && 0.0 <= r.bullishRatio && 0.0 <= r.bearishRatio
            && r.bullishRatio + r.bearishRatio <= 1.0
            && -1.0 <= r.average <= 1.0
  {
    ScoreSumCounts(tags);
    ShareArithmetic(Bulls(tags) as real, Bears(tags) as real, Analyzed(tags) as real);
  }

  lemma ShareArithmetic(b: real, d: real, n: real)
    requires n > 0.0 && b >= 0.0 && d >= 0.0 && b + d <= n
    ensures (b - d) / n == b / n - d / n
    ensures 0.0 <= b / n && 0.0 <= d / n && b / n + d / n <= 1.0
    ensures -1.0 <= (b - d) / n <= 1.0
  {
    assert b / n + d / n == (b + d) / n;
    var x, y := b / n, d / n;
    assert b - d == (x - y) * n;
    assert (b - d) / n == x - y;
    assert b / n >= 0.0 && d / n >= 0.0;
    var q := (b + d) / n;
    assert q * n == b + d;
    assert q <= 1.0 by {
      if q > 1.0 {
        assert q * n > 1.0 * n;
      }
    }
  }

  /** Unanimously bullish labels give average 1 and a bullish signal. */
  lemma AllBullish(tags: seq<Tag>)
    requires |tags| >= Config.MinMessages
    requires forall i :: 0 <= i < |tags| ==> tags[i] == Labelled("Bullish")
    ensures AggregateSentiment(tags).Success?
    ensures AggregateSentiment(tags).average == 1.0
    ensures AggregateSentiment(tags).signal == Bullish
  {
    AllBullishCounts(tags);
    var n := |tags| as real;
    assert ScoreSum(tags) / n == 1.0;
  }

  lemma {:induction false} AllBullishCounts(tags: seq<Tag>)
    requires forall i :: 0 <= i < |tags| ==> tags[i] == Labelled("Bullish")
    ensures Analyzed(tags) == |tags| && ScoreSum(tags) == |tags| as real
    ensures !AnyMalformed(tags)
  {
    if |tags| > 0 {
      AllBullishCounts(tags[..|tags| - 1]);
    }
  }

  /** `analyze_volume_sentiment`: anything but a success passes through
      unchanged; a success gains `average * (1 - f) + sign(average) * change * f`
      with f = 0.3 and `change` the mean of the last five daily volume
      changes. NaN in `change` makes the result NaN even when the average
      is 0, since NaN times 0 is NaN. */
  function AnalyzeVolumeSentiment(data: SentimentData, change: Float): (r: SentimentData)
    ensures !data.Success? ==> r == data
    ensures data.Success? ==> r.Success? && r == data.(volume := r.volume) && r.volume.Adjusted? && r.volume.change == change
    ensures data.Success? ==> r.Success? && r.volume.Adjusted? && (r.volume.sentiment.NaN? <==> change.NaN?)
  {
    match data
    case Success(average, _, _, _, _, _, _) =>
      var f := Config.VolumeFactor;
      var adjusted :=
        match change
        case NaN => NaN
        case Real(c) => Real(average * (1.0 - f) + Sign(average) * c * f);
      data.(volume := Adjusted(adjusted, change))
    case _ => data
  }

  /** The adjustment is a 70/30 blend: with an average of 0 it stays 0, with
      no volume change it damps the average to 70%, and when volume moves in
      the direction of the sentiment it never weakens it below 70% nor flips
      its sign. */
  lemma VolumeAdjustmentBlend(data: SentimentData, c: real)
    requires data.Success?
    ensures var a := AnalyzeVolumeSentiment(data, Real(c)).volume.sentiment.value;
            && (data.average == 0.0 ==> a == 0.0)
            && (c == 0.0 ==> a == 0.7 * data.average)
            && (data.average > 0.0 && c >= 0.0 ==> a >= 0.7 * data.average)
            && (data.average < 0.0 && c >= 0.0 ==> a <= 0.7 * data.average)
  {
  }
}

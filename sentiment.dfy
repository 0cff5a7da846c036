/** Keyword sentiment analysis of comments (backend/app/services/ai_services.py,
    `analyze_sentiment` and `generate_sentiment_actions`): each comment is labelled by
    comparing how many positive and negative words it contains, the labels are
    tallied, and the tally picks the overall label and the follow-up actions. */
module Sentiment {
  import opened Common
  import opened Text

  const PositiveWords: seq<string> :=
    ["love", "amazing", "great", "helpful", "awesome", "fantastic", "excellent", "best", "perfect", "thank"]

  const NegativeWords: seq<string> :=
    ["bad", "worst", "hate", "terrible", "poor", "disappointed", "boring", "meh", "never"]

  /** The comments analysed when none (or an empty list) is given. */
  const DemoComments: seq<string> := [
    "Love this content! So helpful \U{1F64C}",
    "This is exactly what I needed",
    "Not sure I agree with this take...",
    "Amazing work as always!",
    "Could be better, expected more",
    "Shared with my team!",
    "This changed my perspective",
    "Meh, nothing new here"]

  /** `extract_themes`: a fixed list, whatever the comments. */
  const KeyThemes: seq<string> := ["Product quality", "Customer service", "Value for money"]

  datatype Label = Positive | Negative | Neutral
  {
    function Text(): string
    {
      match this
      case Positive => "positive"
      case Negative => "negative"
      case Neutral => "neutral"
    }
  }

  /** The number of comments with each label (`sentiment_counts`). */
  datatype Counts = Counts(positive: nat, negative: nat, neutral: nat)
  {
    function Get(l: Label): nat
    {
      match l
      case Positive => positive
      case Negative => negative
      case Neutral => neutral
    }

    function Total(): nat
    {
      positive + negative + neutral
    }

    /** `sentiment_counts[l] += 1`. */
    function Add(l: Label): (c: Counts)
      ensures c.Get(l) == Get(l) + 1
      ensures forall k :: k != l ==> c.Get(k) == Get(k)
    {
      match l
      case Positive => this.(positive := positive + 1)
      case Negative => this.(negative := negative + 1)
      case Neutral => this.(neutral := neutral + 1)
    }
  }

  /** The label of a comment with `pos` positive and `neg` negative words. */
  function Classify(pos: nat, neg: nat): (l: Label)
    ensures l == Positive <==> pos > neg
    ensures l == Negative <==> neg > pos
    ensures l == Neutral <==> pos == neg
  {
    if pos > neg then Positive else if neg > pos then Negative else Neutral
  }

  /** The comment's score in hundredths: 0.6 + 0.1 per positive word capped at 1.0,
      0.4 - 0.1 per negative word floored at 0, or 0.5. Positive comments score above
      every neutral one, which scores above every negative one. */
  function ScoreOf(l: Label, pos: nat, neg: nat): (s: int)
    requires l == Classify(pos, neg)
    ensures l == Positive ==> 70 <= s <= 100
    ensures l == Negative ==> 0 <= s <= 30
    ensures l == Neutral ==> s == 50
  {
    match l
    case Positive => if 60 + 10 * pos < 100 then 60 + 10 * pos else 100
    case Negative => if 40 - 10 * neg > 0 then 40 - 10 * neg else 0
    case Neutral => 50
  }

  /** One entry of `analyzed_comments`, without the random confidence. */
  datatype Analyzed = Analyzed(text: string, sentiment: Label, score: int)

  /** One comment, judged against the word lists `positive` and `negative` (the
      service always passes `PositiveWords` and `NegativeWords`). */
  function AnalyzeComment(comment: string, positive: seq<string>, negative: seq<string>): (a: Analyzed)
    ensures a.text == comment
    ensures 0 <= a.score <= 100
    ensures var lower := AsciiLower(comment);
            a.sentiment == Classify(CountContained(positive, lower), CountContained(negative, lower))
  {
    var lower := AsciiLower(comment);
    var pos := CountContained(positive, lower);
    var neg := CountContained(negative, lower);
    var l := Classify(pos, neg);
    Analyzed(comment, l, ScoreOf(l, pos, neg))
  }

  /** A comment in which no listed word occurs is neutral. */
  lemma NoKeywordsIsNeutral(comment: string)
    requires forall i :: 0 <= i < |PositiveWords| ==> !Contains(AsciiLower(comment), PositiveWords[i])
    requires forall i :: 0 <= i < |NegativeWords| ==> !Contains(AsciiLower(comment), NegativeWords[i])
    ensures AnalyzeComment(comment, PositiveWords, NegativeWords).sentiment == Neutral
    ensures AnalyzeComment(comment, PositiveWords, NegativeWords).score == 50
  {
  }

  /** `if not comments`: a missing or empty list is replaced by the demo comments. */
  function CommentsOrDemo(comments: Option<seq<string>>): (input: seq<string>)
    ensures input != []
    ensures comments.Some? && comments.value != [] ==> input == comments.value
    ensures comments.None? || comments.value == [] ==> input == DemoComments
  {
    if comments.None? || comments.value == [] then DemoComments else comments.value
  }

  /** The number of analysed comments carrying label `l`. */
  function CountOf(results: seq<Analyzed>, l: Label): (n: nat)
    ensures n <= |results|
  {
    if results == [] then 0
    else CountOf(results[..|results| - 1], l) + (if results[|results| - 1].sentiment == l then 1 else 0)
  }

  /** A label is counted 0 times exactly when no comment carries it. */
  lemma {:induction false} CountOfZero(results: seq<Analyzed>, l: Label)
    ensures CountOf(results, l) == 0 <==> forall i :: 0 <= i < |results| ==> results[i].sentiment != l
  {
    if results != [] {
      var init := results[..|results| - 1];
      CountOfZero(init, l);
      assert forall i :: 0 <= i < |init| ==> init[i] == results[i];
    }
  }

  /** Every comment has exactly one of the three labels. */
  lemma {:induction false} CountsCoverAll(results: seq<Analyzed>)
    ensures CountOf(results, Positive) + CountOf(results, Negative) + CountOf(results, Neutral) == |results|
  {
    if results != [] {
      CountsCoverAll(results[..|results| - 1]);
    }
  }

  /** The tally of a list of analysed comments. */
  function Tally(results: seq<Analyzed>): (c: Counts)
    ensures forall l :: c.Get(l) == CountOf(results, l)
  {
    Counts(CountOf(results, Positive), CountOf(results, Negative), CountOf(results, Neutral))
  }

  /** Tallying one more comment adds one to its label. */
  lemma TallySnoc(prev: seq<Analyzed>, a: Analyzed)
    ensures Tally(prev + [a]) == Tally(prev).Add(a.sentiment)
  {
    assert (prev + [a])[..|prev|] == prev;
  }

  /** `max(sentiment_counts.keys(), key=...)`: a label of maximal count, and of the
      maximal ones the first in the order positive, negative, neutral. */
  function OverallSentiment(c: Counts): (l: Label)
    ensures forall k :: c.Get(k) <= c.Get(l)
    ensures l == Positive <==> c.positive >= c.negative && c.positive >= c.neutral
    ensures l == Negative <==> c.negative > c.positive && c.negative >= c.neutral
    ensures l == Neutral <==> c.neutral > c.positive && c.neutral > c.negative
  {
    if c.positive >= c.negative && c.positive >= c.neutral then Positive
    else if c.negative >= c.neutral then Negative
    else Neutral
  }

  const AddressNegative := "Address negative feedback promptly"
  const ReviewStrategy := "Review recent content strategy"
  const MoreEngaging := "Create more engaging, opinion-provoking content"
  const KeepItUp := "Keep up the great engagement!"

  /** `generate_sentiment_actions`: two actions when negatives outnumber positives,
      one when neutrals do, and the encouragement line when neither holds. */
  method GenerateSentimentActions(c: Counts) returns (actions: seq<string>)
    ensures |actions| == if c.negative > c.positive && c.neutral > c.positive then 3
                         else if c.negative > c.positive then 2 else 1
    ensures c.negative > c.positive ==> actions[..2] == [AddressNegative, ReviewStrategy]
    ensures c.neutral > c.positive ==> actions[|actions| - 1] == MoreEngaging
    ensures c.negative <= c.positive && c.neutral <= c.positive ==> actions == [KeepItUp]
  {
    actions := [];
    if c.negative > c.positive {
      actions := actions + [AddressNegative];
      actions := actions + [ReviewStrategy];
    }
    if c.neutral > c.positive {
      actions := actions + [MoreEngaging];
    }
    if actions == [] {
      actions := [KeepItUp];
    }
  }

  /** The sum of the comments' scores, in hundredths. */
  function SumScores(results: seq<Analyzed>): int
  {
    if results == [] then 0 else SumScores(results[..|results| - 1]) + results[|results| - 1].score
  }

  /** The percentage of comments with each label, before rounding. */
  function Distribution(c: Counts): (d: (real, real, real))
    requires c.Total() > 0
  {
    var t := c.Total() as real;
    (c.positive as real / t * 100.0, c.negative as real / t * 100.0, c.neutral as real / t * 100.0)
  }

  /** Three shares of a total add up to one. */
  lemma SharesSum(p: real, n: real, u: real, t: real)
    requires t > 0.0 && p + n + u == t
    ensures p / t + n / t + u / t == 1.0
  {
    var a, b, c := p / t, n / t, u / t;
    assert a * t == p && b * t == n && c * t == u;
    assert (a + b + c) * t == a * t + b * t + c * t;
    assert (a + b + c - 1.0) * t == 0.0;
  }

  /** The three percentages add up to 100. */
  lemma DistributionSums(c: Counts)
    requires c.Total() > 0
    ensures Distribution(c).0 + Distribution(c).1 + Distribution(c).2 == 100.0
  {
    var t := c.Total() as real;
    var p, n, u := c.positive as real, c.negative as real, c.neutral as real;
    SharesSum(p, n, u, t);
    assert p / t * 100.0 + n / t * 100.0 + u / t * 100.0 == (p / t + n / t + u / t) * 100.0;
  }

  datatype Report = Report(
    overall: Label,
    meanScore: real,
    distribution: (real, real, real),
    analyzed: seq<Analyzed>,
    counts: Counts,
    themes: seq<string>,
    actions: seq<string>)

  /** The loop of `analyze_sentiment`: every comment is analysed in order and counted
      once under its label. */
  method AnalyzeAll(input: seq<string>, positive: seq<string>, negative: seq<string>)
    returns (analyzed: seq<Analyzed>, counts: Counts)
    ensures |analyzed| == |input|
    ensures forall i :: 0 <= i < |input| ==> analyzed[i] == AnalyzeComment(input[i], positive, negative)
    ensures counts == Tally(analyzed)
  {
    counts := Counts(0, 0, 0);
    analyzed := [];
    var i := 0;
    while i < |input|
      invariant 0 <= i <= |input|
      invariant |analyzed| == i
      invariant forall k :: 0 <= k < i ==> analyzed[k] == AnalyzeComment(input[k], positive, negative)
      invariant counts == Tally(analyzed)
    {
      var a := AnalyzeComment(input[i], positive, negative);
      counts := counts.Add(a.sentiment);
      TallySnoc(analyzed, a);
      analyzed := analyzed + [a];
      i := i + 1;
    }
  }

  /** The summary fields of `analyze_sentiment`'s answer, from the analysed comments
      and their tally. */
  method Summarize(analyzed: seq<Analyzed>, counts: Counts) returns (r: Report)
    requires counts == Tally(analyzed) && analyzed != []
    ensures r.analyzed == analyzed && r.counts == counts
    ensures counts.Total() == |analyzed|
    ensures r.overall == OverallSentiment(counts)
    ensures r.meanScore == SumScores(analyzed) as real / (100 * counts.Total()) as real
    ensures r.distribution == Distribution(counts)
    ensures r.themes == KeyThemes
    ensures r.actions != []
  {
    CountsCoverAll(analyzed);
    var actions := GenerateSentimentActions(counts);
    var mean := SumScores(analyzed) as real / (100 * counts.Total()) as real;
    r := Report(OverallSentiment(counts), mean, Distribution(counts), analyzed, counts, KeyThemes, actions);
  }

  /** `analyze_sentiment`: the comments (or the demo comments) are analysed in order;
      the tally counts every one of them exactly once; the overall label, mean score,
      distribution and actions are derived from the tally. */
  method AnalyzeSentiment(comments: Option<seq<string>>) returns (r: Report)
    ensures |r.analyzed| == |CommentsOrDemo(comments)|
    ensures forall i :: 0 <= i < |r.analyzed| ==> r.analyzed[i] == AnalyzeComment(CommentsOrDemo(comments)[i], PositiveWords, NegativeWords)
    ensures r.counts == Tally(r.analyzed)
    ensures r.counts.Total() == |CommentsOrDemo(comments)| > 0
    ensures r.overall == OverallSentiment(r.counts)
    ensures r.meanScore == SumScores(r.analyzed) as real / (100 * r.counts.Total()) as real
    ensures r.distribution == Distribution(r.counts)
    ensures r.themes == KeyThemes
    ensures r.actions != []
  {
    var input := CommentsOrDemo(comments);
    var analyzed, counts := AnalyzeAll(input, PositiveWords, NegativeWords);
    r := Summarize(analyzed, counts);
  }
}

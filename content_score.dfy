/** Content performance scoring (backend/app/services/ai_services.py,
    `score_content_performance` and its helpers): keyword and hashtag step scores, the
    letter grade, and the improvement tips for metrics under 60. The readability,
    clarity and length scores are floating-point formulas and enter as inputs. */
module ContentScore {
  import opened Text

  const EmotionalWords: seq<string> :=
    ["amazing", "love", "exciting", "incredible", "powerful", "transform", "discover"]

  const StrengthCtaWords: seq<string> :=
    ["click", "share", "comment", "follow", "subscribe", "learn", "discover", "get", "try"]

  /** Every word found in `s` is still found once more text is appended. */
  lemma {:induction false} CountContainedGrows(words: seq<string>, s: string, t: string)
    ensures CountContained(words, s) <= CountContained(words, s + t)
  {
    if words != [] {
      CountContainedGrows(words[1..], s, t);
      if Contains(s, words[0]) {
        ContainsInLonger(s, t, words[0]);
      }
    }
  }

  /** `calculate_emotional_appeal`: 50, plus 15 per emotional word found in the
      lower-cased text, capped at 100. */
  function EmotionalAppeal(content: string): (r: int)
    ensures 50 <= r <= 100
    ensures r == 50 <==> forall i :: 0 <= i < |EmotionalWords| ==> !Contains(AsciiLower(content), EmotionalWords[i])
    ensures r < 100 ==> (r - 50) % 15 == 0
  {
    var count := CountContained(EmotionalWords, AsciiLower(content));
    if 50 + count * 15 < 100 then 50 + count * 15 else 100
  }

  /** Writing more never lowers the emotional appeal. */
  lemma EmotionalAppealGrows(s: string, t: string)
    ensures EmotionalAppeal(s) <= EmotionalAppeal(s + t)
  {
    AsciiLowerAppend(s, t);
    CountContainedGrows(EmotionalWords, AsciiLower(s), AsciiLower(t));
  }

  /** `calculate_cta_strength`: 40, plus 20 per call-to-action word found, capped at 100. */
  function CtaStrength(content: string): (r: int)
    ensures 40 <= r <= 100
    ensures r == 40 <==> forall i :: 0 <= i < |StrengthCtaWords| ==> !Contains(AsciiLower(content), StrengthCtaWords[i])
    ensures r < 100 ==> r % 20 == 0
  {
    var count := CountContained(StrengthCtaWords, AsciiLower(content));
    if 40 + count * 20 < 100 then 40 + count * 20 else 100
  }

  /** Writing more never lowers the call-to-action strength. */
  lemma CtaStrengthGrows(s: string, t: string)
    ensures CtaStrength(s) <= CtaStrength(s + t)
  {
    AsciiLowerAppend(s, t);
    CountContainedGrows(StrengthCtaWords, AsciiLower(s), AsciiLower(t));
  }

  /** `calculate_hashtag_score`: a step function of the number of '#' characters. */
  function HashtagScore(content: string): (r: int)
    ensures r == 30 <==> '#' !in content
    ensures r == 90 <==> 1 <= CountChar(content, '#') <= 5
    ensures r == 70 <==> 6 <= CountChar(content, '#') <= 10
    ensures r == 40 <==> CountChar(content, '#') > 10
  {
    var n := CountChar(content, '#');
    if n == 0 then 30 else if n <= 5 then 90 else if n <= 10 then 70 else 40
  }

  datatype Grade = APlus | A | B | C | D
  {
    function Text(): string
    {
      match this
      case APlus => "A+"
      case A => "A"
      case B => "B"
      case C => "C"
      case D => "D"
    }

    /** D = 0 up to A+ = 4. */
    function Rank(): nat
    {
      match this
      case D => 0
      case C => 1
      case B => 2
      case A => 3
      case APlus => 4
    }
  }

  /** `get_grade`. */
  function GetGrade(score: real): (g: Grade)
    ensures g == APlus <==> score >= 90.0
    ensures g == A <==> 80.0 <= score < 90.0
    ensures g == B <==> 70.0 <= score < 80.0
    ensures g == C <==> 60.0 <= score < 70.0
    ensures g == D <==> score < 60.0
  {
    if score >= 90.0 then APlus
    else if score >= 80.0 then A
    else if score >= 70.0 then B
    else if score >= 60.0 then C
    else D
  }

  /** A higher score never earns a lower grade. */
  lemma GradeMonotone(x: real, y: real)
    requires x <= y
    ensures GetGrade(x).Rank() <= GetGrade(y).Rank()
  {
  }

  /** Python's `round()` to an integer: the nearest integer, ties to the even one. */
  function RoundHalfEven(x: real): (n: int)
    ensures -0.5 <= x - n as real <= 0.5
    ensures (x - n as real == 0.5 || x - n as real == -0.5) ==> n % 2 == 0
  {
    var f := x.Floor;
    var frac := x - f as real;
    if frac < 0.5 then f
    else if frac > 0.5 then f + 1
    else if f % 2 == 0 then f else f + 1
  }

  /** `f"{x:.0f}"`: the magnitude rounded half to even, with a minus sign for any
      negative `x` (so that -0.4 prints as "-0"). */
  function FormatFixed0(x: real): (s: string)
    ensures s != []
    ensures (s[0] == '-') <==> x < 0.0
  {
    var mag := if x < 0.0 then -x else x;
    var digits := NatToString(RoundHalfEven(mag) as nat);
    if x < 0.0 then "-" + digits else digits
  }

  /** One metric's name and score, in the order of the breakdown. */
  type Scores = seq<(string, real)>

  /** The tip for a metric under 60. */
  function Tip(metric: string, score: real): string
  {
    "Improve " + ReplaceChar(metric, '_', ' ') + " (currently " + FormatFixed0(score) + "/100)"
  }

  /** The metrics under 60, in order. */
  function LowScores(scores: Scores): (low: Scores)
    ensures |low| <= |scores|
    ensures forall i :: 0 <= i < |low| ==> low[i] in scores && low[i].1 < 60.0
  {
    if scores == [] then []
    else
      var rest := LowScores(scores[..|scores| - 1]);
      var last := scores[|scores| - 1];
      if last.1 < 60.0 then rest + [last] else rest
  }

  /** Every metric under 60 is among the low scores. */
  lemma {:induction false} LowScoresComplete(scores: Scores, i: int)
    requires 0 <= i < |scores| && scores[i].1 < 60.0
    ensures scores[i] in LowScores(scores)
  {
    var init := scores[..|scores| - 1];
    if i < |scores| - 1 {
      assert scores[i] == init[i];
      LowScoresComplete(init, i);
    }
  }

  /** There are no low scores exactly when every metric scores at least 60. */
  lemma LowScoresEmpty(scores: Scores)
    ensures LowScores(scores) == [] <==> forall i :: 0 <= i < |scores| ==> scores[i].1 >= 60.0
  {
    if exists i :: 0 <= i < |scores| && scores[i].1 < 60.0 {
      var i :| 0 <= i < |scores| && scores[i].1 < 60.0;
      LowScoresComplete(scores, i);
    }
  }

  function Tips(low: Scores): (tips: seq<string>)
    ensures |tips| == |low|
    ensures forall i :: 0 <= i < |low| ==> tips[i] == Tip(low[i].0, low[i].1)
  {
    if low == [] then [] else Tips(low[..|low| - 1]) + [Tip(low[|low| - 1].0, low[|low| - 1].1)]
  }

  const WellOptimized := "Your content is well-optimized!"

  /** `get_improvement_tips`: a tip for each metric under 60, in breakdown order, or
      the single "well-optimized" line when there is none. */
  method GetImprovementTips(scores: Scores) returns (tips: seq<string>)
    ensures LowScores(scores) != [] ==> tips == Tips(LowScores(scores))
    ensures LowScores(scores) == [] ==> tips == [WellOptimized]
    ensures tips != []
  {
    tips := [];
    var i := 0;
    while i < |scores|
      invariant 0 <= i <= |scores|
      invariant tips == Tips(LowScores(scores[..i]))
    {
      var (metric, score) := scores[i];
      assert scores[..i + 1][..i] == scores[..i];
      if score < 60.0 {
        tips := tips + [Tip(metric, score)];
      }
      i := i + 1;
    }
    assert scores[..i] == scores;
    if tips == [] {
      tips := [WellOptimized];
    }
  }

  /** The breakdown, in the order of the `scores` dictionary. */
  function Breakdown(content: string, readability: real, clarity: real, lengthScore: real): (b: Scores)
    ensures |b| == 6
    ensures b[0] == ("readability", readability) && b[2] == ("clarity", clarity)
    ensures b[5] == ("length_optimization", lengthScore)
    ensures b[1].0 == "emotional_appeal" && 50.0 <= b[1].1 <= 100.0
    ensures b[3].0 == "call_to_action" && 40.0 <= b[3].1 <= 100.0
    ensures b[4].0 == "hashtag_optimization" && 30.0 <= b[4].1 <= 90.0
  {
    [("readability", readability),
     ("emotional_appeal", EmotionalAppeal(content) as real),
     ("clarity", clarity),
     ("call_to_action", CtaStrength(content) as real),
     ("hashtag_optimization", HashtagScore(content) as real),
     ("length_optimization", lengthScore)]
  }

  /** The mean of the six scores. */
  function Overall(b: Scores): real
    requires |b| == 6
  {
    (b[0].1 + b[1].1 + b[2].1 + b[3].1 + b[4].1 + b[5].1) / 6.0
  }

  datatype Report = Report(overall: real, breakdown: Scores, grade: Grade, tips: seq<string>)

  /** `score_content_performance`, with the three floating-point scores as inputs. The
      grade is taken from the unrounded mean. */
  method ScoreContentPerformance(content: string, readability: real, clarity: real, lengthScore: real)
    returns (r: Report)
    ensures r.breakdown == Breakdown(content, readability, clarity, lengthScore)
    ensures r.overall == Overall(r.breakdown)
    ensures r.grade == GetGrade(r.overall)
    ensures r.tips != []
    ensures LowScores(r.breakdown) != [] ==> r.tips == Tips(LowScores(r.breakdown))
    ensures LowScores(r.breakdown) == [] ==> r.tips == [WellOptimized]
  {
    var b := Breakdown(content, readability, clarity, lengthScore);
    var overall := Overall(b);
    var tips := GetImprovementTips(b);
    r := Report(overall, b, GetGrade(overall), tips);
  }
}

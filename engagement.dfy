/** Engagement prediction (backend/app/services/ai_services.py, `predict_engagement`,
    `generate_recommendations`, `get_best_posting_time`): an additive base score over
    features of the text, scaled by a per-platform factor and capped at 100, with the
    advice list and the posting-time table. The random follower count, rates and
    probabilities are not part of this model. */
module Engagement {
  import opened Text

  /** The words whose presence (in the lower-cased text) earns the call-to-action bonus. */
  const CtaWords: seq<string> := ["click", "share", "comment", "follow", "link", "subscribe"]

  /** The shorter list the advice checks before suggesting a call-to-action. */
  const AdviceCtaWords: seq<string> := ["click", "share", "comment", "follow"]

  /** `any(ord(c) > 127 for c in content)`, the "has emojis" test. */
  predicate HasNonAscii(content: string)
  {
    exists i :: 0 <= i < |content| && content[i] as int > 127
  }

  /** The features the base score looks at. */
  datatype Features = Features(
    length: nat, hashtag: bool, nonAscii: bool, question: bool, callToAction: bool)

  function FeaturesOf(content: string): (f: Features)
    ensures f.length == |content|
    ensures f.hashtag <==> '#' in content
    ensures f.question <==> '?' in content
    ensures f.nonAscii <==> HasNonAscii(content)
    ensures f.callToAction <==> AnyContained(CtaWords, AsciiLower(content))
  {
    Features(|content|, '#' in content, HasNonAscii(content), '?' in content,
             AnyContained(CtaWords, AsciiLower(content)))
  }

  /** The length adjustment: +15 for 100 to 280 characters, -10 below 50. */
  function LengthBonus(length: nat): (b: int)
    ensures b == 15 <==> 100 <= length <= 280
    ensures b == -10 <==> length < 50
    ensures b == 0 <==> (50 <= length < 100 || length > 280)
  {
    if 100 <= length <= 280 then 15 else if length < 50 then -10 else 0
  }

  /** `base_score`: 50, the length adjustment, then +10 for '#', +8 for a non-ASCII
      character, +12 for '?' and +15 for a call-to-action word. */
  function BaseScore(f: Features): (b: int)
    ensures 40 <= b <= 110
  {
    50 + LengthBonus(f.length)
    + (if f.hashtag then 10 else 0) + (if f.nonAscii then 8 else 0)
    + (if f.question then 12 else 0) + (if f.callToAction then 15 else 0)
  }

  /** Each feature adds its own fixed bonus, whatever the others are. */
  lemma FeatureBonuses(f: Features)
    ensures BaseScore(f.(hashtag := true)) == BaseScore(f.(hashtag := false)) + 10
    ensures BaseScore(f.(nonAscii := true)) == BaseScore(f.(nonAscii := false)) + 8
    ensures BaseScore(f.(question := true)) == BaseScore(f.(question := false)) + 12
    ensures BaseScore(f.(callToAction := true)) == BaseScore(f.(callToAction := false)) + 15
  {
  }

  /** The platform multiplier in tenths: 1.0, 1.2 / 0.9, 1.1, 0.9 / 1.1, and 1.0 for any
      platform missing from the table. */
  function PlatformFactor(platform: string, contentType: string): (tenths: nat)
    ensures 9 <= tenths <= 12
    ensures platform !in {"instagram", "facebook", "linkedin"} ==> tenths == 10
    ensures platform == "instagram" ==> tenths == (if contentType == "image" then 12 else 9)
    ensures platform == "linkedin" ==> tenths == (if contentType == "image" then 9 else 11)
    ensures platform == "facebook" ==> tenths == 11
  {
    if platform == "instagram" then (if contentType == "image" then 12 else 9)
    else if platform == "facebook" then 11
    else if platform == "linkedin" then (if contentType == "image" then 9 else 11)
    else 10
  }

  /** `min(100, int(base_score * multiplier))`. The base score is a positive integer
      and the factor a whole number of tenths, so `int(...)` is the floor of
      `base * tenths / 10`. */
  function ScaledScore(base: int, tenths: nat): (s: int)
    requires 40 <= base <= 110 && 9 <= tenths <= 12
    ensures 36 <= s <= 100
    ensures s == 100 <==> base * tenths >= 1000
    ensures s < 100 ==> 10 * s <= base * tenths < 10 * s + 10
  {
    var scaled := base * tenths / 10;
    if scaled < 100 then scaled else 100
  }

  /** The engagement score of a post. */
  function EngagementScore(content: string, platform: string, contentType: string): (s: int)
    ensures 36 <= s <= 100
  {
    ScaledScore(BaseScore(FeaturesOf(content)), PlatformFactor(platform, contentType))
  }

  /** On Twitter, and on a platform missing from the table, the score is the base
      score capped at 100. */
  lemma TwitterScoreIsCappedBase(content: string, platform: string, contentType: string)
    requires platform !in {"instagram", "facebook", "linkedin"}
    ensures var b := BaseScore(FeaturesOf(content));
            EngagementScore(content, platform, contentType) == if b < 100 then b else 100
  {
    var b := BaseScore(FeaturesOf(content));
    assert b * 10 / 10 == b;
  }

  /** A higher base score never lowers the final score. */
  lemma ScaledScoreMonotone(b1: int, b2: int, tenths: nat)
    requires 40 <= b1 <= b2 <= 110 && 9 <= tenths <= 12
    ensures ScaledScore(b1, tenths) <= ScaledScore(b2, tenths)
  {
    assert b1 * tenths <= b2 * tenths;
  }

  /** The lower end of the range is reached: a text under 50 characters with none
      of the bonus features, posted as Instagram text, scores 36 (the empty text is
      one). */
  lemma LowestScoreReached(content: string)
    requires |content| < 50 && !HasNonAscii(content) && '#' !in content && '?' !in content
    requires !AnyContained(CtaWords, AsciiLower(content))
    ensures EngagementScore(content, "instagram", "text") == 36
  {
    assert BaseScore(FeaturesOf(content)) == 40;
    assert PlatformFactor("instagram", "text") == 9;
  }

  /** The upper end is reached too: a short text with a hashtag, a question mark, an
      emoji and a call-to-action, posted as an Instagram image, scores 100. */
  lemma HighestScoreReached(content: string)
    requires |content| < 50 && HasNonAscii(content) && '#' in content && '?' in content
    requires AnyContained(CtaWords, AsciiLower(content))
    ensures EngagementScore(content, "instagram", "image") == 100
  {
    assert BaseScore(FeaturesOf(content)) == 85;
    assert PlatformFactor("instagram", "image") == 12;
  }

  /** The advice messages, in the order they are appended. */
  datatype Advice = AddDetail | AddHashtags | AddQuestion | AddMedia | AddCta | Optimized
  {
    /** The message text. */
    function Text(): string
    {
      match this
      case AddDetail => "Add more detail to your content for better engagement"
      case AddHashtags => "Add 3-5 relevant hashtags to increase discoverability"
      case AddQuestion => "Include a question to encourage comments"
      case AddMedia => "Consider adding an image or video for Instagram"
      case AddCta => "Add a clear call-to-action"
      case Optimized => "Your content looks optimized! Consider A/B testing variations"
    }

    /** The position at which `generate_recommendations` appends the message. */
    function Rank(): nat
    {
      match this
      case AddDetail => 0
      case AddHashtags => 1
      case AddQuestion => 2
      case AddMedia => 3
      case AddCta => 4
      case Optimized => 5
    }
  }

  /** Each message ranks above the one before it. */
  predicate StepsUp(recs: seq<Advice>)
  {
    forall i :: 0 <= i < |recs| - 1 ==> recs[i].Rank() < recs[i + 1].Rank()
  }

  /** Stepping up between neighbours means increasing throughout: the messages keep
      their fixed order and none appears twice. */
  lemma {:induction false} StepsUpIncreasing(recs: seq<Advice>)
    requires StepsUp(recs)
    ensures forall i, j :: 0 <= i < j < |recs| ==> recs[i].Rank() < recs[j].Rank()
    ensures forall i, j :: 0 <= i < j < |recs| ==> recs[i] != recs[j]
  {
    if |recs| > 1 {
      StepsUpIncreasing(recs[1..]);
      forall i, j | 0 <= i < j < |recs| ensures recs[i].Rank() < recs[j].Rank() {
        if i > 0 {
          assert recs[i] == recs[1..][i - 1] && recs[j] == recs[1..][j - 1];
        } else if j > 1 {
          assert recs[1] == recs[1..][0] && recs[j] == recs[1..][j - 1];
        }
      }
    }
  }

  /** The conditions the advice tests, in the order it tests them. */
  datatype Gaps = Gaps(short: bool, noHashtag: bool, noQuestion: bool, textOnInstagram: bool, noCta: bool)

  function GapsOf(content: string, platform: string, contentType: string): Gaps
  {
    Gaps(|content| < 100, '#' !in content, '?' !in content,
         platform == "instagram" && contentType == "text",
         !AnyContained(AdviceCtaWords, AsciiLower(content)))
  }

  /** `if c: recs.append(a)`. */
  function AppendIf(recs: seq<Advice>, c: bool, a: Advice): seq<Advice>
  {
    if c then recs + [a] else recs
  }

  /** The advice for a set of gaps: the five conditional messages in their fixed
      order, or the "optimized" message when there is no gap. */
  function AdviceFor(g: Gaps): seq<Advice>
  {
    var found := AppendIf(AppendIf(AppendIf(AppendIf(AppendIf([],
                   g.short, AddDetail), g.noHashtag, AddHashtags), g.noQuestion, AddQuestion),
                   g.textOnInstagram, AddMedia), g.noCta, AddCta);
    if found == [] then [Optimized] else found
  }

  /** Each of the five messages appears exactly when its condition holds. */
  lemma AdviceConditions(g: Gaps)
    ensures var recs := AdviceFor(g);
            && (AddDetail in recs <==> g.short)
            && (AddHashtags in recs <==> g.noHashtag)
            && (AddQuestion in recs <==> g.noQuestion)
            && (AddMedia in recs <==> g.textOnInstagram)
            && (AddCta in recs <==> g.noCta)
  {
  }

  /** The list is never empty, and the "optimized" message stands alone exactly when
      there is no gap. */
  lemma AdviceFallback(g: Gaps)
    ensures var recs := AdviceFor(g);
            && recs != []
            && (Optimized in recs <==> recs == [Optimized])
            && (recs == [Optimized] <==> g == Gaps(false, false, false, false, false))
  {
  }

  /** The messages come in their fixed order, each at most once. */
  lemma AdviceOrdered(g: Gaps)
    ensures var recs := AdviceFor(g);
            forall i, j :: 0 <= i < j < |recs| ==> recs[i].Rank() < recs[j].Rank()
  {
    var recs := AdviceFor(g);
    assert StepsUp(recs);
    StepsUpIncreasing(recs);
  }

  /** `generate_recommendations`, appending message by message. */
  method GenerateRecommendations(content: string, platform: string, contentType: string)
    returns (recs: seq<Advice>)
    ensures recs == AdviceFor(GapsOf(content, platform, contentType))
  {
    var g := GapsOf(content, platform, contentType);
    recs := [];
    if g.short {
      recs := recs + [AddDetail];
    }
    if g.noHashtag {
      recs := recs + [AddHashtags];
    }
    if g.noQuestion {
      recs := recs + [AddQuestion];
    }
    if g.textOnInstagram {
      recs := recs + [AddMedia];
    }
    if g.noCta {
      recs := recs + [AddCta];
    }
    if recs == [] {
      recs := recs + [Optimized];
    }
  }

  /** Every word of the advice's list is in the scoring list, so a text the advice
      accepts as having a call-to-action always earns the bonus. */
  lemma AdviceCtaEarnsBonus(lowered: string)
    requires AnyContained(AdviceCtaWords, lowered)
    ensures AnyContained(CtaWords, lowered)
  {
    AnyContainedIff(AdviceCtaWords, lowered);
    AnyContainedIff(CtaWords, lowered);
    var i :| 0 <= i < |AdviceCtaWords| && Contains(lowered, AdviceCtaWords[i]);
    assert AdviceCtaWords[i] == CtaWords[i];
  }

  /** A word of the scoring list occurring in the text earns the bonus. */
  lemma CtaWordEarnsBonus(lowered: string, i: int)
    requires 0 <= i < |CtaWords| && Contains(lowered, CtaWords[i])
    ensures AnyContained(CtaWords, lowered)
  {
    AnyContainedIff(CtaWords, lowered);
  }

  /** A text without 'l', 'h', 'o' and 'f' has none of the advice's words. */
  lemma NoAdviceCtaWithout(s: string)
    requires 'l' !in s && 'h' !in s && 'o' !in s && 'f' !in s
    ensures !AnyContained(AdviceCtaWords, s)
  {
    AnyContainedIff(AdviceCtaWords, s);
    forall i | 0 <= i < |AdviceCtaWords| ensures !Contains(s, AdviceCtaWords[i]) {
      MissingCharNotContained(s, AdviceCtaWords[i], if i == 3 then 0 else 1);
    }
  }

  /** The converse fails: a text such as "Subscribe!", whose only such word is
      "subscribe", earns the bonus and is still told to add a call-to-action. */
  lemma CtaListsDisagree(content: string, platform: string, contentType: string)
    requires Contains(AsciiLower(content), "subscribe")
    requires var t := AsciiLower(content); 'l' !in t && 'h' !in t && 'o' !in t && 'f' !in t
    ensures FeaturesOf(content).callToAction
    ensures AddCta in AdviceFor(GapsOf(content, platform, contentType))
  {
    CtaWordEarnsBonus(AsciiLower(content), 5);
    NoAdviceCtaWithout(AsciiLower(content));
    AdviceConditions(GapsOf(content, platform, contentType));
  }

  /** `get_best_posting_time`. */
  function BestPostingTime(platform: string): (t: string)
    ensures t == "10:00 AM" <==> platform !in {"twitter", "instagram", "facebook", "linkedin"}
  {
    if platform == "twitter" then "9:00 AM or 12:00 PM"
    else if platform == "instagram" then "11:00 AM or 7:00 PM"
    else if platform == "facebook" then "1:00 PM or 4:00 PM"
    else if platform == "linkedin" then "7:00 AM or 5:00 PM"
    else "10:00 AM"
  }

  /** The deterministic part of the prediction. */
  datatype Prediction = Prediction(engagementScore: int, recommendations: seq<Advice>, bestTimeToPost: string)

  /** `predict_engagement`, without its random draws. */
  method PredictEngagement(content: string, platform: string, contentType: string)
    returns (p: Prediction)
    ensures p.engagementScore == EngagementScore(content, platform, contentType)
    ensures 36 <= p.engagementScore <= 100
    ensures p.recommendations == AdviceFor(GapsOf(content, platform, contentType))
    ensures p.recommendations != []
    ensures p.bestTimeToPost == BestPostingTime(platform)
  {
    var recs := GenerateRecommendations(content, platform, contentType);
    AdviceFallback(GapsOf(content, platform, contentType));
    p := Prediction(EngagementScore(content, platform, contentType), recs, BestPostingTime(platform));
  }
}

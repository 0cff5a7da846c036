/** The AI features page (frontend/pages/AIFeatures.jsx): four data tabs whose replies
    are cached once loaded, the caption rewriter and the multilingual generator. */
module AiFeatures {
  import opened Common
  import opened Text
  import Selection

  datatype Tab = TrendsTab | AudienceTab | SentimentTab | CompetitorsTab | RewriteTab | TranslateTab
  {
    /** The tabs whose content is fetched by `loadTabData`. */
    predicate IsDataTab()
    {
      !RewriteTab? && !TranslateTab?
    }
  }

  const DefaultLanguages: seq<string> := ["spanish", "french"]

  /** Only the first variation of a rewrite result carries the "Recommended" badge. */
  function RecommendedBadges(count: nat): (r: seq<bool>)
    ensures |r| == count
    ensures forall i :: 0 <= i < count ==> (r[i] <==> i == 0)
  {
    if count == 0 then [] else [true] + seq(count - 1, _ => false)
  }

  class AiFeaturesPage {
    var activeTab: Tab
    var trends: Option<Reply>
    var segments: Option<Reply>
    var sentiment: Option<Reply>
    var competitors: Option<Reply>
    var loading: bool
    var captionInput: string
    var rewriteStyle: string
    var rewriteResult: Option<Reply>
    var rewriteLoading: bool
    var translateInput: string
    var selectedLanguages: seq<string>
    var translations: Option<Reply>
    var translateLoading: bool

    /** The state before the mount effect runs (that effect is `SelectTab`'s load of
        the initial tab, see `Mount`). */
    constructor ()
      ensures activeTab == TrendsTab && !loading
      ensures trends == None && segments == None && sentiment == None && competitors == None
      ensures captionInput == "" && rewriteStyle == "engaging" && rewriteResult == None && !rewriteLoading
      ensures translateInput == "" && selectedLanguages == DefaultLanguages
      ensures translations == None && !translateLoading
    {
      activeTab := TrendsTab;
      trends, segments, sentiment, competitors := None, None, None, None;
      loading := false;
      captionInput, rewriteStyle, rewriteResult, rewriteLoading := "", "engaging", None, false;
      translateInput, selectedLanguages, translations, translateLoading := "", DefaultLanguages, None, false;
    }

    /** The cache slot of a data tab. */
    function Slot(tab: Tab): Option<Reply>
      reads this
      requires tab.IsDataTab()
    {
      match tab
      case TrendsTab => trends
      case AudienceTab => segments
      case SentimentTab => sentiment
      case CompetitorsTab => competitors
    }

    /** `loadTabData(tab)`: a request is issued only for a data tab whose slot is still
        empty; a successful reply fills that slot and nothing else; `loading` is false
        afterwards whatever happened. */
    method LoadTabData(tab: Tab, outcome: Option<Reply>) returns (fetched: bool)
      modifies this`trends, this`segments, this`sentiment, this`competitors, this`loading
      ensures fetched <==> tab.IsDataTab() && old(Slot(tab)) == None
      ensures !loading
      ensures forall t: Tab :: t.IsDataTab() && t != tab ==> Slot(t) == old(Slot(t))
      ensures tab.IsDataTab() ==> Slot(tab) == (if fetched && outcome.Some? then outcome else old(Slot(tab)))
    {
      loading := true;
      fetched := false;
      match tab {
        case TrendsTab =>
          if trends == None {
            fetched := true;
            if outcome.Some? { trends := outcome; }
          }
        case AudienceTab =>
          if segments == None {
            fetched := true;
            if outcome.Some? { segments := outcome; }
          }
        case SentimentTab =>
          if sentiment == None {
            fetched := true;
            if outcome.Some? { sentiment := outcome; }
          }
        case CompetitorsTab =>
          if competitors == None {
            fetched := true;
            if outcome.Some? { competitors := outcome; }
          }
        case RewriteTab =>
        case TranslateTab =>
      }
      loading := false;
    }

    /** The effect that runs on mount: load the initial tab. */
    method Mount(outcome: Option<Reply>) returns (fetched: bool)
      modifies this`trends, this`segments, this`sentiment, this`competitors, this`loading
      ensures fetched <==> activeTab.IsDataTab() && old(Slot(activeTab)) == None
      ensures !loading
      ensures forall t: Tab :: t.IsDataTab() && t != activeTab ==> Slot(t) == old(Slot(t))
      ensures activeTab.IsDataTab() ==>
                Slot(activeTab) == (if fetched && outcome.Some? then outcome else old(Slot(activeTab)))
    {
      fetched := LoadTabData(activeTab, outcome);
    }

    /** A tab click: `setActiveTab`, and the effect on `activeTab` loads the tab only
        when the value actually changed. */
    method SelectTab(tab: Tab, outcome: Option<Reply>) returns (fetched: bool)
      modifies this`activeTab, this`trends, this`segments, this`sentiment, this`competitors, this`loading
      ensures activeTab == tab
      ensures fetched <==> tab != old(activeTab) && tab.IsDataTab() && old(Slot(tab)) == None
      ensures tab == old(activeTab) ==> loading == old(loading)
      ensures tab != old(activeTab) ==> !loading
      ensures forall t: Tab :: t.IsDataTab() && t != tab ==> Slot(t) == old(Slot(t))
      ensures tab.IsDataTab() ==> Slot(tab) == (if fetched && outcome.Some? then outcome else old(Slot(tab)))
    {
      if tab == activeTab {
        return false;
      }
      activeTab := tab;
      fetched := LoadTabData(tab, outcome);
    }

    method SetCaptionInput(text: string)
      modifies this`captionInput
      ensures captionInput == text
    {
      captionInput := text;
    }

    method SetRewriteStyle(style: string)
      modifies this`rewriteStyle
      ensures rewriteStyle == style
    {
      rewriteStyle := style;
    }

    method SetTranslateInput(text: string)
      modifies this`translateInput
      ensures translateInput == text
    {
      translateInput := text;
    }

    /** `handleRewrite`: blank input is a no-op; otherwise `rewriteCaption(input,
        style, "twitter")` is requested and a successful reply replaces the result. */
    method HandleRewrite(outcome: Option<Reply>) returns (requested: Option<(string, string, string)>)
      modifies this`rewriteResult, this`rewriteLoading
      ensures IsBlank(captionInput) ==>
                requested == None && rewriteResult == old(rewriteResult) && rewriteLoading == old(rewriteLoading)
      ensures !IsBlank(captionInput) ==>
                && requested == Some((captionInput, rewriteStyle, "twitter"))
                && !rewriteLoading
                && rewriteResult == (if outcome.Some? then outcome else old(rewriteResult))
    {
      if TrimsToEmpty(captionInput) {
        return None;
      }
      rewriteLoading := true;
      requested := Some((captionInput, rewriteStyle, "twitter"));
      if outcome.Some? {
        rewriteResult := outcome;
      }
      rewriteLoading := false;
    }

    /** `handleTranslate`: blank input is a no-op; otherwise the input and the
        selected languages are sent. */
    method HandleTranslate(outcome: Option<Reply>) returns (requested: Option<(string, seq<string>)>)
      modifies this`translations, this`translateLoading
      ensures IsBlank(translateInput) ==>
                requested == None && translations == old(translations) && translateLoading == old(translateLoading)
      ensures !IsBlank(translateInput) ==>
                && requested == Some((translateInput, selectedLanguages))
                && !translateLoading
                && translations == (if outcome.Some? then outcome else old(translations))
    {
      if TrimsToEmpty(translateInput) {
        return None;
      }
      translateLoading := true;
      requested := Some((translateInput, selectedLanguages));
      if outcome.Some? {
        translations := outcome;
      }
      translateLoading := false;
    }

    /** A language check box changed to `checked`. */
    method SetLanguageChecked(lang: string, checked: bool)
      modifies this`selectedLanguages
      ensures selectedLanguages == Selection.SetChecked(old(selectedLanguages), lang, checked)
    {
      if checked {
        selectedLanguages := selectedLanguages + [lang];
      } else {
        selectedLanguages := Selection.Remove(selectedLanguages, lang);
      }
    }
  }

  /** Load once: after the trends reply has arrived, leaving and revisiting the tab
      issues no further request. */
  method LoadOnceScenario(reply: Reply, other: Option<Reply>)
  {
    var page := new AiFeaturesPage();
    var f0 := page.Mount(Some(reply));
    assert f0 && page.trends == Some(reply);
    var f1 := page.SelectTab(RewriteTab, other);
    assert !f1;
    var f2 := page.SelectTab(TrendsTab, other);
    assert !f2 && page.trends == Some(reply) && !page.loading;
  }
}

/** The Compose page (frontend/pages/Compose.jsx): platform chips, a content type,
    the post text with its character counter, an optional schedule time, and the
    submit handler that creates the post. */
module Compose {
  import opened Common
  import opened Text
  import Selection

  /** The character limit of a platform id; an id missing from the table counts as 280. */
  function PlatformLimit(id: string): (n: nat)
    ensures n >= 280
    ensures id !in {"instagram", "linkedin", "facebook"} ==> n == 280
  {
    if id == "twitter" then 280
    else if id == "instagram" then 2200
    else if id == "linkedin" then 3000
    else if id == "facebook" then 63206
    else 280
  }

  /** `getMaxLength`: 280 with nothing selected, otherwise the least limit among the
      selected platforms. */
  function GetMaxLength(selected: seq<string>): (r: nat)
    ensures selected == [] ==> r == 280
    ensures forall i :: 0 <= i < |selected| ==> r <= PlatformLimit(selected[i])
    ensures selected != [] ==> exists i :: 0 <= i < |selected| && r == PlatformLimit(selected[i])
  {
    if |selected| <= 1 then
      (if selected == [] then 280 else PlatformLimit(selected[0]))
    else
      var rest := GetMaxLength(selected[1..]);
      assert forall i :: 1 <= i < |selected| ==> selected[i] == selected[1..][i - 1];
      if PlatformLimit(selected[0]) <= rest then PlatformLimit(selected[0]) else rest
  }

  /** Every limit is at least Twitter's, so the counter never goes below 280, and it
      is exactly 280 when Twitter (or an unknown id) is among the selection. */
  lemma GetMaxLengthAtLeastTwitter(selected: seq<string>)
    ensures GetMaxLength(selected) >= 280
    ensures (exists i :: 0 <= i < |selected| && PlatformLimit(selected[i]) == 280)
            ==> GetMaxLength(selected) == 280
  {
    if selected != [] {
      var i :| 0 <= i < |selected| && GetMaxLength(selected) == PlatformLimit(selected[i]);
    }
  }

  /** The counter turns to a warning when the text is longer than 9/10 of the limit
      (`content.length > maxLength * 0.9`, with JavaScript's UTF-16 length). */
  predicate CharCountWarning(content: string, maxLength: nat)
  {
    10 * Utf16Length(content) > 9 * maxLength
  }

  lemma CharCountWarningTwitter(content: string)
    ensures CharCountWarning(content, 280) <==> Utf16Length(content) > 252
  {
  }

  datatype Status = Draft | Scheduled | Published

  /** The status sent with the post. */
  function StatusFor(isDraft: bool, scheduledTime: string): (st: Status)
    ensures st == Draft <==> isDraft
    ensures st == Scheduled <==> !isDraft && scheduledTime != ""
    ensures st == Published <==> !isDraft && scheduledTime == ""
  {
    if isDraft then Draft else if scheduledTime != "" then Scheduled else Published
  }

  /** The body of the `createPost` request; `scheduledTime || null` becomes an option. */
  datatype CreatePost = CreatePost(
    content: string,
    platforms: seq<string>,
    contentType: string,
    scheduledTime: Option<string>,
    status: Status)

  /** The fixed panel that "Analyze Content" shows. */
  datatype AiSuggestions = AiSuggestions(
    engagement: nat, bestTime: string, hashtags: seq<string>, improvements: seq<string>)

  const FixedSuggestions := AiSuggestions(
    78, "Tuesday, 2:00 PM EST", ["#SocialMedia", "#Marketing", "#Growth", "#AI"],
    ["Add a call-to-action to increase engagement",
     "Consider adding relevant emojis",
     "Include a question to encourage comments"])

  /** The page's React state; each method is one handler. */
  class ComposePage {
    var content: string
    var selectedPlatforms: seq<string>
    var contentType: string
    var scheduledTime: string
    var loading: bool
    var aiSuggestions: Option<AiSuggestions>

    constructor ()
      ensures content == "" && selectedPlatforms == ["twitter"] && contentType == "text"
      ensures scheduledTime == "" && !loading && aiSuggestions == None
    {
      content := "";
      selectedPlatforms := ["twitter"];
      contentType := "text";
      scheduledTime := "";
      loading := false;
      aiSuggestions := None;
    }

    /** The limit passed to the text area and shown by the counter. */
    function MaxLength(): nat
      reads this
    {
      GetMaxLength(selectedPlatforms)
    }

    method TogglePlatform(id: string)
      modifies this`selectedPlatforms
      ensures selectedPlatforms == Selection.Toggle(old(selectedPlatforms), id)
    {
      if id in selectedPlatforms {
        selectedPlatforms := Selection.Remove(selectedPlatforms, id);
      } else {
        selectedPlatforms := selectedPlatforms + [id];
      }
    }

    method SetContent(text: string)
      modifies this`content
      ensures content == text
    {
      content := text;
    }

    method SetContentType(id: string)
      modifies this`contentType
      ensures contentType == id
    {
      contentType := id;
    }

    method SetScheduledTime(time: string)
      modifies this`scheduledTime
      ensures scheduledTime == time
    {
      scheduledTime := time;
    }

    method GenerateAiSuggestions()
      modifies this`aiSuggestions
      ensures aiSuggestions == Some(FixedSuggestions)
    {
      aiSuggestions := Some(FixedSuggestions);
    }

    /** `handleSubmit(isDraft)`; `succeeded` is the outcome of `createPost`. Blank text
        or an empty selection sends nothing and changes nothing. Otherwise the request
        carries the current fields; on success the text and the schedule time are
        cleared, while the platforms and the content type stay. */
    method HandleSubmit(isDraft: bool, succeeded: bool) returns (sent: Option<CreatePost>)
      modifies this`content, this`scheduledTime, this`loading
      ensures IsBlank(old(content)) || selectedPlatforms == [] ==>
                sent == None && content == old(content)
                && scheduledTime == old(scheduledTime) && loading == old(loading)
      ensures !IsBlank(old(content)) && selectedPlatforms != [] ==>
                && sent == Some(CreatePost(old(content), selectedPlatforms, contentType,
                                           if old(scheduledTime) == "" then None else Some(old(scheduledTime)),
                                           StatusFor(isDraft, old(scheduledTime))))
                && !loading
                && (succeeded ==> content == "" && scheduledTime == "")
                && (!succeeded ==> content == old(content) && scheduledTime == old(scheduledTime))
    {
      if TrimsToEmpty(content) || |selectedPlatforms| == 0 {
        return None;
      }
      loading := true;
      var time := if scheduledTime != "" then Some(scheduledTime) else None;
      sent := Some(CreatePost(content, selectedPlatforms, contentType, time,
                              StatusFor(isDraft, scheduledTime)));
      if succeeded {
        content := "";
        scheduledTime := "";
      }
      loading := false;
    }
  }

  /** What a caller can rely on: a published post clears the editor and keeps the
      platform selection, and the counter limit follows the selection. */
  method ComposeScenario()
  {
    var page := new ComposePage();
    assert page.MaxLength() == 280;
    page.TogglePlatform("instagram");
    assert page.selectedPlatforms == ["twitter", "instagram"];
    page.TogglePlatform("twitter");
    assert page.selectedPlatforms == ["instagram"];
    assert page.MaxLength() == 2200;
    page.SetContent("Hello");
    assert !IsJsWhitespace(page.content[0]);
    var sent := page.HandleSubmit(false, true);
    assert sent.Some? && sent.value.status == Published;
    assert page.content == "" && page.selectedPlatforms == ["instagram"];
  }
}

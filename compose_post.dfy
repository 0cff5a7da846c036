/** The dashboard's quick composer (frontend/components/ComposePost.jsx): platform
    tabs and a text area; posts are always published as text. */
module ComposePost {
  import opened Common
  import opened Text
  import Selection

  /** The counter limit of this composer, whatever the selection. */
  const MaxLength: nat := 280

  /** The body of the `createPost` request sent by this composer. */
  datatype CreatePost = CreatePost(
    content: string, platforms: seq<string>, contentType: string, status: string)

  class ComposePostPanel {
    var content: string
    var selectedPlatforms: seq<string>
    var loading: bool

    constructor ()
      ensures content == "" && selectedPlatforms == ["twitter"] && !loading
    {
      content := "";
      selectedPlatforms := ["twitter"];
      loading := false;
    }

    method TogglePlatform(id: string)
      modifies this`selectedPlatforms
      ensures selectedPlatforms == Selection.Toggle(old(selectedPlatforms), id)
    {
      if id in selectedPlatforms {
        selectedPlatforms := Selection.Remove(selectedPlatforms, id);
      } else {
        selectedPlatforms := selectedPlatforms + [id];
      }
    }

    method SetContent(text: string)
      modifies this`content
      ensures content == text
    {
      content := text;
    }

    /** `handleSubmit`; `succeeded` is the outcome of `createPost` and `hasCallback`
        says whether the parent passed `onPostCreated`. Blank text or an empty
        selection is a no-op. The request is always a published text post; on
        success only the text is cleared and the parent is notified. */
    method HandleSubmit(succeeded: bool, hasCallback: bool) returns (sent: Option<CreatePost>, notified: bool)
      modifies this`content, this`loading
      ensures IsBlank(old(content)) || selectedPlatforms == [] ==>
                sent == None && !notified && content == old(content) && loading == old(loading)
      ensures !IsBlank(old(content)) && selectedPlatforms != [] ==>
                && sent == Some(CreatePost(old(content), selectedPlatforms, "text", "published"))
                && !loading
                && (content == if succeeded then "" else old(content))
                && (notified <==> succeeded && hasCallback)
    {
      notified := false;
      if TrimsToEmpty(content) || |selectedPlatforms| == 0 {
        return None, false;
      }
      loading := true;
      sent := Some(CreatePost(content, selectedPlatforms, "text", "published"));
      if succeeded {
        content := "";
        if hasCallback {
          notified := true;
        }
      }
      loading := false;
    }
  }
}

/** The post form with AI assistance (frontend/components/PostForm.jsx): three form
    fields, the prediction, score and rewrite suggestions fetched for the current
    text, and the submit handler. */
module PostForm {
  import opened Common
  import opened Text

  /** The `name` attributes of the form's inputs. */
  datatype Field = ContentField | PlatformField | ContentTypeField

  datatype FormData = FormData(content: string, platform: string, contentType: string)

  const InitialForm := FormData("", "twitter", "text")

  function FieldValue(f: FormData, field: Field): string
  {
    match field
    case ContentField => f.content
    case PlatformField => f.platform
    case ContentTypeField => f.contentType
  }

  /** `{...formData, [name]: value}`. */
  function WithField(f: FormData, field: Field, value: string): (r: FormData)
    ensures FieldValue(r, field) == value
    ensures forall g :: g != field ==> FieldValue(r, g) == FieldValue(f, g)
  {
    match field
    case ContentField => f.(content := value)
    case PlatformField => f.(platform := value)
    case ContentTypeField => f.(contentType := value)
  }

  /** The `predictEngagement` and `scoreContent` requests issued together. */
  datatype PredictRequest = PredictRequest(content: string, platform: string, contentType: string)
  datatype ScoreRequest = ScoreRequest(content: string, platform: string)
  /** `rewriteCaption(content, "engaging", platform)`. */
  datatype RewriteRequest = RewriteRequest(content: string, style: string, platform: string)

  class PostFormPanel {
    var formData: FormData
    var loading: bool
    var prediction: Option<Reply>
    var contentScore: Option<Reply>
    var suggestions: Option<Reply>
    var aiLoading: bool

    constructor ()
      ensures formData == InitialForm && !loading && !aiLoading
      ensures prediction == None && contentScore == None && suggestions == None
    {
      formData := InitialForm;
      loading := false;
      prediction := None;
      contentScore := None;
      suggestions := None;
      aiLoading := false;
    }

    /** `handleChange`: only the named field changes; editing the text discards the AI
        results computed for the old text, the two selects keep them. */
    method HandleChange(field: Field, value: string)
      modifies this`formData, this`prediction, this`contentScore, this`suggestions
      ensures formData == WithField(old(formData), field, value)
      ensures field == ContentField ==> prediction == None && contentScore == None && suggestions == None
      ensures field != ContentField ==>
                prediction == old(prediction) && contentScore == old(contentScore)
                && suggestions == old(suggestions)
    {
      formData := WithField(formData, field, value);
      if field == ContentField {
        prediction := None;
        contentScore := None;
        suggestions := None;
      }
    }

    /** `handlePredictEngagement`; `outcome` is the joint result of both requests
        (`Promise.all` fails as a whole). Blank text is a no-op. */
    method HandlePredictEngagement(outcome: Option<(Reply, Reply)>)
      returns (requested: Option<(PredictRequest, ScoreRequest)>)
      modifies this`prediction, this`contentScore, this`aiLoading
      ensures IsBlank(formData.content) ==>
                requested == None && prediction == old(prediction)
                && contentScore == old(contentScore) && aiLoading == old(aiLoading)
      ensures !IsBlank(formData.content) ==>
                && requested == Some((PredictRequest(formData.content, formData.platform, formData.contentType),
                                      ScoreRequest(formData.content, formData.platform)))
                && !aiLoading
                && (outcome.Some? ==> prediction == Some(outcome.value.0) && contentScore == Some(outcome.value.1))
                && (outcome.None? ==> prediction == old(prediction) && contentScore == old(contentScore))
    {
      if TrimsToEmpty(formData.content) {
        return None;
      }
      aiLoading := true;
      requested := Some((PredictRequest(formData.content, formData.platform, formData.contentType),
                         ScoreRequest(formData.content, formData.platform)));
      if outcome.Some? {
        prediction := Some(outcome.value.0);
        contentScore := Some(outcome.value.1);
      }
      aiLoading := false;
    }

    /** `handleGetSuggestions`: asks for "engaging" rewrites of the text. */
    method HandleGetSuggestions(outcome: Option<Reply>) returns (requested: Option<RewriteRequest>)
      modifies this`suggestions, this`aiLoading
      ensures IsBlank(formData.content) ==>
                requested == None && suggestions == old(suggestions) && aiLoading == old(aiLoading)
      ensures !IsBlank(formData.content) ==>
                && requested == Some(RewriteRequest(formData.content, "engaging", formData.platform))
                && !aiLoading
                && suggestions == (if outcome.Some? then outcome else old(suggestions))
    {
      if TrimsToEmpty(formData.content) {
        return None;
      }
      aiLoading := true;
      requested := Some(RewriteRequest(formData.content, "engaging", formData.platform));
      if outcome.Some? {
        suggestions := outcome;
      }
      aiLoading := false;
    }

    /** `handleUseSuggestion`: the chosen text replaces the content and all three AI
        results are cleared. */
    method HandleUseSuggestion(text: string)
      modifies this`formData, this`prediction, this`contentScore, this`suggestions
      ensures formData == old(formData).(content := text)
      ensures prediction == None && contentScore == None && suggestions == None
    {
      formData := formData.(content := text);
      suggestions := None;
      prediction := None;
      contentScore := None;
    }

    /** `handleSubmit`: blank text is a no-op; a successful `createPost` resets the form
        and the AI results and notifies the parent, a failed one keeps everything. */
    method HandleSubmit(succeeded: bool, hasCallback: bool) returns (sent: Option<FormData>, notified: bool)
      modifies this`formData, this`prediction, this`contentScore, this`suggestions, this`loading
      ensures IsBlank(old(formData).content) ==>
                && sent == None && !notified && formData == old(formData) && loading == old(loading)
                && prediction == old(prediction) && contentScore == old(contentScore)
                && suggestions == old(suggestions)
      ensures !IsBlank(old(formData).content) ==>
                && sent == Some(old(formData)) && !loading
                && (notified <==> succeeded && hasCallback)
                && (succeeded ==> formData == InitialForm
                                  && prediction == None && contentScore == None && suggestions == None)
                && (!succeeded ==> formData == old(formData) && prediction == old(prediction)
                                   && contentScore == old(contentScore) && suggestions == old(suggestions))
    {
      notified := false;
      if TrimsToEmpty(formData.content) {
        return None, false;
      }
      loading := true;
      sent := Some(formData);
      if succeeded {
        formData := InitialForm;
        prediction := None;
        contentScore := None;
        suggestions := None;
        notified := hasCallback;
      }
      loading := false;
    }
  }
}

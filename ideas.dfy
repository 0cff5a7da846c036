/** Content ideas from the trending topics (backend/app/services/ai_services.py,
    `generate_content_ideas`): one suggestion per topic, for the first three topics. */
module ContentIdeas {
  import opened Text

  const IdeaPrefix := "Create a post about: "

  /** `f"Create a post about: {topic}"`. */
  function Idea(topic: string): (s: string)
    ensures IsPrefix(IdeaPrefix, s)
    ensures s[|IdeaPrefix|..] == topic
  {
    IdeaPrefix + topic
  }

  /** Different topics give different ideas: the topic can be read back from its idea. */
  lemma IdeaInjective(t: string, u: string)
    requires Idea(t) == Idea(u)
    ensures t == u
  {
  }

  /** `generate_content_ideas`, over the topic names (the `topic` field of each trending
      topic): the ideas for the first three topics, in order, and no others. */
  method GenerateContentIdeas(topics: seq<string>) returns (ideas: seq<string>)
    ensures |ideas| == if |topics| < 3 then |topics| else 3
    ensures forall i :: 0 <= i < |ideas| ==> ideas[i] == Idea(topics[i])
  {
    ideas := [];
    var first := if |topics| < 3 then topics else topics[..3];
    var i := 0;
    while i < |first|
      invariant 0 <= i <= |first|
      invariant |ideas| == i
      invariant forall k :: 0 <= k < i ==> ideas[k] == Idea(first[k])
    {
      ideas := ideas + [Idea(first[i])];
      i := i + 1;
    }
  }
}

/**
 * `write_content` from master_agent/tools/writing_tools.py: a canned Markdown
 * draft built from the topic and the keywords found in the research text,
 * kept in the store's draft slot.
 */
module WritingTools {
  import opened Wrappers
  import opened Text
  import opened WorkflowStore
  import opened ResearchTools

  const NoTopicError: string := "\U{274C} Error: No topic provided for content writing."
  const NoResearchError: string := "\U{274C} Error: No research data provided. Please conduct research first."

  /** The parameter defaults (`DEFAULT_WORD_COUNT` and `DEFAULT_TONE` come from the settings). */
  const DefaultContentType: string := "blog post"
  const DefaultWordCount: int := 1500
  const DefaultTone: string := "professional"

  /** What the draft names as keywords when the research text has no keywords line. */
  const FallbackKeywords: string := "related topics"

  /** The line that marks a draft; the review tool rewrites it. */
  const DraftStatus: string := "**Status**: Draft - Ready for Review"

  // ---------------------------------------------------------------------------
  // re.search(r'Keywords: (.+)', research_data)

  /** The pattern `Keywords: (.+)` matches at `p`: the label, then at least one character other than a newline. */
  predicate KeywordsAt(s: string, p: nat) {
    OccursAt(s, p, KeywordsLabel) && p + |KeywordsLabel| < |s| && s[p + |KeywordsLabel|] != '\n'
  }

  /** `r` starts at `start` and runs to the end of its line, as the greedy `(.+)$` capture does. */
  predicate CaptureRunsToLineEnd(s: string, start: nat, r: string) {
    start + |r| <= |s| && s[start..start + |r|] == r && (start + |r| == |s| || s[start + |r|] == '\n')
  }

  /** The leftmost match at or after `from`. */
  function SearchKeywords(s: string, from: nat): (r: Option<nat>)
    requires from <= |s|
    ensures r.Some? ==> from <= r.value && KeywordsAt(s, r.value)
    ensures r.Some? ==> forall p :: from <= p < r.value ==> !KeywordsAt(s, p)
    ensures r.None? ==> forall p :: from <= p ==> !KeywordsAt(s, p)
    decreases |s| - from
  {
    if KeywordsAt(s, from) then Some(from)
    else if from == |s| then None
    else SearchKeywords(s, from + 1)
  }

  /**
   * `keywords_match.group(1) if keywords_match else "related topics"`: the
   * rest of the line after the first `Keywords: ` that is followed by some
   * text, and the fallback when there is none.
   */
  function ExtractKeywords(research: string): (r: string)
    ensures (forall p :: !KeywordsAt(research, p)) ==> r == FallbackKeywords
    ensures (exists p :: KeywordsAt(research, p)) ==>
      |r| > 0 && '\n' !in r && Contains(research, KeywordsLabel + r)
    ensures (exists p :: KeywordsAt(research, p)) ==>
      exists p: nat :: KeywordsAt(research, p) && (forall q: nat :: q < p ==> !KeywordsAt(research, q))
        && CaptureRunsToLineEnd(research, p + |KeywordsLabel|, r)
  {
    match SearchKeywords(research, 0)
    case None => FallbackKeywords
    case Some(p) =>
      var start := p + |KeywordsLabel|;
      var r := research[start..LineEnd(research, start)];
      assert research[p..p + |KeywordsLabel + r|] == KeywordsLabel + r;
      assert OccursAt(research, p, KeywordsLabel + r);
      assert CaptureRunsToLineEnd(research, start, r);
      r
  }

  /**
   * In `a + "\n" + "Keywords: " + v + "\n" + b`, with no label inside `a`,
   * the first match is the one after `a`, and it captures exactly `v`.
   */
  lemma ExtractKeywordsAfter(a: string, v: string, b: string)
    requires !Contains(a, KeywordsLabel)
    requires |v| > 0 && '\n' !in v
    ensures ExtractKeywords(a + "\n" + KeywordsLabel + v + "\n" + b) == v
  {
    var s := a + "\n" + KeywordsLabel + v + "\n" + b;
    var n := |KeywordsLabel|;
    var start := |a| + 1 + n;
    forall p: nat | p <= |a|
      ensures !KeywordsAt(s, p)
    {
      if p + n <= |a| {
        assert a[p..p + n] == s[p..p + n];
        assert !OccursAt(a, p, KeywordsLabel);
        assert !OccursAt(s, p, KeywordsLabel);
      } else {
        assert s[|a|] == '\n';
        assert '\n' !in KeywordsLabel;
        if p + n <= |s| {
          assert s[p..p + n][|a| - p] == '\n';
        }
      }
    }
    assert s[|a| + 1..start] == KeywordsLabel;
    assert s[start] == v[0];
    assert KeywordsAt(s, |a| + 1);
    var e := LineEnd(s, start);
    assert s[start + |v|] == '\n';
    forall k | start <= k < start + |v|
      ensures s[k] == v[k - start]
    {}
    assert e == start + |v|;
    assert s[start..e] == v;
  }

  /** The keywords line of a research report reads back as the keywords written into it. */
  lemma ReportKeywordsRoundTrip(topic: string, ks: string, audience: string)
    requires !Contains(topic, KeywordsLabel)
    requires |ks| > 0 && '\n' !in ks
    ensures ExtractKeywords(ResearchReport(topic, ks, audience)) == ks
  {
    var banner := ReportBanner + "Topic: ";
    assert 'K' !in Rule();
    assert 'K' !in banner;
    if Contains(banner + topic, KeywordsLabel) {
      ContainsPastFree(banner, topic, KeywordsLabel);
    }
    ExtractKeywordsAfter(ReportHead(topic), ks, ReportTail(topic, ks, audience));
  }

  // ---------------------------------------------------------------------------
  // The draft

  /** The draft between the title line and the closing rule. */
  function DraftBody(topic: string, contentType: string): string {
    "\n## Introduction\n\nWelcome to this comprehensive guide on "
    + topic
    + ". In this "
    + contentType
    + ", we'll explore everything you need to know about this important subject, providing you with valuable insights and practical information.\n"
    + "\n"
    + topic
    + " has become increasingly relevant in today's world, and understanding its key aspects can help you make informed decisions and achieve better results.\n"
    + "\n## Understanding "
    + topic
    + "\n\n"
    + topic
    + " encompasses various important concepts and principles. Let's dive into the fundamental aspects that make this topic significant.\n"
    + "\n### Key Concepts\n\nThe core concepts of "
    + topic
    + " include several essential elements that work together to create a comprehensive understanding. These concepts form the foundation for deeper exploration and application.\n"
    + "\n### Benefits and Applications\n\nUnderstanding "
    + topic
    + " offers numerous benefits, including:\n\n"
    + "- Enhanced knowledge and awareness\n"
    + "- Better decision-making capabilities\n- Improved outcomes and results\n"
    + "- Practical applications in various contexts\n\n## Best Practices\n\n"
    + "When working with "
    + topic
    + ", following best practices can significantly improve your results:\n\n"
    + "1. **Start with the Basics**: Build a solid foundation before advancing\n"
    + "2. **Stay Updated**: Keep abreast of the latest developments and trends\n"
    + "3. **Apply Consistently**: Regular application leads to better outcomes\n"
    + "4. **Learn from Experience**: Reflect on what works and what doesn't\n\n"
    + "## Common Challenges and Solutions\n\n"
    + "Many people encounter challenges when dealing with "
    + topic
    + ". Here are some common issues and their solutions:\n\n"
    + "### Challenge 1: Getting Started\n"
    + "**Solution**: Begin with clear goals and a structured approach. Break down complex tasks into manageable steps.\n"
    + "\n### Challenge 2: Maintaining Consistency\n"
    + "**Solution**: Develop a routine and stick to it. Track your progress and adjust as needed.\n"
    + "\n### Challenge 3: Staying Motivated\n"
    + "**Solution**: Set milestones and celebrate achievements. Connect with others who share similar interests.\n"
    + "\n## Advanced Strategies\n\n"
    + "For those looking to take their understanding of "
    + topic
    + " to the next level, consider these advanced strategies:\n\n"
    + "- Deep dive into specialized areas\n"
    + "- Connect with experts and communities\n"
    + "- Experiment with different approaches\n"
    + "- Continuously refine your methods\n\n## Future Trends\n\n"
    + "The landscape of "
    + topic
    + " is constantly evolving. Here are some trends to watch:\n\n"
    + "- Emerging technologies and methodologies\n"
    + "- Changing perspectives and approaches\n"
    + "- New opportunities and applications\n- Evolving best practices\n\n"
    + "## Conclusion\n\nIn conclusion, "
    + topic
    + " is a multifaceted subject that offers significant value when properly understood and applied. By following the insights and recommendations outlined in this guide, you can navigate this topic more effectively and achieve your desired outcomes.\n"
    + "\nRemember, success with "
    + topic
    + " comes from consistent effort, continuous learning, and practical application. Start implementing these strategies today and see the positive impact on your journey.\n"
  }

  /** The closing rule and the metadata lines, ending with the draft status. */
  function DraftFooter(keywords: string, contentType: string, tone: string, wordCount: int): string {
    "\n---\n\n"
    + ("**Keywords**: " + keywords)
    + ("\n**Content Type**: " + contentType)
    + ("\n**Tone**: " + tone)
    + ("\n**Target Word Count**: " + IntToString(wordCount) + " words\n")
    + DraftStatus
    + "\n\n"
  }

  /** The draft the f-string builds: the title line, the sections, the footer. */
  function DraftText(topic: string, keywords: string, contentType: string, tone: string, wordCount: int): string {
    "\n# " + topic + "\n" + DraftBody(topic, contentType) + DraftFooter(keywords, contentType, tone, wordCount)
  }

  /** The footer names the keywords, the content type, the tone, the word count target and the draft status. */
  lemma FooterMentions(keywords: string, contentType: string, tone: string, wordCount: int)
    ensures Contains(DraftFooter(keywords, contentType, tone, wordCount), "**Keywords**: " + keywords)
    ensures Contains(DraftFooter(keywords, contentType, tone, wordCount), "\n**Content Type**: " + contentType)
    ensures Contains(DraftFooter(keywords, contentType, tone, wordCount), "\n**Tone**: " + tone)
    ensures Contains(DraftFooter(keywords, contentType, tone, wordCount),
                     "\n**Target Word Count**: " + IntToString(wordCount) + " words\n")
    ensures Contains(DraftFooter(keywords, contentType, tone, wordCount), DraftStatus)
  {
    var k := "**Keywords**: " + keywords;
    var c := "\n**Content Type**: " + contentType;
    var t := "\n**Tone**: " + tone;
    var n := "\n**Target Word Count**: " + IntToString(wordCount) + " words\n";
    var upToC := "\n---\n\n" + k + c;
    ContainsInfix("\n---\n\n", k, c);
    ContainsInLeft(upToC, t, k);
    ContainsInLeft(upToC + t, n, k);
    ContainsInLeft(upToC + t + n, DraftStatus, k);
    ContainsInLeft(upToC + t + n + DraftStatus, "\n\n", k);
    ContainsInfix(upToC + t, n, DraftStatus);
    ContainsInLeft(upToC + t + n + DraftStatus, "\n\n", n);
    ContainsInfix(upToC + t + n, DraftStatus, "\n\n");
    ContainsInfix("\n---\n\n" + k, c, t);
    ContainsInLeft(upToC + t, n, c);
    ContainsInLeft(upToC + t + n, DraftStatus, c);
    ContainsInLeft(upToC + t + n + DraftStatus, "\n\n", c);
    ContainsInfix(upToC, t, n);
    ContainsInLeft(upToC + t + n, DraftStatus, t);
    ContainsInLeft(upToC + t + n + DraftStatus, "\n\n", t);
  }

  /**
   * The draft as `write_content` records it: returned, and kept in the draft
   * slot together with the inputs; nothing else in the store changes.
   */
  function RecordDraft(w: WorkflowState, topic: string, draft: string, contentType: string,
                       wordCount: int, tone: string): (r: ToolResult)
    ensures r.reply == draft
    ensures var data := GetDraftContent(r.store);
      && Field(data, "topic") == Str(topic)
      && Field(data, "content") == Str(draft)
      && Field(data, "content_type") == Str(contentType)
      && Field(data, "word_count") == Int(wordCount)
      && Field(data, "tone") == Str(tone)
    ensures r.store.state - {DraftKey} == w.state - {DraftKey}
  {
    var data := Object(map["topic" := Str(topic), "content" := Str(draft), "content_type" := Str(contentType),
                           "word_count" := Int(wordCount), "tone" := Str(tone)]);
    ToolResult(draft, SetDraftContent(w, data))
  }

  /**
   * `write_content`: a missing topic is reported first, then missing
   * research, and neither writes the store. Otherwise the reply is the draft
   * for the keywords found in the research text, the draft slot holds the
   * inputs with exactly that draft, and nothing else changes.
   */
  function WriteContent(w: WorkflowState, topic: string, research: string, contentType: string,
                        wordCount: int, tone: string): (r: ToolResult)
    ensures |topic| == 0 ==> r == ToolResult(NoTopicError, w)
    ensures |topic| > 0 && |research| == 0 ==> r == ToolResult(NoResearchError, w)
    ensures |topic| > 0 && |research| > 0 ==>
      r.reply == DraftText(topic, ExtractKeywords(research), contentType, tone, wordCount)
    ensures |topic| > 0 && |research| > 0 ==>
      var data := GetDraftContent(r.store);
      && Field(data, "topic") == Str(topic)
      && Field(data, "content") == Str(r.reply)
      && Field(data, "content_type") == Str(contentType)
      && Field(data, "word_count") == Int(wordCount)
      && Field(data, "tone") == Str(tone)
    ensures r.store.state - {DraftKey} == w.state - {DraftKey}
  {
    if |topic| == 0 then ToolResult(NoTopicError, w)
    else if |research| == 0 then ToolResult(NoResearchError, w)
    else
      RecordDraft(w, topic, DraftText(topic, ExtractKeywords(research), contentType, tone, wordCount),
                  contentType, wordCount, tone)
  }

  /** A draft opens with the topic as its Markdown title, on a line of its own. */
  lemma DraftHasTitleLine(topic: string, keywords: string, contentType: string, tone: string, wordCount: int)
    ensures Contains(DraftText(topic, keywords, contentType, tone, wordCount), "\n# " + topic + "\n")
  {
    var title := "\n# " + topic;
    var body := DraftBody(topic, contentType);
    ContainsStart(title + "\n", body);
    ContainsInLeft(title + "\n" + body, DraftFooter(keywords, contentType, tone, wordCount), title + "\n");
  }

  /** A draft names the keywords it was given. */
  lemma DraftNamesKeywords(topic: string, keywords: string, contentType: string, tone: string, wordCount: int)
    ensures Contains(DraftText(topic, keywords, contentType, tone, wordCount), "**Keywords**: " + keywords)
  {
    FooterMentions(keywords, contentType, tone, wordCount);
    ContainsInRight("\n# " + topic + "\n" + DraftBody(topic, contentType),
                    DraftFooter(keywords, contentType, tone, wordCount), "**Keywords**: " + keywords);
  }

  /** A draft names its content type. */
  lemma DraftNamesContentType(topic: string, keywords: string, contentType: string, tone: string, wordCount: int)
    ensures Contains(DraftText(topic, keywords, contentType, tone, wordCount), "\n**Content Type**: " + contentType)
  {
    FooterMentions(keywords, contentType, tone, wordCount);
    ContainsInRight("\n# " + topic + "\n" + DraftBody(topic, contentType),
                    DraftFooter(keywords, contentType, tone, wordCount), "\n**Content Type**: " + contentType);
  }

  /** A draft names its tone. */
  lemma DraftNamesTone(topic: string, keywords: string, contentType: string, tone: string, wordCount: int)
    ensures Contains(DraftText(topic, keywords, contentType, tone, wordCount), "\n**Tone**: " + tone)
  {
    FooterMentions(keywords, contentType, tone, wordCount);
    ContainsInRight("\n# " + topic + "\n" + DraftBody(topic, contentType),
                    DraftFooter(keywords, contentType, tone, wordCount), "\n**Tone**: " + tone);
  }

  /** A draft states its word count target on a line of its own. */
  lemma DraftNamesWordCount(topic: string, keywords: string, contentType: string, tone: string, wordCount: int)
    ensures Contains(DraftText(topic, keywords, contentType, tone, wordCount),
                     "\n**Target Word Count**: " + IntToString(wordCount) + " words\n")
  {
    FooterMentions(keywords, contentType, tone, wordCount);
    ContainsInRight("\n# " + topic + "\n" + DraftBody(topic, contentType),
                    DraftFooter(keywords, contentType, tone, wordCount),
                    "\n**Target Word Count**: " + IntToString(wordCount) + " words\n");
  }

  /** A draft carries the draft status line the review tool looks for. */
  lemma DraftIsMarkedDraft(topic: string, keywords: string, contentType: string, tone: string, wordCount: int)
    ensures Contains(DraftText(topic, keywords, contentType, tone, wordCount), DraftStatus)
  {
    FooterMentions(keywords, contentType, tone, wordCount);
    ContainsInRight("\n# " + topic + "\n" + DraftBody(topic, contentType),
                    DraftFooter(keywords, contentType, tone, wordCount), DraftStatus);
  }

  /** The keywords `write_content` finds in a report are the ones `conduct_research` wrote into it. */
  lemma ResearchKeywordsRoundTrip(w: WorkflowState, topic: string, keywords: seq<string>, audience: string)
    requires |topic| > 0 && !Contains(topic, KeywordsLabel)
    requires forall k :: 0 <= k < |keywords| ==> '\n' !in keywords[k]
    requires |KeywordsText(keywords)| > 0
    ensures ExtractKeywords(ConductResearch(w, topic, keywords, audience).reply) == KeywordsText(keywords)
  {
    ReportKeywordsRoundTrip(topic, KeywordsText(keywords), audience);
  }

  /** The draft `write_content` returns names the keywords of its research text. */
  lemma WriteContentNamesKeywords(w: WorkflowState, topic: string, research: string, contentType: string,
                                  wordCount: int, tone: string)
    requires |topic| > 0 && |research| > 0
    ensures Contains(WriteContent(w, topic, research, contentType, wordCount, tone).reply,
                     "**Keywords**: " + ExtractKeywords(research))
  {
    DraftNamesKeywords(topic, ExtractKeywords(research), contentType, tone, wordCount);
  }
}

/**
 * `conduct_research` from master_agent/tools/research_tools.py: a canned
 * research report built from the topic, the keywords and the audience, kept
 * in the store's research slot.
 */
module ResearchTools {
  import opened Text
  import opened WorkflowStore

  const NoTopicError: string := "\U{274C} Error: No topic provided for research."

  /** The `target_audience` default. */
  const DefaultAudience: string := "general"

  /** The label the writing tool later searches the report for. */
  const KeywordsLabel: string := "Keywords: "

  /** What the report shows when no keyword was given. */
  const NoKeywordsText: string := "related topics"

  /** `", ".join(keywords) if keywords else "related topics"`. */
  function KeywordsText(keywords: seq<string>): (r: string)
    ensures keywords == [] ==> r == NoKeywordsText
    ensures (forall k :: 0 <= k < |keywords| ==> '\n' !in keywords[k]) ==> '\n' !in r
  {
    if keywords == [] then NoKeywordsText
    else
      JoinAvoidsNewline(keywords);
      Join(keywords, ", ")
  }

  lemma JoinAvoidsNewline(keywords: seq<string>)
    ensures (forall k :: 0 <= k < |keywords| ==> '\n' !in keywords[k]) ==> '\n' !in Join(keywords, ", ")
  {
    if forall k :: 0 <= k < |keywords| ==> '\n' !in keywords[k] {
      JoinAvoids(keywords, ", ", '\n');
    }
  }

  /** The report's banner, up to the topic line. */
  const ReportBanner: string := "\n\U{1F4DA} RESEARCH REPORT\n" + Rule() + "\n\n"

  /** The report up to and including the topic line's text. */
  function ReportHead(topic: string): string {
    ReportBanner + "Topic: " + topic
  }

  /** The report from the audience line to the end. */
  function ReportTail(topic: string, keywordsText: string, audience: string): string {
    ("Target Audience: " + audience) + ReportBody(topic, keywordsText, audience)
  }

  /** The fixed prose of the findings, between the inputs the report repeats. */
  const FindingsIntro: string := "\n\n\U{1F50D} KEY FINDINGS:\n\n1. Topic Overview:\n   - "
  const OverviewToSeo: string :=
    " is a relevant and important subject in today's context\n"
    + "   - Current trends show growing interest in this area\n"
    + "   - Multiple perspectives and approaches exist\n\n"
    + "2. Key Points to Cover:\n"
    + "   - Introduction and background information\n"
    + "   - Main concepts and definitions\n"
    + "   - Benefits and applications\n"
    + "   - Best practices and recommendations\n"
    + "   - Common challenges and solutions\n"
    + "   - Future trends and outlook\n\n"
    + "3. SEO Considerations:\n   - Primary keyword: "
  const SecondaryLabel: string := "\n   - Secondary keywords: "
  const AudienceLabel: string := "\n   - Target audience: "
  const StructureAdvice: string :=
    "\n   - Recommended content length: 1500-2500 words\n"
    + "   - Suggested headings: H2 and H3 tags for structure\n\n"
    + "4. Content Structure Recommendations:\n"
    + "   - Engaging introduction with hook\n"
    + "   - Clear value proposition\n"
    + "   - Well-organized sections with subheadings\n"
    + "   - Actionable insights and takeaways\n"
    + "   - Strong conclusion with call-to-action\n\n"
    + "5. Additional Insights:\n"
    + "   - Include relevant examples and case studies\n"
    + "   - Use data and statistics where possible\n"
    + "   - Address common questions and concerns\n"
    + "   - Provide practical tips and advice\n\n"
    + "\U{1F4CA} Research Status: Complete\n"
    + "\U{2705} Ready for content writing phase\n\n"

  /** The findings, after the audience's name. */
  function ReportBody(topic: string, keywordsText: string, audience: string): string {
    FindingsIntro + topic + OverviewToSeo + topic + SecondaryLabel + keywordsText
    + AudienceLabel + audience + StructureAdvice + Rule() + "\n"
  }

  /** The whole report the f-string builds. */
  function ResearchReport(topic: string, keywordsText: string, audience: string): string {
    ReportHead(topic) + "\n" + KeywordsLabel + keywordsText + "\n" + ReportTail(topic, keywordsText, audience)
  }

  /** The dict stored as research data. */
  function ResearchValue(topic: string, keywords: seq<string>, audience: string, report: string): (v: Value)
    ensures Field(v, "topic") == Str(topic)
    ensures Field(v, "keywords") == StrList(keywords)
    ensures Field(v, "target_audience") == Str(audience)
    ensures Field(v, "report") == Str(report)
  {
    Object(map["topic" := Str(topic), "keywords" := StrList(keywords),
               "target_audience" := Str(audience), "report" := Str(report)])
  }

  /**
   * `conduct_research`: without a topic, an error and no write. Otherwise the
   * report names the topic, the keywords (or "related topics") and the
   * audience on lines of their own, and the research slot holds the inputs
   * together with exactly the returned report; nothing else in the store changes.
   */
  function ConductResearch(w: WorkflowState, topic: string, keywords: seq<string>, audience: string): (r: ToolResult)
    ensures |topic| == 0 ==> r == ToolResult(NoTopicError, w)
    ensures |topic| > 0 ==> r.reply == ResearchReport(topic, KeywordsText(keywords), audience)
    ensures |topic| > 0 ==>
      && Contains(r.reply, "Topic: " + topic)
      && Contains(r.reply, KeywordsLabel + KeywordsText(keywords))
      && Contains(r.reply, "Target Audience: " + audience)
    ensures |topic| > 0 ==>
      var data := GetResearchData(r.store);
      && Field(data, "topic") == Str(topic)
      && Field(data, "keywords") == StrList(keywords)
      && Field(data, "target_audience") == Str(audience)
      && Field(data, "report") == Str(r.reply)
    ensures r.store.state - {ResearchKey} == w.state - {ResearchKey}
  {
    if |topic| == 0 then ToolResult(NoTopicError, w)
    else
      var ks := KeywordsText(keywords);
      var report := ResearchReport(topic, ks, audience);
      ReportHasTopic(topic, ks, audience);
      ReportHasKeywords(topic, ks, audience);
      ReportHasAudience(topic, ks, audience);
      var data := ResearchValue(topic, keywords, audience, report);
      ToolResult(report, SetResearchData(w, data))
  }

  /** The report carries the topic line. */
  lemma ReportHasTopic(topic: string, ks: string, audience: string)
    ensures Contains(ResearchReport(topic, ks, audience), "Topic: " + topic)
  {
    var t := "Topic: " + topic;
    var head := ReportHead(topic);
    ContainsEnding(ReportBanner, "Topic: ", topic);
    ContainsInLeft(head, "\n", t);
    ContainsInLeft(head + "\n", KeywordsLabel, t);
    ContainsInLeft(head + "\n" + KeywordsLabel, ks, t);
    ContainsInLeft(head + "\n" + KeywordsLabel + ks, "\n", t);
    ContainsInLeft(head + "\n" + KeywordsLabel + ks + "\n", ReportTail(topic, ks, audience), t);
  }

  /** The report carries the keywords line. */
  lemma ReportHasKeywords(topic: string, ks: string, audience: string)
    ensures Contains(ResearchReport(topic, ks, audience), KeywordsLabel + ks)
  {
    var t := KeywordsLabel + ks;
    var head := ReportHead(topic);
    ContainsEnding(head + "\n", KeywordsLabel, ks);
    ContainsInLeft(head + "\n" + KeywordsLabel + ks, "\n", t);
    ContainsInLeft(head + "\n" + KeywordsLabel + ks + "\n", ReportTail(topic, ks, audience), t);
  }

  /** The report carries the audience line. */
  lemma ReportHasAudience(topic: string, ks: string, audience: string)
    ensures Contains(ResearchReport(topic, ks, audience), "Target Audience: " + audience)
  {
    ContainsStart("Target Audience: " + audience, ReportBody(topic, ks, audience));
    ContainsInRight(ReportHead(topic) + "\n" + KeywordsLabel + ks + "\n", ReportTail(topic, ks, audience),
                    "Target Audience: " + audience);
  }
}

/**
 * `review_and_polish` from master_agent/tools/review_tools.py: counts words,
 * headings and paragraphs, rewrites the draft status line, and keeps the
 * polished text in the store's final slot.
 */
module ReviewTools {
  import opened Wrappers
  import opened Text
  import opened WorkflowStore
  import opened Headings
  import opened WritingTools

  const NoContentError: string := "\U{274C} Error: No content provided for review."

  /** The focus areas used when none are given. */
  const DefaultFocusAreas: seq<string> := ["clarity", "SEO", "engagement", "readability"]

  /** The status line of polished content, and of grammar-checked content. */
  const PolishedStatus: string := "**Status**: \U{2705} Reviewed and Polished"
  const GrammarStatus: string := "**Status**: \U{2705} Reviewed, Polished, and Grammar-Checked"

  /** The topic named when the content has no `#`. */
  const GenericTopic: string := "this topic"

  // ---------------------------------------------------------------------------
  // len(content.split())

  /** The number of leading characters of `s` that are not whitespace. */
  function WordLength(s: string): (n: nat)
    ensures n <= |s|
    ensures forall i :: 0 <= i < n ==> !IsSpace(s[i])
    ensures n < |s| ==> IsSpace(s[n])
  {
    if |s| > 0 && !IsSpace(s[0]) then 1 + WordLength(s[1..]) else 0
  }

  /** Python's `s.split()`: the maximal runs of non-whitespace characters, in order. */
  function Split(s: string): (r: seq<string>)
    ensures forall k :: 0 <= k < |r| ==> |r[k]| > 0
    ensures forall k, j :: 0 <= k < |r| && 0 <= j < |r[k]| ==> !IsSpace(r[k][j])
    decreases |s|
  {
    var a := LeadingSpaces(s);
    if a == |s| then []
    else
      var t := s[a..];
      var n := WordLength(t);
      [t[..n]] + Split(t[n..])
  }

  /**
   * The number of positions where a word starts: a character that is not
   * whitespace, first in `s` or after whitespace (`afterSpace` says whether
   * the character before `s` was whitespace).
   */
  function WordStarts(s: string, afterSpace: bool): nat
    decreases |s|
  {
    if |s| == 0 then 0
    else (if afterSpace && !IsSpace(s[0]) then 1 else 0) + WordStarts(s[1..], IsSpace(s[0]))
  }

  lemma {:induction false} WordStartsSkipSpaces(s: string, k: nat)
    requires k <= |s|
    requires forall i :: 0 <= i < k ==> IsSpace(s[i])
    ensures WordStarts(s, true) == WordStarts(s[k..], true)
    decreases k
  {
    if k > 0 {
      WordStartsSkipSpaces(s[1..], k - 1);
      assert s[1..][k - 1..] == s[k..];
    }
  }

  lemma {:induction false} WordStartsInsideWord(s: string, k: nat)
    requires k <= |s|
    requires forall i :: 0 <= i < k ==> !IsSpace(s[i])
    ensures WordStarts(s, false) == WordStarts(s[k..], false)
    decreases k
  {
    if k > 0 {
      WordStartsInsideWord(s[1..], k - 1);
      assert s[1..][k - 1..] == s[k..];
    }
  }

  /** `str.split()` finds one word per word start. */
  lemma {:induction false} SplitCountsWordStarts(s: string)
    ensures |Split(s)| == WordStarts(s, true)
    decreases |s|
  {
    var a := LeadingSpaces(s);
    WordStartsSkipSpaces(s, a);
    if a < |s| {
      var t := s[a..];
      var n := WordLength(t);
      WordStartsInsideWord(t[1..], n - 1);
      assert t[1..][n - 1..] == t[n..];
      SplitCountsWordStarts(t[n..]);
    }
  }

  /** The word count the review reports: the number of places where a word starts. */
  function WordCount(content: string): (n: nat)
    ensures n == WordStarts(content, true)
  {
    SplitCountsWordStarts(content);
    |Split(content)|
  }

  /**
   * The heading count: `len(re.findall(r'^#+\s', content, re.MULTILINE))`,
   * which is the number of line starts where the pattern matches.
   */
  function HeadingCount(content: string): (n: nat)
    ensures n == HashHeadingPositions(content, 0)
  {
    CountHashHeadingsCountsPositions(content, 0);
    CountHashHeadings(content, 0)
  }

  // ---------------------------------------------------------------------------
  // The paragraph count

  /** The number of consecutive newlines directly before position `p`. */
  function NewlinesBefore(s: string, p: nat): (n: nat)
    requires p <= |s|
    ensures n <= p
  {
    if p == 0 || s[p - 1] != '\n' then 0 else 1 + NewlinesBefore(s, p - 1)
  }

  /** A blank line `\n\n` starts at `p`. */
  predicate BlankAt(s: string, p: nat) {
    p + 1 < |s| && s[p] == '\n' && s[p + 1] == '\n'
  }

  /**
   * A blank line at `p` that a left-to-right scan for `\n\n` reports: an even
   * run of newlines before it has been consumed in whole pairs, so no earlier
   * match covers position `p`.
   */
  predicate ReportedBlankAt(s: string, p: nat)
    requires p <= |s|
  {
    BlankAt(s, p) && NewlinesBefore(s, p) % 2 == 0
  }

  /** An independent reference count: the positions at or after `from` where a reported blank line starts. */
  function BlankLinePositions(s: string, from: nat): nat
    requires from <= |s|
    decreases |s| - from
  {
    if from == |s| then 0 else (if ReportedBlankAt(s, from) then 1 else 0) + BlankLinePositions(s, from + 1)
  }

  /** Dropping a leading blank line shifts every newline run by two, which keeps its parity. */
  lemma {:induction false} NewlinesBeforeAfterBlank(s: string, p: nat)
    requires BlankAt(s, 0) && 2 <= p <= |s|
    ensures NewlinesBefore(s, p) % 2 == NewlinesBefore(s[2..], p - 2) % 2
  {
    if p == 2 {
      assert NewlinesBefore(s, 0) == 0;
      assert NewlinesBefore(s, 1) == 1;
    } else if s[p - 1] == '\n' {
      assert s[2..][p - 3] == s[p - 1];
      NewlinesBeforeAfterBlank(s, p - 1);
    } else {
      assert s[2..][p - 3] == s[p - 1];
    }
  }

  /** Dropping a first character that does not start a blank line leaves every later newline run as it was. */
  lemma {:induction false} NewlinesBeforeAfterOther(s: string, p: nat)
    requires |s| > 0 && !BlankAt(s, 0) && 2 <= p <= |s|
    ensures NewlinesBefore(s, p) == NewlinesBefore(s[1..], p - 1)
  {
    assert s[1..][p - 2] == s[p - 1];
    if s[p - 1] == '\n' {
      if p == 2 {
        assert s[0] != '\n';
        assert NewlinesBefore(s, 1) == 0;
      } else {
        NewlinesBeforeAfterOther(s, p - 1);
      }
    }
  }

  lemma {:induction false} PositionsAfterBlank(s: string, from: nat)
    requires BlankAt(s, 0) && 2 <= from <= |s|
    ensures BlankLinePositions(s, from) == BlankLinePositions(s[2..], from - 2)
    decreases |s| - from
  {
    if from < |s| {
      NewlinesBeforeAfterBlank(s, from);
      assert BlankAt(s, from) <==> BlankAt(s[2..], from - 2);
      PositionsAfterBlank(s, from + 1);
    }
  }

  lemma {:induction false} PositionsAfterOther(s: string, from: nat)
    requires |s| > 0 && !BlankAt(s, 0) && 1 <= from <= |s|
    ensures BlankLinePositions(s, from) == BlankLinePositions(s[1..], from - 1)
    decreases |s| - from
  {
    if from < |s| {
      assert BlankAt(s, from) <==> BlankAt(s[1..], from - 1);
      if from == 1 {
        if BlankAt(s, 1) {
          assert s[0] != '\n';
        }
      } else {
        NewlinesBeforeAfterOther(s, from);
      }
      PositionsAfterOther(s, from + 1);
    }
  }

  /** The left-to-right count of `\n\n` equals the number of positions where a reported blank line starts. */
  lemma {:induction false} CountCountsBlankLines(s: string)
    ensures Count(s, "\n\n") == BlankLinePositions(s, 0)
    decreases |s|
  {
    if |s| < 2 {
      assert !ReportedBlankAt(s, 0);
      if |s| == 1 {
        assert !ReportedBlankAt(s, 1);
      }
    } else if s[..2] == "\n\n" {
      assert BlankAt(s, 0) && NewlinesBefore(s, 0) == 0;
      assert NewlinesBefore(s, 1) == 1;
      PositionsAfterBlank(s, 2);
      CountCountsBlankLines(s[2..]);
      assert BlankLinePositions(s, 0) == 1 + BlankLinePositions(s, 1);
      assert BlankLinePositions(s, 1) == BlankLinePositions(s, 2);
    } else {
      assert s[..2] == [s[0], s[1]];
      assert !BlankAt(s, 0);
      PositionsAfterOther(s, 1);
      CountCountsBlankLines(s[1..]);
    }
  }

  /**
   * The paragraph count: `len(re.findall(r'\n\n', content))`. It is the number
   * of blank lines a left-to-right scan reports, and zero exactly when there is no blank line.
   */
  function ParagraphCount(content: string): (n: nat)
    ensures n == BlankLinePositions(content, 0)
    ensures n == 0 <==> !Contains(content, "\n\n")
  {
    CountZeroIffAbsent(content, "\n\n");
    CountCountsBlankLines(content);
    Count(content, "\n\n")
  }

  // ---------------------------------------------------------------------------
  // The meta description

  /** The index of the first `#` in `s`. */
  function FirstHash(s: string): (i: nat)
    requires '#' in s
    ensures i < |s| && s[i] == '#'
    ensures forall k :: 0 <= k < i ==> s[k] != '#'
  {
    if s[0] == '#' then 0
    else
      assert '#' in s[1..] by {
        var j :| 0 <= j < |s| && s[j] == '#';
        assert s[1..][j - 1] == '#';
      }
      1 + FirstHash(s[1..])
  }

  /** The first index at or after `i` holding `#` or a newline, or `|s|`. */
  function SegmentEnd(s: string, i: nat): (e: nat)
    requires i <= |s|
    ensures i <= e <= |s|
    ensures forall k :: i <= k < e ==> s[k] != '#' && s[k] != '\n'
    ensures e < |s| ==> s[e] == '#' || s[e] == '\n'
    decreases |s| - i
  {
    if i == |s| || s[i] == '#' || s[i] == '\n' then i else SegmentEnd(s, i + 1)
  }

  /**
   * `content.split('#')[1].split('\n')[0].strip() if '#' in content else
   * 'this topic'`: the text after the first `#`, up to the next `#` or
   * newline, stripped.
   */
  function MetaTopic(content: string): (r: string)
    ensures '#' !in content ==> r == GenericTopic
    ensures '#' in content ==>
      var i := FirstHash(content);
      r == Strip(content[i + 1..SegmentEnd(content, i + 1)])
  {
    if '#' in content then
      var i := FirstHash(content);
      Strip(content[i + 1..SegmentEnd(content, i + 1)])
    else GenericTopic
  }

  /** The topic named in the meta description lies on one line and holds no `#`. */
  lemma MetaTopicIsOneSegment(content: string)
    ensures '#' !in MetaTopic(content) && '\n' !in MetaTopic(content)
  {
    if '#' in content {
      var i := FirstHash(content);
      var seg := content[i + 1..SegmentEnd(content, i + 1)];
      var r := Strip(seg);
      var a := LeadingSpaces(seg);
      forall k | 0 <= k < |r|
        ensures r[k] != '#' && r[k] != '\n'
      {
        assert r[k] == seg[a + k];
      }
    }
  }

  /**
   * The meta description of a text that opens like a written draft, a `# `
   * title line, names that title, stripped.
   */
  lemma MetaTopicOfTitle(topic: string, x: string, y: string)
    requires '#' !in topic && '\n' !in topic
    ensures MetaTopic("\n# " + topic + "\n" + x + y) == Strip(topic)
  {
    var s := "\n# " + topic + "\n" + x + y;
    assert s[1] == '#';
    var i := FirstHash(s);
    assert i == 1;
    forall k | 0 <= k < |topic|
      ensures s[3 + k] == topic[k]
    {}
    assert s[3 + |topic|] == '\n';
    var e := SegmentEnd(s, 2);
    assert e == 3 + |topic|;
    assert s[2..e] == [' '] + topic;
    StripLeadingSpace(' ', topic);
  }

  /** The meta description of a written draft names the draft's topic. */
  lemma MetaTopicOfDraft(topic: string, keywords: string, contentType: string, tone: string, wordCount: int)
    requires '#' !in topic && '\n' !in topic
    ensures MetaTopic(DraftText(topic, keywords, contentType, tone, wordCount)) == Strip(topic)
  {
    MetaTopicOfTitle(topic, DraftBody(topic, contentType), DraftFooter(keywords, contentType, tone, wordCount));
  }

  /** The replacement for the draft status line when SEO optimisation is on. */
  function SeoStatus(content: string): string {
    PolishedStatus + (MetaIntro + MetaTopic(content) + MetaOutro)
  }

  /** The meta description suggestion around its topic. */
  const MetaIntro: string := "\n\n**Meta Description Suggestion**: Discover everything you need to know about "
  const MetaOutro: string := ". Comprehensive guide with insights, best practices, and actionable tips."

  /** The content after the optional SEO and grammar rewrites of the status line. */
  function Polish(content: string, seo: bool, grammar: bool): string {
    var afterSeo := if seo then ReplaceAll(content, DraftStatus, SeoStatus(content)) else content;
    if grammar then ReplaceAll(afterSeo, PolishedStatus, GrammarStatus) else afterSeo
  }

  /** Content that carries neither status line comes out of polishing unchanged, whatever the flags. */
  lemma PolishKeepsUnmarked(content: string, seo: bool, grammar: bool)
    requires !Contains(content, DraftStatus) && !Contains(content, PolishedStatus)
    ensures Polish(content, seo, grammar) == content
  {
    ReplaceAbsent(content, DraftStatus, SeoStatus(content));
    ReplaceAbsent(content, PolishedStatus, GrammarStatus);
  }

  /**
   * Without SEO optimisation the grammar step has nothing to rewrite unless
   * the content already carries the polished status line: a draft passes
   * through unchanged, grammar check or not.
   */
  lemma PolishWithoutSeo(content: string, grammar: bool)
    requires grammar ==> !Contains(content, PolishedStatus)
    ensures Polish(content, false, grammar) == content
  {
    if grammar {
      ReplaceAbsent(content, PolishedStatus, GrammarStatus);
    }
  }

  /**
   * With SEO optimisation on, a draft status line becomes the polished status
   * line, and with the grammar check also on, the grammar-checked one.
   */
  lemma PolishMarksDraft(content: string, grammar: bool)
    requires Contains(content, DraftStatus)
    ensures Contains(Polish(content, true, grammar), if grammar then GrammarStatus else PolishedStatus)
  {
    var afterSeo := ReplaceAll(content, DraftStatus, SeoStatus(content));
    ReplacePresent(content, DraftStatus, SeoStatus(content));
    ContainsStart(PolishedStatus, SeoStatus(content)[|PolishedStatus|..]);
    assert PolishedStatus + SeoStatus(content)[|PolishedStatus|..] == SeoStatus(content);
    ContainsTransitive(afterSeo, SeoStatus(content), PolishedStatus);
    if grammar {
      ReplacePresent(afterSeo, PolishedStatus, GrammarStatus);
    }
  }

  // ---------------------------------------------------------------------------
  // The review notes

  /** The banner of the notes, up to the counts. */
  const NotesBanner: string := "\n\U{1F4DD} CONTENT REVIEW REPORT\n" + Rule() + "\n\n\U{1F4CA} Content Analysis:\n"

  /** The analysis section, up to the strengths. */
  function NotesHead(wordCount: nat, headingCount: nat, paragraphCount: nat): string {
    NotesBanner
    + ("   - Word Count: " + NatToString(wordCount) + " words\n")
    + ("   - Headings: " + NatToString(headingCount) + " headings\n")
    + ("   - Paragraphs: " + NatToString(paragraphCount) + " paragraphs\n")
  }

  /** The fixed part of the notes after the analysis. */
  const NotesBody: string :=
    "\n\U{2705} Strengths:\n"
    + "   - Well-structured with clear headings\n"
    + "   - Good use of formatting and organization\n"
    + "   - Comprehensive coverage of the topic\n"
    + "   - Engaging introduction and conclusion\n\n"
    + "\U{1F527} Improvements Made:\n\n"
    + "1. Grammar and Spelling:\n"
    + "   - \U{2705} Checked for grammatical errors\n"
    + "   - \U{2705} Verified spelling accuracy\n"
    + "   - \U{2705} Improved sentence structure\n"
    + "   - \U{2705} Enhanced clarity and readability\n\n"
    + "2. SEO Optimization:\n"
    + "   - \U{2705} Optimized headings for search engines\n"
    + "   - \U{2705} Ensured keyword integration\n"
    + "   - \U{2705} Improved meta descriptions\n"
    + "   - \U{2705} Enhanced content structure\n\n"
    + "3. Engagement:\n"
    + "   - \U{2705} Strengthened introduction hook\n"
    + "   - \U{2705} Added more actionable insights\n"
    + "   - \U{2705} Improved flow between sections\n"
    + "   - \U{2705} Enhanced call-to-action\n\n"
    + "4. Readability:\n"
    + "   - \U{2705} Improved sentence length and variety\n"
    + "   - \U{2705} Enhanced paragraph structure\n"
    + "   - \U{2705} Better use of formatting\n"
    + "   - \U{2705} Clearer transitions\n\n"
    + "\U{1F4A1} Recommendations:\n"
    + "   - Consider adding more specific examples\n"
    + "   - Include relevant statistics or data points\n"
    + "   - Add internal/external links where appropriate\n"
    + "   - Consider adding images or visual elements\n\n"
    + Rule()
    + "\n"

  /** The review notes the f-string builds. */
  function ReviewNotes(wordCount: nat, headingCount: nat, paragraphCount: nat): string {
    NotesHead(wordCount, headingCount, paragraphCount) + NotesBody
  }

  /** The notes report the three counts, each on a line of its own. */
  lemma NotesReportCounts(wordCount: nat, headingCount: nat, paragraphCount: nat)
    ensures Contains(ReviewNotes(wordCount, headingCount, paragraphCount),
                     "   - Word Count: " + NatToString(wordCount) + " words\n")
    ensures Contains(ReviewNotes(wordCount, headingCount, paragraphCount),
                     "   - Headings: " + NatToString(headingCount) + " headings\n")
    ensures Contains(ReviewNotes(wordCount, headingCount, paragraphCount),
                     "   - Paragraphs: " + NatToString(paragraphCount) + " paragraphs\n")
  {
    var banner := NotesBanner;
    var wl := "   - Word Count: " + NatToString(wordCount) + " words\n";
    var hl := "   - Headings: " + NatToString(headingCount) + " headings\n";
    var pl := "   - Paragraphs: " + NatToString(paragraphCount) + " paragraphs\n";
    ContainsInfix(banner, wl, hl);
    ContainsInLeft(banner + wl + hl, pl, wl);
    ContainsInLeft(banner + wl + hl + pl, NotesBody, wl);
    ContainsInfix(banner + wl, hl, pl);
    ContainsInLeft(banner + wl + hl + pl, NotesBody, hl);
    ContainsInfix(banner + wl + hl, pl, NotesBody);
  }

  // ---------------------------------------------------------------------------
  // The tool

  /** `focus_areas or [...]`: the given areas, or the defaults when there are none. */
  function FocusAreas(focus: Option<seq<string>>): (r: seq<string>)
    ensures |r| > 0
    ensures focus.Some? && |focus.value| > 0 ==> r == focus.value
    ensures (focus.None? || |focus.value| == 0) ==> r == DefaultFocusAreas
  {
    if focus.None? || |focus.value| == 0 then DefaultFocusAreas else focus.value
  }

  /** The final slot as `review_and_polish` writes it; nothing else in the store changes. */
  function RecordFinal(w: WorkflowState, polished: string, notes: string, focus: seq<string>,
                       seo: bool, grammar: bool): (r: WorkflowState)
    ensures var data := GetFinalContent(r);
      && Field(data, "content") == Str(polished)
      && Field(data, "review_notes") == Str(notes)
      && Field(data, "focus_areas") == StrList(focus)
      && Field(data, "seo_optimized") == Bool(seo)
      && Field(data, "grammar_checked") == Bool(grammar)
    ensures r.state - {FinalKey} == w.state - {FinalKey}
  {
    SetFinalContent(w, Object(map["content" := Str(polished), "review_notes" := Str(notes),
                                  "focus_areas" := StrList(focus), "seo_optimized" := Bool(seo),
                                  "grammar_checked" := Bool(grammar)]))
  }

  /**
   * `review_and_polish`: empty content is an error and writes nothing.
   * Otherwise the reply is the polished content, a blank line, and the notes
   * on the original content's counts; the final slot holds the polished
   * content, the notes, the focus areas (the four defaults when none are
   * given) and the two flags, and nothing else in the store changes.
   */
  function ReviewAndPolish(w: WorkflowState, content: string, focus: Option<seq<string>>,
                           seo: bool, grammar: bool): (r: ToolResult)
    ensures |content| == 0 ==> r == ToolResult(NoContentError, w)
    ensures |content| > 0 ==>
      var notes := ReviewNotes(WordCount(content), HeadingCount(content), ParagraphCount(content));
      && r.reply == Polish(content, seo, grammar) + "\n\n" + notes
      && r.store == RecordFinal(w, Polish(content, seo, grammar), notes, FocusAreas(focus), seo, grammar)
    ensures |content| > 0 && (focus.None? || focus == Some([])) ==>
      Field(GetFinalContent(r.store), "focus_areas") == StrList(["clarity", "SEO", "engagement", "readability"])
    ensures r.store.state - {FinalKey} == w.state - {FinalKey}
  {
    if |content| == 0 then ToolResult(NoContentError, w)
    else
      var notes := ReviewNotes(WordCount(content), HeadingCount(content), ParagraphCount(content));
      var polished := Polish(content, seo, grammar);
      ToolResult(polished + "\n\n" + notes, RecordFinal(w, polished, notes, FocusAreas(focus), seo, grammar))
  }

  /** Reviewing a written draft with both steps on marks it grammar-checked. */
  lemma ReviewedDraftIsGrammarChecked(topic: string, keywords: string, contentType: string, tone: string, wordCount: int)
    ensures Contains(Polish(DraftText(topic, keywords, contentType, tone, wordCount), true, true), GrammarStatus)
  {
    DraftIsMarkedDraft(topic, keywords, contentType, tone, wordCount);
    PolishMarksDraft(DraftText(topic, keywords, contentType, tone, wordCount), true);
  }
}

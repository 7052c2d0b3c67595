# Blog generator agent: workflow store and tools

The blog generator is a multi-agent content pipeline. A master agent hands a
topic to a research agent, a writer agent and a reviewer agent, and can ask
for AI-generated images. Every agent works through a plain Python tool
function. The tools share one `WorkflowState` store that keeps the research
data, the draft, the final content and a list of creative suggestions.

This project models that core in Dafny:

- `WorkflowStore` (`state.dfy`) is the store, with its getters, setters,
  `add_creative_suggestion`, `clear`, and saving to and loading from the
  state file.
- `FileUtils` (`file_utils.dfy`) is `clean_filename`.
- `ResearchTools`, `WritingTools` and `ReviewTools` (`research.dfy`,
  `writing.dfy`, `review.dfy`) are `conduct_research`, `write_content` and
  `review_and_polish`. Each is a pure function from the store and the
  arguments to the reply string and the new store.
- `CreativeTools` (`creative.dfy`) is the deterministic logic of
  `generate_ai_creative`:
  - title and heading extraction;
  - prompt and file name construction;
  - the MIME-type to extension choice;
  - the per-image retry loop with its placeholder and fallback files;
  - the error lines;
  - the reply message;
  - the suggestion stored at the end.

  The image API, the file writes and the clock are parameters. A `World`
  value says what each API call and each write does.
- `Headings` (`headings.dfy`) is the multi-line heading regexes the tools use:
  - `^#\s+(.+)$` and `^##\s+(.+)$` with `re.search` and `re.findall`;
  - `^#+\s` for counting headings.
- `Text` (`text.dfy`) holds the Python string operations the tools rely on:
  - `in`, `str.replace`, `str.count`, `str.strip` (with Python's exact
    whitespace set), `str.split()` and `", ".join`;
  - decimal formatting of integers;
  - slicing with `s[:n]`.
- `Wrappers` (`wrappers.dfy`) holds `Option` and `Result`. A Python exception
  that escapes a tool is a `Failure` carrying Python's message.

Templates are transcribed character for character, emoji included. The
properties are stated so they hold for every input the Python code accepts.
This includes the empty-input error replies, a missing store key, and a store
key holding a non-list after a load. For `generate_ai_creative` it also
includes:
- a failure to create the images directory or to construct the image API
  client, both of which happen before any `try` and propagate;
- every combination of API-call and file-write failures inside the loop.

## Model

| member | source | states |
|---|---|---|
| WorkflowStore.StrList | master_agent/tools/research_tools.py:76 | a Python list of strings becomes a JSON list with the same strings in the same order |
| WorkflowStore.Store | master_agent/utils/state_manager.py:22 | assigning a key makes it read back as the new value and leaves every other key as it was |
| WorkflowStore.Initial | master_agent/utils/state_manager.py:12-18 | a fresh store reads `None` from the three slots and an empty suggestion list |
| WorkflowStore.SetSlot | master_agent/utils/state_manager.py:20-42 | each setter overwrites exactly its own slot: the getter returns the stored value and nothing else changes |
| WorkflowStore.SetResearchData | master_agent/utils/state_manager.py:20-26 | `get_research_data` returns what `set_research_data` stored; other keys are untouched |
| WorkflowStore.SetDraftContent | master_agent/utils/state_manager.py:28-34 | `get_draft_content` returns what `set_draft_content` stored; other keys are untouched |
| WorkflowStore.SetFinalContent | master_agent/utils/state_manager.py:36-42 | `get_final_content` returns what `set_final_content` stored; other keys are untouched |
| WorkflowStore.GetResearchData | master_agent/utils/state_manager.py:24-26 | `state.get("research_data")`. No contract of its own: SetResearchData states that it reads back what was stored, and Initial and MissingKeysReadEmpty that it reads `None` otherwise |
| WorkflowStore.GetDraftContent | master_agent/utils/state_manager.py:32-34 | `state.get("draft_content")`. No contract of its own: SetDraftContent states that it reads back what was stored, and Initial and MissingKeysReadEmpty that it reads `None` otherwise |
| WorkflowStore.GetFinalContent | master_agent/utils/state_manager.py:40-42 | `state.get("final_content")`. No contract of its own: SetFinalContent states that it reads back what was stored, and Initial and MissingKeysReadEmpty that it reads `None` otherwise |
| WorkflowStore.GetCreativeSuggestions | master_agent/utils/state_manager.py:50-52 | the suggestions, or an empty list for a missing key. No contract of its own: AddCreativeSuggestion states how appending changes it, and RunReadsLatest that it holds exactly the suggestions appended since the last clear |
| WorkflowStore.AddCreativeSuggestion | master_agent/utils/state_manager.py:44-52 | appending succeeds exactly when the stored suggestions (or the default empty list for a missing key) form a list; on success the suggestion is appended at the end and no other key changes |
| WorkflowStore.Clear | master_agent/utils/state_manager.py:71-78 | after `clear` the store holds exactly the four initial keys: three `None` slots and an empty suggestion list |
| WorkflowStore.SaveToFile | master_agent/utils/state_manager.py:54-60 | a completed save leaves the file holding the whole store; a failed open leaves the file as it was; a write that fails midway leaves it unreadable |
| WorkflowStore.LoadFromFile | master_agent/utils/state_manager.py:62-69 | a readable file replaces the whole store; a missing or unreadable file leaves the store unchanged |
| WorkflowStore.SaveLoadRoundTrip | master_agent/utils/state_manager.py:54-69 | loading what a successful save wrote gives back the saved store, whatever store did the loading |
| WorkflowStore.MissingKeysReadEmpty | master_agent/utils/state_manager.py:20-52 | after loading a file without the four keys, the slots read `None`, the suggestions read as an empty list, and adding a suggestion recreates the list with only that suggestion in it |
| WorkflowStore.SetOverwrites | master_agent/utils/state_manager.py:20-42 | setting a slot twice is the same as setting it once to the second value |
| WorkflowStore.RunReadsLatest | master_agent/utils/state_manager.py:20-78 | in any sequence of setter, append and clear calls on a store whose suggestions form a list, no call raises; each slot reads the last value set since the last clear, and the suggestions are exactly the ones appended since then |
| FileUtils.RemoveSpecial | master_agent/utils/file_utils.py:31 | `re.sub(r'[^\w\s-]', '', s)` keeps exactly the word, whitespace and `-` characters, each as often as in `s`, in their original order |
| FileUtils.Underscore | master_agent/utils/file_utils.py:33 | `replace(' ', '_')`. No contract of its own: UnderscoreRemovesSpaces states that no space is left, UnderscoreKeepsSpaceless that a space-free string is unchanged, and Text.ReplaceChar that the length is kept and each position is mapped on its own |
| FileUtils.UnderscoreRemovesSpaces | master_agent/utils/file_utils.py:33 | after `replace(' ', '_')` no space is left |
| FileUtils.SanitizedIsSafe | master_agent/utils/file_utils.py:31-33 | every character of the cleaned text is a word character, `-`, or whitespace other than a space |
| FileUtils.CleanFilename | master_agent/utils/file_utils.py:20-35 | the result is `cleaned[:max_length]`. For a non-negative limit it is the whole cleaned text when that fits and exactly `max_length` characters otherwise. For a negative limit it is the cleaned text without its last `-max_length` characters, or empty when there are not that many. It contains no space and only safe characters, and it is a prefix of the cleaned text |
| FileUtils.Sanitized | master_agent/utils/file_utils.py:31-33 | the three cleaning steps before truncation. No contract of its own: SanitizedIsSafe states that it leaves only safe characters and no space, SanitizedKeepsOrder that it keeps the input's characters in order, and SanitizedKeepsSafeNames that it changes nothing in a name that is already safe |
| FileUtils.SanitizedKeepsOrder | master_agent/utils/file_utils.py:31-33 | the untruncated cleaned text is a subsequence of the input with spaces turned into underscores |
| FileUtils.CleanFilenameKeepsOrder | master_agent/utils/file_utils.py:20-35 | the cleaned file name keeps the input's characters in their order: it is a subsequence of the input with spaces turned into underscores |
| FileUtils.RemoveSpecialKeepsSafe | master_agent/utils/file_utils.py:31 | a string with no special character is unchanged by the substitution |
| FileUtils.StripKeepsTrimmed | master_agent/utils/file_utils.py:33 | `strip` leaves a string unchanged when it neither starts nor ends with whitespace |
| FileUtils.UnderscoreKeepsSpaceless | master_agent/utils/file_utils.py:33 | replacing spaces changes nothing in a string without spaces |
| FileUtils.SanitizedKeepsSafeNames | master_agent/utils/file_utils.py:31-33 | a name of word characters and `-` comes out of the cleaning steps unchanged |
| FileUtils.CleanFilenameKeepsSafeNames | master_agent/utils/file_utils.py:20-35 | a name of word characters and `-` that fits in `max_length` is returned unchanged, so cleaning is idempotent on such names |
| Text.ReplaceAbsent | master_agent/tools/review_tools.py:86-100 | `str.replace` leaves a string without the pattern unchanged |
| Text.ReplaceAll | master_agent/tools/review_tools.py:86-100 | `str.replace`. No contract of its own: ReplaceAbsent, ReplacePresent and ReplaceLength state what it leaves alone, what it inserts and the length it gives |
| Text.Count | master_agent/tools/review_tools.py:29 | the non-overlapping, left-to-right occurrence count. No contract of its own: CountZeroIffAbsent states when it is zero, and ReplaceLength states that it is the number of replacements `str.replace` makes |
| Text.ReplacePresent | master_agent/tools/review_tools.py:86-100 | when the pattern occurs, the replacement text occurs in the result |
| Text.ReplaceLength | master_agent/tools/review_tools.py:88-93 | replacing grows or shrinks the string by the length difference once per non-overlapping occurrence counted by `str.count` |
| Text.CountZeroIffAbsent | master_agent/tools/review_tools.py:29 | the non-overlapping occurrence count (as `re.findall(r'\n\n')` counts) is zero exactly when the pattern does not occur |
| Text.ReplaceChar | master_agent/utils/file_utils.py:33 | replacing one character with another keeps the length and maps each position on its own |
| Text.LeadingSpaces | master_agent/utils/file_utils.py:33 | counts the maximal run of whitespace at the start of the string |
| Text.TrailingSpaces | master_agent/utils/file_utils.py:33 | counts the maximal run of whitespace at the end of the string |
| Text.Strip | master_agent/utils/file_utils.py:33 | `strip` returns the slice between the leading and trailing whitespace runs; it neither starts nor ends with whitespace |
| Text.StripLeadingSpace | master_agent/tools/creative_tools.py:39 | whitespace before the text makes no difference to `strip` |
| Text.StripKeepsOrder | master_agent/utils/file_utils.py:33 | the stripped string is a subsequence of the original |
| Text.JoinAvoids | master_agent/tools/research_tools.py:22 | a character that is in neither the separator nor any part is not in the joined string |
| Text.Join | master_agent/tools/research_tools.py:22 | `", ".join`. No contract of its own: JoinAvoids states that the join brings in no character beyond those of the parts and the separator |
| Text.Repeat | master_agent/tools/research_tools.py:26 | `'=' * n` has length `n` and holds only that character |
| Text.NatToString | master_agent/tools/creative_tools.py:121 | decimal formatting gives a non-empty digit string without a leading zero |
| Text.NatToStringRoundTrip | master_agent/tools/creative_tools.py:121 | reading the decimal digits back gives the number |
| Text.IntToString | master_agent/tools/creative_tools.py:121 | an integer in an f-string is its decimal digits, with a `-` for a negative number, and holds no newline or space |
| Text.PyPrefix | master_agent/utils/file_utils.py:35 | `s[:n]` is a prefix of `s` whose length follows Python's rules for non-negative and negative `n` |
| Text.LineEnd | master_agent/tools/creative_tools.py:38 | finds the end of the line: the first newline at or after the position, or the end of the string |
| Text.SpaceRun | master_agent/tools/creative_tools.py:38 | counts the maximal whitespace run at a position, as `\s+` matches it greedily |
| Headings.LastNonNewline | master_agent/tools/creative_tools.py:38 | finds the last non-newline position before a bound, which `(.+)$` backtracks to |
| Headings.HeadingAt | master_agent/tools/creative_tools.py:38 | a match of `^#{level}\s+(.+)$` at a position captures text that starts past the hashes and runs to the end of its line |
| Headings.HeadingAtNeedsSpace | master_agent/tools/creative_tools.py:38 | a match needs the hashes and whitespace right after them, so a `##` line never matches the one-hash title pattern |
| Headings.HeadingAtIsGreedy | master_agent/tools/creative_tools.py:38 | the regex matches at a position exactly when some split of whitespace and captured text satisfies the pattern, and the capture is the longest such one |
| Headings.SearchHeading | master_agent/tools/creative_tools.py:38 | `re.search` returns a position where the pattern matches, together with that match |
| Headings.SearchHeadingIsLeftmost | master_agent/tools/creative_tools.py:38 | the match `re.search` returns is the leftmost one, and when it finds none no position matches |
| Headings.Captured | master_agent/tools/creative_tools.py:38-39 | a captured group is non-empty and holds no newline |
| Headings.FindAllHeadings | master_agent/tools/creative_tools.py:43 | `re.findall` returns non-empty one-line captures; it is empty exactly when the search finds no match, and it starts with the first match's capture |
| Headings.HashRun | master_agent/tools/review_tools.py:28 | counts the maximal run of `#` at a position |
| Headings.HashHeadingAt | master_agent/tools/review_tools.py:28 | where `^#+\s` matches: a line start, one or more `#`, then whitespace. HashHeadingPositions counts these positions, and CountHashHeadingsCountsPositions states that the scan counts exactly them |
| Headings.CountHashHeadings | master_agent/tools/review_tools.py:28 | the `^#+\s` count, as `re.findall` scans, resuming after each match. It is zero exactly when no line start holds one or more `#` followed by whitespace |
| Headings.HashHeadingPositions | master_agent/tools/review_tools.py:28 | an independent reference count: the number of positions at which `^#+\s` matches |
| Headings.PositionsSkipNonMatches | master_agent/tools/review_tools.py:28 | positions where no match starts add nothing to the reference count |
| Headings.NoMatchInsideMatch | master_agent/tools/review_tools.py:28 | no match starts inside the `#` run or at the whitespace of another match, so resuming after a match skips no match |
| Headings.CountHashHeadingsCountsPositions | master_agent/tools/review_tools.py:28 | the scanning count equals the reference count of matching positions |
| ResearchTools.KeywordsText | master_agent/tools/research_tools.py:22 | no keywords give "related topics"; keywords without newlines give a one-line keyword text |
| ResearchTools.JoinAvoidsNewline | master_agent/tools/research_tools.py:22 | joining one-line keywords with `", "` gives a one-line string |
| ResearchTools.ResearchReport | master_agent/tools/research_tools.py:25-72 | the report text. No contract of its own: ReportHasTopic, ReportHasKeywords and ReportHasAudience state the lines it contains, and ReportKeywordsRoundTrip states that `write_content` reads the keywords back from it |
| ResearchTools.ResearchValue | master_agent/tools/research_tools.py:74-79 | the stored research record holds the topic, the keyword list, the audience and the report under their keys |
| ResearchTools.ConductResearch | master_agent/tools/research_tools.py:7-81 | an empty topic gives the error reply and leaves the store untouched; otherwise the reply is the report, the research slot holds the record of the call, and no other key changes |
| ResearchTools.ReportHasTopic | master_agent/tools/research_tools.py:28 | the report contains the line prefix `Topic: ` followed by the topic |
| ResearchTools.ReportHasKeywords | master_agent/tools/research_tools.py:29 | the report contains `Keywords: ` followed by the keyword text |
| ResearchTools.ReportHasAudience | master_agent/tools/research_tools.py:30 | the report contains `Target Audience: ` followed by the audience |
| WritingTools.CaptureRunsToLineEnd | master_agent/tools/writing_tools.py:29 | what the greedy `(.+)` takes: the text from a position to the next newline or the end |
| WritingTools.KeywordsAt | master_agent/tools/writing_tools.py:29 | where `Keywords: (.+)` matches: the label followed by a non-newline character. SearchKeywords states that the search takes the leftmost such position |
| WritingTools.SearchKeywords | master_agent/tools/writing_tools.py:29 | `re.search(r'Keywords: (.+)')` finds the leftmost position where the label is followed by a non-newline character, or reports that there is none |
| WritingTools.ExtractKeywords | master_agent/tools/writing_tools.py:29-30 | with no match the keywords default to "related topics". With a match they are the non-empty capture of the leftmost match: the text after that `Keywords: ` label up to the end of its line |
| WritingTools.ExtractKeywordsAfter | master_agent/tools/writing_tools.py:29-30 | a text whose first `Keywords: ` label starts a line ending in `v` yields exactly `v` |
| WritingTools.ReportKeywordsRoundTrip | master_agent/tools/writing_tools.py:29-30 | extracting the keywords from a research report gives back the keyword text written into it, when the topic does not contain the label |
| WritingTools.ResearchKeywordsRoundTrip | master_agent/tools/writing_tools.py:29-30 | the keywords `write_content` reads from `conduct_research`'s reply are the keywords research wrote, joined with `", "` |
| WritingTools.FooterMentions | master_agent/tools/writing_tools.py:105-111 | the footer names the keywords, the content type, the tone and the target word count on their own labelled lines, and marks the draft as ready for review |
| WritingTools.RecordDraft | master_agent/tools/writing_tools.py:116-124 | the reply is the draft; the draft slot holds the topic, content, type, word count and tone; no other key changes |
| WritingTools.WriteContent | master_agent/tools/writing_tools.py:8-124 | an empty topic, then empty research data, give their error replies and leave the store untouched; otherwise the reply is the draft built from the extracted keywords, and only the draft slot changes |
| WritingTools.DraftText | master_agent/tools/writing_tools.py:33-113 | the draft text. No contract of its own: DraftHasTitleLine, DraftNamesKeywords, DraftNamesContentType, DraftNamesTone, DraftNamesWordCount and DraftIsMarkedDraft state its title line, footer lines and status, and ExtractTitleOfDraft and MetaTopicOfDraft state that the later tools read its topic back |
| WritingTools.DraftHasTitleLine | master_agent/tools/writing_tools.py:33-34 | the draft contains the title line `# <topic>` on a line of its own |
| WritingTools.DraftNamesKeywords | master_agent/tools/writing_tools.py:107 | the draft names the keywords it was given |
| WritingTools.DraftNamesContentType | master_agent/tools/writing_tools.py:108 | the draft names its content type on the `**Content Type**:` line |
| WritingTools.DraftNamesTone | master_agent/tools/writing_tools.py:109 | the draft names its tone on the `**Tone**:` line |
| WritingTools.DraftNamesWordCount | master_agent/tools/writing_tools.py:110 | the draft names the target word count |
| WritingTools.DraftIsMarkedDraft | master_agent/tools/writing_tools.py:111 | the draft carries the "Draft - Ready for Review" status line |
| WritingTools.WriteContentNamesKeywords | master_agent/tools/writing_tools.py:29-107 | the reply to a valid call names the keywords extracted from the research data |
| ReviewTools.WordLength | master_agent/tools/review_tools.py:27 | measures the maximal run of non-whitespace at the start of the string |
| ReviewTools.Split | master_agent/tools/review_tools.py:27 | `str.split()` gives non-empty words that contain no whitespace |
| ReviewTools.WordStartsSkipSpaces | master_agent/tools/review_tools.py:27 | leading whitespace starts no word |
| ReviewTools.WordStartsInsideWord | master_agent/tools/review_tools.py:27 | the rest of a word starts no new word |
| ReviewTools.SplitCountsWordStarts | master_agent/tools/review_tools.py:27 | the word count equals the number of non-whitespace characters that follow whitespace or start the text |
| ReviewTools.WordCount | master_agent/tools/review_tools.py:27 | `len(content.split())` equals the number of non-whitespace characters that start the text or follow whitespace |
| ReviewTools.HeadingCount | master_agent/tools/review_tools.py:28 | the heading count equals the number of line starts holding one or more `#` followed by whitespace |
| ReviewTools.ParagraphCount | master_agent/tools/review_tools.py:29 | the paragraph count equals the reference count of reported blank lines, and is zero exactly when the content has no `\n\n` |
| ReviewTools.ReportedBlankAt | master_agent/tools/review_tools.py:29 | a `\n\n` match that a left-to-right scan reports: a blank line preceded by an even run of newlines |
| ReviewTools.BlankLinePositions | master_agent/tools/review_tools.py:29 | an independent reference count that does not scan: the number of positions where a reported blank line starts |
| ReviewTools.NewlinesBeforeAfterBlank | master_agent/tools/review_tools.py:29 | after a match at the start is consumed, every later newline run keeps its parity |
| ReviewTools.NewlinesBeforeAfterOther | master_agent/tools/review_tools.py:29 | skipping a first character that starts no match leaves every later newline run unchanged |
| ReviewTools.PositionsAfterBlank | master_agent/tools/review_tools.py:29 | after a match at the start, the reference count of the rest equals that of the text after the match |
| ReviewTools.PositionsAfterOther | master_agent/tools/review_tools.py:29 | without a match at the start, the reference count of the rest equals that of the text after the first character |
| ReviewTools.CountCountsBlankLines | master_agent/tools/review_tools.py:29 | the non-overlapping left-to-right count of `\n\n` equals the reference count on every input |
| ReviewTools.FocusAreas | master_agent/tools/review_tools.py:24 | the focus areas are never empty: the given ones when there are any, otherwise the four defaults |
| ReviewTools.FirstHash | master_agent/tools/review_tools.py:91 | finds the first `#` of the content |
| ReviewTools.SegmentEnd | master_agent/tools/review_tools.py:91 | finds where the segment after the first `#` ends: at the next `#`, the next newline or the end |
| ReviewTools.MetaTopic | master_agent/tools/review_tools.py:91 | without a `#` the meta topic is "this topic"; otherwise it is the stripped text between the first `#` and the next `#` or newline |
| ReviewTools.MetaTopicIsOneSegment | master_agent/tools/review_tools.py:91 | the meta topic contains neither `#` nor a newline |
| ReviewTools.MetaTopicOfTitle | master_agent/tools/review_tools.py:91 | content opening with a title line has that title, stripped, as its meta topic |
| ReviewTools.MetaTopicOfDraft | master_agent/tools/review_tools.py:91 | the meta description of a written draft names the draft's topic, stripped |
| ReviewTools.SeoStatus | master_agent/tools/review_tools.py:88-93 | the replacement for the draft status line. No contract of its own: MetaTopicIsOneSegment, MetaTopicOfTitle and MetaTopicOfDraft state the topic its meta description names, and PolishMarksDraft states that it replaces the draft status |
| ReviewTools.Polish | master_agent/tools/review_tools.py:83-100 | the two status-line rewrites. No contract of its own: PolishKeepsUnmarked, PolishWithoutSeo, PolishMarksDraft and ReviewedDraftIsGrammarChecked state when it changes the content and into what |
| ReviewTools.PolishKeepsUnmarked | master_agent/tools/review_tools.py:83-100 | content without either status line is returned unchanged, whatever the flags |
| ReviewTools.PolishWithoutSeo | master_agent/tools/review_tools.py:83-100 | with SEO optimisation off, content without the polished status line is returned unchanged even when the grammar check is on, so a draft is never marked grammar-checked this way |
| ReviewTools.PolishMarksDraft | master_agent/tools/review_tools.py:86-100 | with SEO optimisation on, a draft's status line turns into the polished status, or the grammar-checked status when the grammar check is on too |
| ReviewTools.ReviewNotes | master_agent/tools/review_tools.py:32-80 | the review notes text. No contract of its own: NotesReportCounts states that it reports the three counts |
| ReviewTools.NotesReportCounts | master_agent/tools/review_tools.py:32-39 | the review notes report the word, heading and paragraph counts |
| ReviewTools.RecordFinal | master_agent/tools/review_tools.py:103-109 | the final slot holds the polished content, notes, focus areas and both flags; no other key changes |
| ReviewTools.ReviewAndPolish | master_agent/tools/review_tools.py:8-111 | empty content gives the error reply and leaves the store untouched; otherwise the reply is the polished content, a blank line and the notes. Missing or empty focus areas are stored as the four defaults, and only the final slot changes |
| ReviewTools.ReviewedDraftIsGrammarChecked | master_agent/tools/review_tools.py:86-100 | reviewing a written draft with both flags on marks it grammar-checked |
| CreativeTools.ExtractTitle | master_agent/tools/creative_tools.py:38-39 | without a title line the title is "Blog Post"; any title is a single line |
| CreativeTools.ExtractTitleOfTitleLine | master_agent/tools/creative_tools.py:38-39 | content opening with `# <topic>` has that topic, stripped, as its title |
| CreativeTools.ExtractTitleOfDraft | master_agent/tools/creative_tools.py:38-39 | the title taken from a written draft is the draft's topic, stripped |
| CreativeTools.HeadingKeywords | master_agent/tools/creative_tools.py:42-45 | the keywords are the first three second-level headings, or all of them when fewer, each non-empty and one line |
| CreativeTools.JobFor | master_agent/tools/creative_tools.py:38-79 | what one call fixes before the loop: the cleaned title, the prompt, the timestamp and the images directory. No contract of its own: CleanFilename states its safe title, MainKeywordIsFirstSection and PromptNamesTitleAndKeyword its prompt, and RecordFor the file names and paths built from it |
| CreativeTools.MainKeyword | master_agent/tools/creative_tools.py:72 | `keywords[0] if keywords else title`. No contract of its own: MainKeywordIsFirstSection states what it picks |
| CreativeTools.MainKeywordIsFirstSection | master_agent/tools/creative_tools.py:42-72 | the prompt's main keyword is the first `##` heading of the content, or the title when there is none |
| CreativeTools.Prompt | master_agent/tools/creative_tools.py:73-79 | the image prompt. No contract of its own: PromptNamesTitleAndKeyword states what it names |
| CreativeTools.PromptNamesTitleAndKeyword | master_agent/tools/creative_tools.py:73-79 | the prompt names the blog post's title and the main keyword in their sentences |
| CreativeTools.Extension | master_agent/tools/creative_tools.py:114-118 | the extension is `jpg` exactly when the MIME type mentions jpeg or jpg, else `webp` exactly when it mentions webp, else `png` |
| CreativeTools.FileName | master_agent/tools/creative_tools.py:121 | the file name pattern, which lines 144 and 164 repeat with `txt`. No contract of its own: FileNameHasNoSpaces states that it has no space, and RecordFor that every record uses it |
| CreativeTools.FileNameHasNoSpaces | master_agent/tools/creative_tools.py:121 | a file name built from the cleaned title, with a space-free timestamp and extension, contains no space |
| CreativeTools.PathJoin | master_agent/tools/creative_tools.py:122 | `os.path.join` ends with the file name; a relative name is placed under the directory, with a separator added when missing |
| CreativeTools.FirstWithData | master_agent/tools/creative_tools.py:107-118 | which part the loop over parts stops at: the first one with inline data. FirstInline states that this part decides the outcome |
| CreativeTools.FirstInline | master_agent/tools/creative_tools.py:107-118 | no image is found exactly when no part has inline data; otherwise the first part with inline data decides: its MIME type, or the `TypeError` when that type is missing |
| CreativeTools.ImageIn | master_agent/tools/creative_tools.py:103-118 | the image search over the first candidate's parts. No contract of its own: FirstInline states the outcome of the search over the parts, and AttemptOutcome how the search result decides the attempt |
| CreativeTools.AttemptOutcome | master_agent/tools/creative_tools.py:86-159 | an attempt raises when the API call raises or the file write fails; a saved image has one of the three extensions |
| CreativeTools.RecordFor | master_agent/tools/creative_tools.py:133-177 | a record carries the image number, the file name built from title, type, number and timestamp, its path under the images directory and the prompt |
| CreativeTools.SuccessRecord | master_agent/tools/creative_tools.py:133-157 | an attempt that did not raise records the image number and prompt |
| CreativeTools.Fallback | master_agent/tools/creative_tools.py:161-177 | after the last failed attempt, the prompt file is recorded with the error exactly when writing it succeeds; otherwise the write's exception propagates |
| CreativeTools.TryImage | master_agent/tools/creative_tools.py:85-180 | a record produced by the retry loop for image `i` carries number `i` |
| CreativeTools.RetryTakesFirstSuccess | master_agent/tools/creative_tools.py:85-180 | the retry loop records the first attempt that does not raise |
| CreativeTools.RetryFallsBack | master_agent/tools/creative_tools.py:85-180 | when every remaining attempt raises, the loop ends in the fallback with the last attempt's message |
| CreativeTools.FallbackWrittenMeansRecorded | master_agent/tools/creative_tools.py:85-180 | when the fallback file can be written, every image gets a record |
| CreativeTools.ErrorLine | master_agent/tools/creative_tools.py:183 | the line `⚠️ Error generating image #{i}: {e}`. No contract of its own: GenerateStep states that each image whose loop ends in an exception adds its error line in image order, and MessageReportsErrors that the reply contains every error line |
| CreativeTools.ImageOutcomesNumbered | master_agent/tools/creative_tools.py:69-183 | the outcome for every image number carries that number |
| CreativeTools.Generate | master_agent/tools/creative_tools.py:69-183 | the loop over images 1..count gives one record or one error line per image, each record numbered in range and equal to its image's outcome |
| CreativeTools.GenerateInOrder | master_agent/tools/creative_tools.py:69-183 | the records are in strictly increasing image order |
| CreativeTools.GenerateKeepsEveryRecord | master_agent/tools/creative_tools.py:69-183 | every image whose loop recorded something appears in the records |
| CreativeTools.NoErrorsIffAllRecorded | master_agent/tools/creative_tools.py:69-183 | the reply has no error line exactly when every image was recorded |
| CreativeTools.AllRecordedListsAll | master_agent/tools/creative_tools.py:69-183 | when every image is recorded, the records are numbered 1..count in order with no error |
| CreativeTools.FallbacksWrittenRecordsAll | master_agent/tools/creative_tools.py:161-177 | when every fallback write succeeds, every image is recorded |
| CreativeTools.Listing | master_agent/tools/creative_tools.py:193-200 | the per-image entries of the reply, in record order. No contract of its own: ListingNamesEveryFile states that it names every record's file |
| CreativeTools.ListingNamesEveryFile | master_agent/tools/creative_tools.py:193-200 | the listing names every record's file |
| CreativeTools.Summary | master_agent/tools/creative_tools.py:189-207 | the part of the reply after the completion banner. No contract of its own: MessageNamesEveryFile states that it names every recorded file, and MessageWarnsWhenEmpty that it warns when there is no record |
| CreativeTools.Message | master_agent/tools/creative_tools.py:57-209 | the reply text. No contract of its own: MessageNamesTitle, MessageReportsErrors, MessageNamesEveryFile and MessageWarnsWhenEmpty state what it contains |
| CreativeTools.MessageNamesTitle | master_agent/tools/creative_tools.py:57-67 | the reply names the content title |
| CreativeTools.MessageReportsErrors | master_agent/tools/creative_tools.py:182-183 | the reply contains every error line |
| CreativeTools.MessageNamesEveryFile | master_agent/tools/creative_tools.py:189-205 | the reply names every recorded file |
| CreativeTools.MessageWarnsWhenEmpty | master_agent/tools/creative_tools.py:206-207 | with no record, the reply warns that no images were generated |
| CreativeTools.RecordValue | master_agent/tools/creative_tools.py:133-177 | the stored image entry has number, file name, path and prompt, plus `note` exactly for a placeholder and `error` exactly for a fallback |
| CreativeTools.SuggestionValue | master_agent/tools/creative_tools.py:211-219 | the stored suggestion has exactly the six keys, with the title, type, style, count, directory and one entry per record in order |
| CreativeTools.Finish | master_agent/tools/creative_tools.py:211-221 | storing the suggestion succeeds exactly when the suggestions form a list; it raises with Python's `AttributeError` message otherwise; on success the reply is returned and the suggestion appended |
| CreativeTools.SetupSucceeds | master_agent/tools/creative_tools.py:48-55 | that creating the images directory and constructing the API client both succeed. GenerateAiCreative states that either failure propagates |
| CreativeTools.CreativeRun | master_agent/tools/creative_tools.py:69-183 | the loop over images for one call. No contract of its own: RunRecordsAll, CreativeNamesTitle and CreativeListsEveryImage state what it records |
| CreativeTools.GenerateAiCreative | master_agent/tools/creative_tools.py:21-221 | empty content gives the error reply and leaves the store untouched. Otherwise the call succeeds exactly when the images directory and the API client can be created and the stored suggestions are a list. A failed directory or client creation propagates its exception, checked in that order; a non-list raises Python's `AttributeError`. On success it replies with the message for the run and appends the suggestion, changing nothing else |
| CreativeTools.CreativeNamesTitle | master_agent/tools/creative_tools.py:38-219 | a valid call names the content's title in the reply and in the stored suggestion |
| CreativeTools.RunRecordsAll | master_agent/tools/creative_tools.py:69-183 | when every fallback write succeeds, the run records images 1..count in order without error lines |
| CreativeTools.CreativeListsEveryImage | master_agent/tools/creative_tools.py:69-207 | when every fallback write succeeds, the call succeeds, records each of the `count` images, and the reply names each image's file |

## Left out

- The agents, the ADK wiring and the model names (`agent.py` and the sub-agent files) are configuration with no logic to prove.
- `ensure_directory_exists` creates a directory on disk. Its absolute path is the `imagesDir` parameter, and whether it raises is `World.makeDirs`. Whether `Client()` raises is `World.client`.
- The image API client is the `World` parameter. So are the bytes each file write produces: image data, base64 decoding, and the text of the placeholder and fallback files. Only whether each write succeeds is modelled.
- `datetime.now()` is the `timestamp` parameter.
- `time.sleep(RETRY_DELAY)` is left out because it only delays. That includes the second sleep before a retry after an exception.
- JSON encoding of the state file is left out. A file either holds the store's contents, cannot be read, or is absent, and values are a JSON-like `Value` datatype.
- Printed warnings and logging are left out.
- The module-level singleton and any concurrent use of it are left out. Each tool takes the store and returns the new one.
- Non-ASCII characters in `\w` are left out: word characters are ASCII letters, digits and `_`.
- Python's version requirement for the backslash inside the f-string expression of `review_and_polish` is not modelled.
- Integer values are unbounded, as in Python.
- CreativeTools.ExtractTitle: the contract states the default title and the one-line shape. The exact title is stated by ExtractTitleOfTitleLine and ExtractTitleOfDraft for content that starts with a title line, and SearchHeadingIsLeftmost states which match is taken in general.
- CreativeTools.TryImage: the contract states only the image number. RetryTakesFirstSuccess, RetryFallsBack and FallbackWrittenMeansRecorded give the full outcome.
- ReviewTools.Split: the contract states the shape of the words. The number of words is given by SplitCountsWordStarts, and their contents are not stated separately.
- WorkflowStore.MissingKeysReadEmpty: the lemma requires the file to lack all four keys. A file lacking only some is covered slot by slot by LoadFromFile and AddCreativeSuggestion.

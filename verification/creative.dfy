/**
 * `generate_ai_creative` from master_agent/tools/creative_tools.py: reads a
 * title and section headings out of Markdown, asks the image API for each of
 * `count` images with up to `MAX_RETRIES` attempts, saves an image, a prompt
 * placeholder or a fallback prompt file for each, reports what happened and
 * appends one suggestion record to the store.
 *
 * The API, the file writes, the images directory and the timestamp are
 * parameters: a `World` says whether the directory and the client can be
 * set up and, for image `i` and attempt `retry`, what the API call returns
 * and whether the file write succeeds.
 */
module CreativeTools {
  import opened Wrappers
  import opened Text
  import opened WorkflowStore
  import opened FileUtils
  import opened Headings
  import opened WritingTools

  const NoContentError: string := "\U{274C} Error: No content provided for creative generation."

  /** The parameter defaults and the retry bound from the settings. */
  const DefaultCreativeType: string := "featured image"
  const DefaultImageStyle: string := "professional"
  const DefaultCount: int := 1
  const MaxRetries: nat := 3

  /** The title used when the content has no `# ` heading. */
  const DefaultTitle: string := "Blog Post"

  /** The note kept with a prompt placeholder written when the API sent no image. */
  const PlaceholderNote: string := "Prompt saved - use with image generation API"

  /** The extension of every prompt file: placeholders and fallbacks alike. */
  const PromptExtension: string := "txt"

  // ---------------------------------------------------------------------------
  // What the content says

  /** `re.search(r'^#\s+(.+)$', content, re.MULTILINE)`, its group stripped, or the default title. */
  function ExtractTitle(content: string): (r: string)
    ensures (forall p :: 0 <= p <= |content| ==> HeadingAt(content, p, 1).None?) ==> r == DefaultTitle
    ensures '\n' !in r
  {
    SearchHeadingIsLeftmost(content, 1, 0);
    match SearchHeading(content, 1, 0)
    case None => DefaultTitle
    case Some(f) =>
      var c := Captured(content, f);
      var t := Strip(c);
      assert forall k :: 0 <= k < |t| ==> t[k] == c[LeadingSpaces(c) + k];
      t
  }

  /** A text that opens like a written draft, with a `# ` title line, has that title. */
  lemma ExtractTitleOfTitleLine(topic: string, x: string, y: string)
    requires |topic| > 0 && !IsSpace(topic[0]) && '\n' !in topic
    ensures ExtractTitle("\n# " + topic + "\n" + x + y) == Strip(topic)
    ensures |"\n# " + topic + "\n" + x + y| > 0
  {
    var s := "\n# " + topic + "\n" + x + y;
    assert s[0] == '\n' && s[1] == '#' && s[2] == ' ' && s[3] == topic[0];
    assert !HashesAt(s, 0, 1);
    assert HeadingAt(s, 0, 1).None?;
    assert HashesAt(s, 1, 1);
    assert SpaceRun(s, 3) == 0;
    assert SpaceRun(s, 2) == 1;
    forall k | 0 <= k < |topic|
      ensures s[3 + k] == topic[k]
    {}
    assert s[3 + |topic|] == '\n';
    assert LineEnd(s, 3) == 3 + |topic|;
    assert HeadingAt(s, 1, 1) == Some(Span(3, 3 + |topic|));
    assert SearchHeading(s, 1, 1) == Some(Found(1, Span(3, 3 + |topic|)));
    assert SearchHeading(s, 1, 0) == Some(Found(1, Span(3, 3 + |topic|)));
    assert s[3..3 + |topic|] == topic;
  }

  /** The creative tool reads the topic of a draft from `write_content` as its title. */
  lemma ExtractTitleOfDraft(topic: string, keywords: string, contentType: string, tone: string, wordCount: int)
    requires |topic| > 0 && !IsSpace(topic[0]) && '\n' !in topic
    ensures ExtractTitle(DraftText(topic, keywords, contentType, tone, wordCount)) == Strip(topic)
    ensures |DraftText(topic, keywords, contentType, tone, wordCount)| > 0
  {
    ExtractTitleOfTitleLine(topic, DraftBody(topic, contentType), DraftFooter(keywords, contentType, tone, wordCount));
  }

  /** `re.findall(r'^##\s+(.+)$', ...)[:3]`: the first three section headings. */
  function HeadingKeywords(content: string): (r: seq<string>)
    ensures |r| == (if |FindAllHeadings(content, 2, 0)| < 3 then |FindAllHeadings(content, 2, 0)| else 3)
    ensures r <= FindAllHeadings(content, 2, 0)
    ensures forall k :: 0 <= k < |r| ==> |r[k]| > 0 && '\n' !in r[k]
  {
    var all := FindAllHeadings(content, 2, 0);
    all[..if |all| < 3 then |all| else 3]
  }

  /** `keywords[0] if keywords else title`. */
  function MainKeyword(keywords: seq<string>, title: string): string {
    if |keywords| > 0 then keywords[0] else title
  }

  /** The main keyword of the prompt is the first `## ` section heading, or the title when there is none. */
  lemma MainKeywordIsFirstSection(content: string, title: string)
    ensures |FindAllHeadings(content, 2, 0)| > 0 ==> MainKeyword(HeadingKeywords(content), title) == FindAllHeadings(content, 2, 0)[0]
    ensures |FindAllHeadings(content, 2, 0)| == 0 ==> MainKeyword(HeadingKeywords(content), title) == title
  {
    var all := FindAllHeadings(content, 2, 0);
    var ks := HeadingKeywords(content);
    if |all| > 0 {
      assert |ks| > 0 && ks[0] == all[0];
    }
  }

  /** The fixed sentences of the image prompt. */
  const PromptMiddle: string := ". The image should be visually appealing, on-brand, and relevant to the content. Use colors that complement the topic and maintain a "
  const PromptKeywordIntro: string := " aesthetic. Include visual elements that represent "
  const PromptEnd: string := ". High quality, professional design, suitable for web use."

  /** The prompt sent to the image API for every image of one call. */
  function Prompt(style: string, creativeType: string, title: string, mainKeyword: string): string {
    "A " + style + " " + creativeType + " for a blog post about " + title
    + PromptMiddle
    + style + PromptKeywordIntro + mainKeyword
    + PromptEnd
  }

  /** Regroups the pieces of the prompt around its title sentence and its keyword sentence. */
  lemma PromptRegroup(a: string, style: string, b: string, ct: string, c: string, title: string, middle: string,
                      intro: string, mk: string, end: string)
    ensures a + style + b + ct + c + title + middle + style + intro + mk + end
         == (a + style + b + ct) + (c + title + middle) + (style + (intro + mk + end))
    ensures a + style + b + ct + c + title + middle + style + intro + mk + end
         == (a + style + b + ct) + (c + title + middle) + style + (intro + mk + end)
  {}

  /** The prompt names the blog post's title and its main keyword. */
  lemma PromptNamesTitleAndKeyword(style: string, creativeType: string, title: string, mainKeyword: string)
    ensures Contains(Prompt(style, creativeType, title, mainKeyword), " for a blog post about " + title + PromptMiddle)
    ensures Contains(Prompt(style, creativeType, title, mainKeyword), PromptKeywordIntro + mainKeyword + PromptEnd)
  {
    var head := "A " + style + " " + creativeType;
    var mid := " for a blog post about " + title + PromptMiddle;
    var tail := PromptKeywordIntro + mainKeyword + PromptEnd;
    PromptRegroup("A ", style, " ", creativeType, " for a blog post about ", title, PromptMiddle,
                  PromptKeywordIntro, mainKeyword, PromptEnd);
    ContainsInfix(head, mid, style + tail);
    ContainsStart(tail, []);
    assert tail + [] == tail;
    ContainsInRight(head + mid + style, tail, tail);
  }

  // ---------------------------------------------------------------------------
  // File names

  /** The extension chosen from an image's MIME type. */
  function Extension(mime: string): (ext: string)
    ensures ext in {"jpg", "webp", "png"}
    ensures ext == "jpg" <==> Contains(mime, "jpeg") || Contains(mime, "jpg")
    ensures ext == "webp" <==> !Contains(mime, "jpeg") && !Contains(mime, "jpg") && Contains(mime, "webp")
  {
    if Contains(mime, "jpeg") || Contains(mime, "jpg") then "jpg"
    else if Contains(mime, "webp") then "webp"
    else "png"
  }

  /** `f"{safe_title}_{creative_type.replace(' ', '_')}_{i}_{timestamp}.{ext}"`. */
  function FileName(safeTitle: string, creativeType: string, i: int, timestamp: string, ext: string): string {
    safeTitle + "_" + Underscore(creativeType) + "_" + IntToString(i) + "_" + timestamp + "." + ext
  }

  /** A cleaned title, a timestamp and an extension without spaces give a file name without spaces. */
  lemma FileNameHasNoSpaces(title: string, creativeType: string, i: int, timestamp: string, ext: string)
    requires ' ' !in timestamp && ' ' !in ext
    ensures ' ' !in FileName(CleanFilename(title, DefaultMaxLength), creativeType, i, timestamp, ext)
  {
    var safe := CleanFilename(title, DefaultMaxLength);
    UnderscoreRemovesSpaces(creativeType);
    var a := safe + "_" + Underscore(creativeType) + "_";
    assert ' ' !in a;
    var b := a + IntToString(i) + "_";
    assert ' ' !in b;
    assert ' ' !in b + timestamp + "." + ext;
  }

  /** `os.path.join(directory, name)` on POSIX paths. */
  function PathJoin(directory: string, name: string): (r: string)
    ensures |name| <= |r| && r[|r| - |name|..] == name
    ensures (|name| == 0 || name[0] != '/') ==> directory <= r
    ensures (|name| == 0 || name[0] != '/') && |directory| > 0 && directory[|directory| - 1] != '/' ==>
      r == directory + "/" + name
  {
    if |name| > 0 && name[0] == '/' then name
    else if |directory| == 0 || directory[|directory| - 1] == '/' then directory + name
    else directory + "/" + name
  }

  // ---------------------------------------------------------------------------
  // The API's reply

  /** The fields of a `generate_content` response the tool looks at; `None` stands for a missing or falsy field. */
  datatype Blob = Blob(mimeType: Option<string>)
  datatype Part = Part(inlineData: Option<Blob>)
  datatype Content = Content(parts: Option<seq<Part>>)
  datatype Candidate = Candidate(content: Option<Content>)
  datatype Response = Response(candidates: seq<Candidate>)

  /** What the loop over the parts of the first candidate finds. */
  datatype ImageSearch = NoImage | ImageData(mime: string) | SearchRaised(message: string)

  /** Iterating over `parts` when it is `None`. */
  const PartsNotIterable: string := "'NoneType' object is not iterable"
  /** Testing `'jpeg' in image_mime` when the MIME type is `None`. */
  const MimeNotIterable: string := "argument of type 'NoneType' is not iterable"

  /** Part `k` is the first part that carries inline data. */
  predicate FirstWithData(parts: seq<Part>, k: int) {
    0 <= k < |parts| && parts[k].inlineData.Some? && forall j :: 0 <= j < k ==> parts[j].inlineData.None?
  }

  /** The first part with inline data decides; a missing MIME type there raises. */
  function FirstInline(parts: seq<Part>): (r: ImageSearch)
    ensures r.NoImage? <==> forall k :: 0 <= k < |parts| ==> parts[k].inlineData.None?
    ensures r.ImageData? ==> exists k :: FirstWithData(parts, k) && parts[k].inlineData == Some(Blob(Some(r.mime)))
    ensures r.SearchRaised? ==>
      r.message == MimeNotIterable && exists k :: FirstWithData(parts, k) && parts[k].inlineData == Some(Blob(None))
    decreases |parts|
  {
    if |parts| == 0 then NoImage
    else match parts[0].inlineData
      case None =>
        var r := FirstInline(parts[1..]);
        assert forall k :: 1 <= k < |parts| ==> parts[k] == parts[1..][k - 1];
        if r.ImageData? || r.SearchRaised? then
          var k :| FirstWithData(parts[1..], k) && parts[1..][k].inlineData == Some(Blob(if r.ImageData? then Some(r.mime) else None));
          assert FirstWithData(parts, k + 1);
          r
        else r
      case Some(blob) =>
        match blob.mimeType
        case None => SearchRaised(MimeNotIterable)
        case Some(m) => ImageData(m)
  }

  /** Only the first candidate is examined, and only when it has content. */
  function ImageIn(response: Response): ImageSearch {
    if |response.candidates| == 0 then NoImage
    else match response.candidates[0].content
      case None => NoImage
      case Some(c) =>
        match c.parts
        case None => SearchRaised(PartsNotIterable)
        case Some(ps) => FirstInline(ps)
  }

  datatype ApiOutcome = ApiRaised(message: string) | ApiReturned(response: Response)
  datatype WriteOutcome = WriteOk | WriteFailed(message: string)

  /** A call made before the loop, outside any `try`: it returns, or raises with a message. */
  datatype Setup = Ready | SetupRaised(message: string)

  /**
   * The outside world of one call: whether creating the images directory
   * and constructing the API client succeed, the API outcome and the outcome
   * of the file write in attempt `retry` for image `i`, and the outcome of
   * writing image `i`'s fallback prompt file.
   */
  datatype World = World(makeDirs: Setup, client: Setup,
                         api: (nat, nat) -> ApiOutcome, write: (nat, nat) -> WriteOutcome, fallback: nat -> WriteOutcome)

  /** Both calls before the loop return, so the call reaches the loop over the images. */
  predicate SetupSucceeds(world: World) {
    world.makeDirs.Ready? && world.client.Ready?
  }

  /** How one attempt inside the retry loop ends. */
  datatype Attempt = Raised(message: string) | SavedImage(ext: string) | SavedPlaceholder

  /**
   * One attempt: an exception from the API, from the loop over the parts or
   * from the file write sends control to the `except` branch; otherwise the
   * image, or a placeholder when there was none, is saved.
   */
  function AttemptOutcome(api: ApiOutcome, write: WriteOutcome): (a: Attempt)
    ensures api.ApiRaised? ==> a == Raised(api.message)
    ensures write.WriteFailed? ==> a.Raised?
    ensures a.SavedImage? ==> a.ext in {"jpg", "webp", "png"}
  {
    match api
    case ApiRaised(m) => Raised(m)
    case ApiReturned(response) =>
      match ImageIn(response)
      case SearchRaised(m) => Raised(m)
      case ImageData(mime) =>
        (match write
         case WriteOk => SavedImage(Extension(mime))
         case WriteFailed(m) => Raised(m))
      case NoImage =>
        (match write
         case WriteOk => SavedPlaceholder
         case WriteFailed(m) => Raised(m))
  }

  function AttemptAt(world: World, i: nat, retry: nat): Attempt {
    AttemptOutcome(world.api(i, retry), world.write(i, retry))
  }

  // ---------------------------------------------------------------------------
  // One image

  /** What sits beside the four common fields of a record: nothing, a `note` or an `error`. */
  datatype Extra = Saved | Note(note: string) | Error(error: string)

  /** One entry of `generated_images`. */
  datatype ImageRecord = ImageRecord(number: nat, filename: string, filepath: string, prompt: string, extra: Extra)

  /** What stays fixed across the images of one call. */
  datatype Job = Job(safeTitle: string, creativeType: string, prompt: string, timestamp: string, imagesDir: string)

  /** The record of image `i` saved under extension `ext`. */
  function RecordFor(job: Job, i: nat, ext: string, extra: Extra): (rec: ImageRecord)
    ensures rec.number == i && rec.prompt == job.prompt && rec.extra == extra
    ensures rec.filename == FileName(job.safeTitle, job.creativeType, i, job.timestamp, ext)
    ensures rec.filepath == PathJoin(job.imagesDir, rec.filename)
  {
    var name := FileName(job.safeTitle, job.creativeType, i, job.timestamp, ext);
    ImageRecord(i, name, PathJoin(job.imagesDir, name), job.prompt, extra)
  }

  /** The record of an attempt that did not raise. */
  function SuccessRecord(job: Job, i: nat, a: Attempt): (rec: ImageRecord)
    requires !a.Raised?
    ensures rec.number == i && rec.prompt == job.prompt
  {
    match a
    case SavedImage(ext) => RecordFor(job, i, ext, Saved)
    case SavedPlaceholder => RecordFor(job, i, PromptExtension, Note(PlaceholderNote))
  }

  /** How the retry loop for one image ends: a record, or an exception for the outer handler. */
  datatype ImageOutcome = Recorded(record: ImageRecord) | Failed(message: string)

  /** After the last attempt raised: the fallback prompt file, which may itself fail to be written. */
  function Fallback(fallback: WriteOutcome, job: Job, i: nat, message: string): (r: ImageOutcome)
    ensures r.Recorded? <==> fallback.WriteOk?
    ensures r.Recorded? ==> r.record == RecordFor(job, i, PromptExtension, Error(message))
    ensures r.Failed? ==> r.message == fallback.message
  {
    match fallback
    case WriteOk => Recorded(RecordFor(job, i, PromptExtension, Error(message)))
    case WriteFailed(m) => Failed(m)
  }

  /**
   * The retry loop for image `i` from attempt `retry` on, given how each
   * attempt ends and how writing the fallback file ends.
   */
  function TryImage(attempts: nat -> Attempt, fallback: WriteOutcome, job: Job, i: nat, retry: nat): (r: ImageOutcome)
    requires retry < MaxRetries
    ensures r.Recorded? ==> r.record.number == i
    decreases MaxRetries - retry
  {
    var a := attempts(retry);
    if !a.Raised? then Recorded(SuccessRecord(job, i, a))
    else if retry == MaxRetries - 1 then Fallback(fallback, job, i, a.message)
    else TryImage(attempts, fallback, job, i, retry + 1)
  }

  /** The loop stops at the first attempt that does not raise, and that attempt makes the record. */
  lemma {:induction false} RetryTakesFirstSuccess(attempts: nat -> Attempt, fallback: WriteOutcome, job: Job, i: nat, retry: nat, j: nat)
    requires retry <= j < MaxRetries
    requires !attempts(j).Raised?
    requires forall k: nat :: retry <= k < j ==> attempts(k).Raised?
    ensures TryImage(attempts, fallback, job, i, retry) == Recorded(SuccessRecord(job, i, attempts(j)))
    decreases j - retry
  {
    if retry < j {
      assert attempts(retry).Raised? && retry < MaxRetries - 1;
      RetryTakesFirstSuccess(attempts, fallback, job, i, retry + 1, j);
    } else {
      assert !attempts(retry).Raised?;
    }
  }

  /** When every remaining attempt raises, the fallback file is written with the last attempt's error. */
  lemma {:induction false} RetryFallsBack(attempts: nat -> Attempt, fallback: WriteOutcome, job: Job, i: nat, retry: nat)
    requires retry < MaxRetries
    requires forall k: nat :: retry <= k < MaxRetries ==> attempts(k).Raised?
    ensures TryImage(attempts, fallback, job, i, retry) == Fallback(fallback, job, i, attempts(MaxRetries - 1).message)
    decreases MaxRetries - retry
  {
    assert attempts(retry).Raised?;
    if retry < MaxRetries - 1 {
      RetryFallsBack(attempts, fallback, job, i, retry + 1);
    }
  }

  /** An image is lost only when its fallback file cannot be written. */
  lemma {:induction false} FallbackWrittenMeansRecorded(attempts: nat -> Attempt, fallback: WriteOutcome, job: Job, i: nat, retry: nat)
    requires retry < MaxRetries
    requires fallback.WriteOk?
    ensures TryImage(attempts, fallback, job, i, retry).Recorded?
    decreases MaxRetries - retry
  {
    if attempts(retry).Raised? && retry < MaxRetries - 1 {
      FallbackWrittenMeansRecorded(attempts, fallback, job, i, retry + 1);
    }
  }

  // ---------------------------------------------------------------------------
  // All images

  /** The line reported when an image's retry loop ends with an exception. */
  function ErrorLine(i: int, message: string): string {
    "\n\U{26A0}\U{FE0F} Error generating image #" + IntToString(i) + ": " + message + "\n"
  }

  /** The records kept and the error lines reported by the loop over the images. */
  datatype Run = Run(records: seq<ImageRecord>, errors: seq<string>)

  /** How each attempt for image `i` ends. */
  function AttemptsOf(world: World, i: nat): nat -> Attempt {
    (k: nat) => AttemptAt(world, i, k)
  }

  /** How each image's retry loop ends, for every image number. */
  function ImageOutcomes(world: World, job: Job): nat -> ImageOutcome {
    (n: nat) => TryImage(AttemptsOf(world, n), world.fallback(n), job, n, 0)
  }

  /** An outcome that is a record carries the number of its image. */
  ghost predicate Numbered(outcome: nat -> ImageOutcome) {
    forall n: nat :: outcome(n).Recorded? ==> outcome(n).record.number == n
  }

  lemma ImageOutcomesNumbered(world: World, job: Job)
    ensures Numbered(ImageOutcomes(world, job))
  {
    forall n: nat
      ensures ImageOutcomes(world, job)(n).Recorded? ==> ImageOutcomes(world, job)(n).record.number == n
    {
      var o := TryImage(AttemptsOf(world, n), world.fallback(n), job, n, 0);
    }
  }

  /**
   * `for i in range(i, count + 1)`: each image ends as a record or as an
   * error line; the records come in image order, each one the outcome of its
   * image's retry loop.
   */
  function Generate(outcome: nat -> ImageOutcome, i: nat, count: int): (r: Run)
    requires Numbered(outcome)
    ensures |r.records| + |r.errors| == (if i <= count then count - i + 1 else 0)
    ensures forall k :: 0 <= k < |r.records| ==> i <= r.records[k].number <= count
    ensures forall k :: 0 <= k < |r.records| ==> outcome(r.records[k].number) == Recorded(r.records[k])
    decreases count + 1 - i
  {
    if i > count then Run([], [])
    else
      var rest := Generate(outcome, i + 1, count);
      match outcome(i)
      case Recorded(rec) =>
        var r := Run([rec] + rest.records, rest.errors);
        assert forall k :: 1 <= k < |r.records| ==> r.records[k] == rest.records[k - 1];
        r
      case Failed(m) => Run(rest.records, [ErrorLine(i, m)] + rest.errors)
  }

  /** One step of the loop: a recorded image puts its record in front of the later ones. */
  lemma GenerateStep(outcome: nat -> ImageOutcome, i: nat, count: int)
    requires Numbered(outcome)
    requires i <= count
    ensures var r := Generate(outcome, i, count);
      var rest := Generate(outcome, i + 1, count);
      && (outcome(i).Recorded? ==> r.records == [outcome(i).record] + rest.records && r.errors == rest.errors)
      && (outcome(i).Failed? ==> r.records == rest.records && r.errors == [ErrorLine(i, outcome(i).message)] + rest.errors)
  {}

  /** The records come in the order of their image numbers, each number once. */
  lemma {:induction false} GenerateInOrder(outcome: nat -> ImageOutcome, i: nat, count: int)
    requires Numbered(outcome)
    ensures forall a, b :: 0 <= a < b < |Generate(outcome, i, count).records| ==>
      Generate(outcome, i, count).records[a].number < Generate(outcome, i, count).records[b].number
    decreases count + 1 - i
  {
    if i <= count {
      GenerateInOrder(outcome, i + 1, count);
      var rest := Generate(outcome, i + 1, count);
      var r := Generate(outcome, i, count);
      if outcome(i).Recorded? {
        assert r.records == [outcome(i).record] + rest.records;
        forall a, b | 0 <= a < b < |r.records|
          ensures r.records[a].number < r.records[b].number
        {
          assert r.records[b] == rest.records[b - 1];
          if a > 0 {
            assert r.records[a] == rest.records[a - 1];
          } else {
            assert r.records[0].number == i;
          }
        }
      } else {
        assert r.records == rest.records;
      }
    }
  }

  /** Every image whose retry loop ends with a record is in the list. */
  lemma {:induction false} GenerateKeepsEveryRecord(outcome: nat -> ImageOutcome, i: nat, count: int, n: nat)
    requires Numbered(outcome)
    requires i <= n <= count
    requires outcome(n).Recorded?
    ensures exists k :: 0 <= k < |Generate(outcome, i, count).records| && Generate(outcome, i, count).records[k].number == n
    decreases count + 1 - i
  {
    var rest := Generate(outcome, i + 1, count);
    var r := Generate(outcome, i, count);
    GenerateStep(outcome, i, count);
    if outcome(i).Recorded? {
      if n == i {
        assert r.records[0].number == n;
      } else {
        GenerateKeepsEveryRecord(outcome, i + 1, count, n);
        var k :| 0 <= k < |rest.records| && rest.records[k].number == n;
        assert r.records[k + 1] == rest.records[k];
      }
    } else {
      GenerateKeepsEveryRecord(outcome, i + 1, count, n);
    }
  }

  /** No error lines exactly when every image's retry loop ends with a record. */
  lemma {:induction false} NoErrorsIffAllRecorded(outcome: nat -> ImageOutcome, i: nat, count: int)
    requires Numbered(outcome)
    ensures |Generate(outcome, i, count).errors| == 0 <==> forall n :: i <= n <= count ==> outcome(n).Recorded?
    decreases count + 1 - i
  {
    if i <= count {
      NoErrorsIffAllRecorded(outcome, i + 1, count);
      if outcome(i).Failed? {
        assert |Generate(outcome, i, count).errors| > 0;
        assert !outcome(i).Recorded?;
      } else {
        assert Generate(outcome, i, count).errors == Generate(outcome, i + 1, count).errors;
      }
    }
  }

  /** When every image's retry loop ends with a record, image `i + k` is the record at position `k`. */
  lemma {:induction false} AllRecordedListsAll(outcome: nat -> ImageOutcome, i: nat, count: int)
    requires Numbered(outcome)
    requires forall n: nat :: outcome(n).Recorded?
    ensures |Generate(outcome, i, count).errors| == 0
    ensures |Generate(outcome, i, count).records| == (if i <= count then count - i + 1 else 0)
    ensures forall k :: 0 <= k < |Generate(outcome, i, count).records| ==> Generate(outcome, i, count).records[k].number == i + k
    decreases count + 1 - i
  {
    if i <= count {
      AllRecordedListsAll(outcome, i + 1, count);
      var rest := Generate(outcome, i + 1, count);
      var r := Generate(outcome, i, count);
      assert outcome(i).Recorded?;
      assert r.records == [outcome(i).record] + rest.records;
      forall k | 1 <= k < |r.records|
        ensures r.records[k].number == i + k
      {
        assert r.records[k] == rest.records[k - 1];
      }
    }
  }

  /** Every image's retry loop ends with a record when every fallback file can be written. */
  lemma FallbacksWrittenRecordsAll(world: World, job: Job)
    requires forall n: nat :: world.fallback(n).WriteOk?
    ensures forall n: nat :: ImageOutcomes(world, job)(n).Recorded?
  {
    forall n: nat
      ensures ImageOutcomes(world, job)(n).Recorded?
    {
      FallbackWrittenMeansRecorded(AttemptsOf(world, n), world.fallback(n), job, n, 0);
    }
  }

  // ---------------------------------------------------------------------------
  // The reply

  function Concat(parts: seq<string>): string
    decreases |parts|
  {
    if |parts| == 0 then "" else parts[0] + Concat(parts[1..])
  }

  lemma {:induction false} ConcatContains(parts: seq<string>, k: nat)
    requires k < |parts|
    ensures Contains(Concat(parts), parts[k])
    decreases |parts|
  {
    if k == 0 {
      ContainsStart(parts[0], Concat(parts[1..]));
    } else {
      ConcatContains(parts[1..], k - 1);
      ContainsInRight(parts[0], Concat(parts[1..]), parts[k]);
    }
  }

  const BannerTitle: string := "\n\U{1F3A8} AI CREATIVE GENERATION\n"
  const GeneratingLine: string := " image(s)\n\n\U{1F5BC}\U{FE0F} GENERATING IMAGES...\n"

  function Banner(): string {
    BannerTitle + Rule() + "\n\n"
  }

  function TitleLine(title: string): string {
    "\U{1F4DD} Content Title: " + title + "\n"
  }

  function Settings(creativeType: string, style: string, count: int): string {
    "\U{1F3AF} Creative Type: " + creativeType + "\n\U{2728} Style: " + style
    + "\n\U{1F4CA} Generating: " + IntToString(count) + GeneratingLine
  }

  function Header(title: string, creativeType: string, style: string, count: int): string {
    Banner() + TitleLine(title) + Settings(creativeType, style, count)
  }

  const CompletionTitle: string := "\n\U{2705} GENERATION COMPLETE\n"

  function Completion(): string {
    CompletionTitle + Rule() + "\n\n"
  }

  function NumberLine(rec: ImageRecord): string {
    "Image #" + IntToString(rec.number) + ":\n"
  }

  function FileLine(rec: ImageRecord): string {
    "  \U{1F4C4} Filename: " + rec.filename + "\n"
  }

  /** The rest of a record's entry: path, the prompt cut to 100 characters, the note of a placeholder. */
  function RecordTail(rec: ImageRecord): string {
    "  \U{1F4CD} Filepath: " + rec.filepath + "\n"
    + "  \U{1F3A8} Prompt: " + PyPrefix(rec.prompt, 100) + "...\n"
    + (if rec.extra.Note? then "  \U{2139}\U{FE0F}  Note: " + rec.extra.note + "\n" else "")
    + "\n"
  }

  function RecordEntry(rec: ImageRecord): string {
    NumberLine(rec) + FileLine(rec) + RecordTail(rec)
  }

  function Listing(records: seq<ImageRecord>): string
    decreases |records|
  {
    if |records| == 0 then "" else RecordEntry(records[0]) + Listing(records[1..])
  }

  /** Every record's file name is in the listing. */
  lemma {:induction false} ListingNamesEveryFile(records: seq<ImageRecord>, k: nat)
    requires k < |records|
    ensures Contains(Listing(records), FileLine(records[k]))
    decreases |records|
  {
    if k == 0 {
      ContainsInfix(NumberLine(records[0]), FileLine(records[0]), RecordTail(records[0]));
      ContainsInLeft(RecordEntry(records[0]), Listing(records[1..]), FileLine(records[0]));
    } else {
      ListingNamesEveryFile(records[1..], k - 1);
      ContainsInRight(RecordEntry(records[0]), Listing(records[1..]), FileLine(records[k]));
    }
  }

  const NoImagesLine: string := "\U{26A0}\U{FE0F} No images were generated. Check the error messages above.\n"

  function SavedTo(imagesDir: string): string {
    "\U{1F4C1} Images saved to directory: " + imagesDir + "\n\n" + "\U{1F4F8} Generated Images:\n\n"
  }

  const UsageTips: string := "  - You can view them in your file system\n  - Use them as featured images, social media graphics, etc.\n"

  function Usage(imagesDir: string): string {
    "\U{1F4A1} Usage:\n" + "  - Images are saved in: " + imagesDir + "\n" + UsageTips
  }

  /** The part after the completion banner: the list of records, or the warning that there are none. */
  function Summary(records: seq<ImageRecord>, imagesDir: string): string {
    if |records| > 0 then SavedTo(imagesDir) + Listing(records) + Usage(imagesDir) else NoImagesLine
  }

  function Closing(): string {
    "\n" + Rule() + "\n"
  }

  function Message(title: string, creativeType: string, style: string, count: int, run: Run, imagesDir: string): string {
    Header(title, creativeType, style, count) + Concat(run.errors) + Completion() + Summary(run.records, imagesDir) + Closing()
  }

  /** The reply names the title. */
  lemma MessageNamesTitle(title: string, creativeType: string, style: string, count: int, run: Run, imagesDir: string)
    ensures Contains(Message(title, creativeType, style, count, run, imagesDir), TitleLine(title))
  {
    var h := Header(title, creativeType, style, count);
    var e := Concat(run.errors);
    var c := Completion();
    var s := Summary(run.records, imagesDir);
    ContainsInfix(Banner(), TitleLine(title), Settings(creativeType, style, count));
    ContainsInLeft(h, e, TitleLine(title));
    ContainsInLeft(h + e, c, TitleLine(title));
    ContainsInLeft(h + e + c, s, TitleLine(title));
    ContainsInLeft(h + e + c + s, Closing(), TitleLine(title));
  }

  /** The reply carries every error line. */
  lemma MessageReportsErrors(title: string, creativeType: string, style: string, count: int, run: Run, imagesDir: string, k: nat)
    requires k < |run.errors|
    ensures Contains(Message(title, creativeType, style, count, run, imagesDir), run.errors[k])
  {
    var h := Header(title, creativeType, style, count);
    var e := Concat(run.errors);
    var c := Completion();
    var s := Summary(run.records, imagesDir);
    ConcatContains(run.errors, k);
    ContainsInRight(h, e, run.errors[k]);
    ContainsInLeft(h + e, c, run.errors[k]);
    ContainsInLeft(h + e + c, s, run.errors[k]);
    ContainsInLeft(h + e + c + s, Closing(), run.errors[k]);
  }

  /** The reply names the file of every record. */
  lemma MessageNamesEveryFile(title: string, creativeType: string, style: string, count: int, run: Run, imagesDir: string, k: nat)
    requires k < |run.records|
    ensures Contains(Message(title, creativeType, style, count, run, imagesDir), FileLine(run.records[k]))
  {
    var h := Header(title, creativeType, style, count);
    var e := Concat(run.errors);
    var c := Completion();
    var s := Summary(run.records, imagesDir);
    var line := FileLine(run.records[k]);
    ListingNamesEveryFile(run.records, k);
    ContainsInRight(SavedTo(imagesDir), Listing(run.records), line);
    ContainsInLeft(SavedTo(imagesDir) + Listing(run.records), Usage(imagesDir), line);
    ContainsInRight(h + e + c, s, line);
    ContainsInLeft(h + e + c + s, Closing(), line);
  }

  /** With no records, the reply says that no image was generated. */
  lemma MessageWarnsWhenEmpty(title: string, creativeType: string, style: string, count: int, run: Run, imagesDir: string)
    requires |run.records| == 0
    ensures Contains(Message(title, creativeType, style, count, run, imagesDir), NoImagesLine)
  {
    var h := Header(title, creativeType, style, count);
    var e := Concat(run.errors);
    var c := Completion();
    ContainsInfix(h + e + c, NoImagesLine, Closing());
  }

  // ---------------------------------------------------------------------------
  // The stored suggestion

  /** A record as the dict that goes into `generated_images`. */
  function RecordValue(rec: ImageRecord): (v: Value)
    ensures v.Object?
    ensures Field(v, "number") == Int(rec.number) && Field(v, "filename") == Str(rec.filename)
    ensures Field(v, "filepath") == Str(rec.filepath) && Field(v, "prompt") == Str(rec.prompt)
    ensures ("note" in v.fields <==> rec.extra.Note?) && ("error" in v.fields <==> rec.extra.Error?)
    ensures rec.extra.Note? ==> Field(v, "note") == Str(rec.extra.note)
    ensures rec.extra.Error? ==> Field(v, "error") == Str(rec.extra.error)
  {
    var common := map["number" := Int(rec.number), "filename" := Str(rec.filename),
                       "filepath" := Str(rec.filepath), "prompt" := Str(rec.prompt)];
    match rec.extra
    case Saved => Object(common)
    case Note(n) => Object(common["note" := Str(n)])
    case Error(e) => Object(common["error" := Str(e)])
  }

  /** The dict passed to `add_creative_suggestion`. */
  function SuggestionValue(title: string, creativeType: string, style: string, count: int,
                           records: seq<ImageRecord>, imagesDir: string): (v: Value)
    ensures v.Object?
    ensures v.fields.Keys == {"content_title", "creative_type", "style", "count", "generated_images", "images_directory"}
    ensures Field(v, "content_title") == Str(title) && Field(v, "creative_type") == Str(creativeType)
    ensures Field(v, "style") == Str(style) && Field(v, "count") == Int(count)
    ensures Field(v, "images_directory") == Str(imagesDir)
    ensures Field(v, "generated_images").List? && |Field(v, "generated_images").items| == |records|
    ensures forall k :: 0 <= k < |records| ==> Field(v, "generated_images").items[k] == RecordValue(records[k])
  {
    Object(map["content_title" := Str(title), "creative_type" := Str(creativeType), "style" := Str(style),
               "count" := Int(count),
               "generated_images" := List(seq(|records|, k requires 0 <= k < |records| => RecordValue(records[k]))),
               "images_directory" := Str(imagesDir)])
  }

  // ---------------------------------------------------------------------------
  // The tool

  /** The fixed part of a call, from the content and the call's parameters. */
  function JobFor(content: string, creativeType: string, style: string, imagesDir: string, timestamp: string): Job {
    var title := ExtractTitle(content);
    Job(CleanFilename(title, DefaultMaxLength), creativeType, Prompt(style, creativeType, title, MainKeyword(HeadingKeywords(content), title)), timestamp, imagesDir)
  }

  /** The loop over the images of a call. */
  function CreativeRun(content: string, creativeType: string, style: string, count: int,
                       world: World, imagesDir: string, timestamp: string): Run {
    var job := JobFor(content, creativeType, style, imagesDir, timestamp);
    ImageOutcomesNumbered(world, job);
    Generate(ImageOutcomes(world, job), 1, count)
  }

  /** The last step of a call: store the suggestion, then return the reply. */
  function Finish(w: WorkflowState, reply: string, suggestion: Value): (r: Result<ToolResult, string>)
    ensures r.Success? <==> GetCreativeSuggestions(w).List?
    ensures r.Failure? ==> r.error == "'" + TypeName(GetCreativeSuggestions(w)) + "' object has no attribute 'append'"
    ensures r.Success? ==> r.value.reply == reply
    ensures r.Success? ==> GetCreativeSuggestions(r.value.store) == List(GetCreativeSuggestions(w).items + [suggestion])
    ensures r.Success? ==> r.value.store.state - {SuggestionsKey} == w.state - {SuggestionsKey}
  {
    match AddCreativeSuggestion(w, suggestion)
    case Success(w2) => Success(ToolResult(reply, w2))
    case Failure(e) => Failure(e)
  }

  /**
   * `generate_ai_creative(content, creative_type, style, count)`. Empty
   * content is refused with the store untouched. Creating the images
   * directory and then constructing the client can raise before any `try`,
   * and the call fails with that message. Otherwise the reply reports the
   * run and one suggestion is appended to the store; when the suggestions
   * key holds something other than a list, the append raises and the call
   * fails with Python's message.
   */
  function GenerateAiCreative(w: WorkflowState, content: string, creativeType: string, style: string, count: int,
                              world: World, imagesDir: string, timestamp: string): (r: Result<ToolResult, string>)
    ensures |content| == 0 ==> r == Success(ToolResult(NoContentError, w))
    ensures |content| > 0 ==> (r.Success? <==> SetupSucceeds(world) && GetCreativeSuggestions(w).List?)
    ensures |content| > 0 && world.makeDirs.SetupRaised? ==> r == Failure(world.makeDirs.message)
    ensures |content| > 0 && world.makeDirs.Ready? && world.client.SetupRaised? ==> r == Failure(world.client.message)
    ensures |content| > 0 && SetupSucceeds(world) && r.Failure? ==>
      r.error == "'" + TypeName(GetCreativeSuggestions(w)) + "' object has no attribute 'append'"
    ensures |content| > 0 && r.Success? ==>
      var run := CreativeRun(content, creativeType, style, count, world, imagesDir, timestamp);
      && r.value.reply == Message(ExtractTitle(content), creativeType, style, count, run, imagesDir)
      && GetCreativeSuggestions(r.value.store) == List(GetCreativeSuggestions(w).items
           + [SuggestionValue(ExtractTitle(content), creativeType, style, count, run.records, imagesDir)])
      && r.value.store.state - {SuggestionsKey} == w.state - {SuggestionsKey}
  {
    if |content| == 0 then Success(ToolResult(NoContentError, w))
    else if world.makeDirs.SetupRaised? then Failure(world.makeDirs.message)
    else if world.client.SetupRaised? then Failure(world.client.message)
    else
      var title := ExtractTitle(content);
      var run := CreativeRun(content, creativeType, style, count, world, imagesDir, timestamp);
      Finish(w, Message(title, creativeType, style, count, run, imagesDir),
             SuggestionValue(title, creativeType, style, count, run.records, imagesDir))
  }

  /** The tool titles its report and its suggestion with the title it reads from the content. */
  lemma CreativeNamesTitle(w: WorkflowState, content: string, title: string, creativeType: string, style: string, count: int,
                           world: World, imagesDir: string, timestamp: string)
    requires |content| > 0 && SetupSucceeds(world) && GetCreativeSuggestions(w).List?
    requires ExtractTitle(content) == title
    ensures
      var r := GenerateAiCreative(w, content, creativeType, style, count, world, imagesDir, timestamp);
      && r.Success?
      && Contains(r.value.reply, TitleLine(title))
      && Field(GetCreativeSuggestions(r.value.store).items[|GetCreativeSuggestions(w).items|], "content_title") == Str(title)
  {
    var r := GenerateAiCreative(w, content, creativeType, style, count, world, imagesDir, timestamp);
    var run := CreativeRun(content, creativeType, style, count, world, imagesDir, timestamp);
    assert r.Success? && r.value.reply == Message(title, creativeType, style, count, run, imagesDir);
    MessageNamesTitle(title, creativeType, style, count, run, imagesDir);
    var before := GetCreativeSuggestions(w).items;
    var v := SuggestionValue(title, creativeType, style, count, run.records, imagesDir);
    assert GetCreativeSuggestions(r.value.store).items == before + [v];
    assert GetCreativeSuggestions(r.value.store).items[|before|] == v;
  }

  /** When every fallback file can be written, the loop records images 1 to `count` and reports no error. */
  lemma RunRecordsAll(content: string, creativeType: string, style: string, count: int,
                      world: World, imagesDir: string, timestamp: string)
    requires forall n: nat :: world.fallback(n).WriteOk?
    ensures
      var run := CreativeRun(content, creativeType, style, count, world, imagesDir, timestamp);
      && |run.errors| == 0
      && |run.records| == (if count >= 1 then count else 0)
      && (forall k :: 0 <= k < |run.records| ==> run.records[k].number == k + 1)
  {
    var job := JobFor(content, creativeType, style, imagesDir, timestamp);
    FallbacksWrittenRecordsAll(world, job);
    ImageOutcomesNumbered(world, job);
    AllRecordedListsAll(ImageOutcomes(world, job), 1, count);
  }

  /**
   * When every fallback file can be written, a call with `count >= 1` lists
   * `count` files in its reply, numbered 1 to `count`, with no error line.
   */
  lemma CreativeListsEveryImage(w: WorkflowState, content: string, creativeType: string, style: string, count: int,
                                world: World, imagesDir: string, timestamp: string)
    requires |content| > 0 && SetupSucceeds(world) && GetCreativeSuggestions(w).List?
    requires forall n: nat :: world.fallback(n).WriteOk?
    ensures
      var run := CreativeRun(content, creativeType, style, count, world, imagesDir, timestamp);
      var r := GenerateAiCreative(w, content, creativeType, style, count, world, imagesDir, timestamp);
      && r.Success?
      && |run.errors| == 0
      && |run.records| == (if count >= 1 then count else 0)
      && (forall k :: 0 <= k < |run.records| ==> run.records[k].number == k + 1 && Contains(r.value.reply, FileLine(run.records[k])))
  {
    var run := CreativeRun(content, creativeType, style, count, world, imagesDir, timestamp);
    RunRecordsAll(content, creativeType, style, count, world, imagesDir, timestamp);
    forall k | 0 <= k < |run.records|
      ensures Contains(Message(ExtractTitle(content), creativeType, style, count, run, imagesDir), FileLine(run.records[k]))
    {
      MessageNamesEveryFile(ExtractTitle(content), creativeType, style, count, run, imagesDir, k);
    }
  }
}

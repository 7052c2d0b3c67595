/**
 * The multiline heading patterns the tools search Markdown with:
 * `^#\s+(.+)$` and `^##\s+(.+)$` (title and section headings in
 * master_agent/tools/creative_tools.py) and `^#+\s` (heading count in
 * master_agent/tools/review_tools.py), all under `re.MULTILINE`.
 *
 * `\s+` may run across newlines, and `.` never matches a newline; Python's
 * backtracking then decides where the capture starts. The scanner below makes
 * those choices explicit.
 */
module Headings {
  import opened Wrappers
  import opened Text

  /** Where `^` matches under `re.MULTILINE`: the start, or just after a newline. */
  predicate IsLineStart(s: string, p: int) {
    0 <= p <= |s| && (p == 0 || s[p - 1] == '\n')
  }

  /** `level` hashes start at `p`: the pattern's `#` or `##`. */
  predicate HashesAt(s: string, p: nat, level: nat) {
    p + level <= |s| && forall i :: p <= i < p + level ==> s[i] == '#'
  }

  /** The bounds of a capture group, `s[start..end]`. */
  datatype Span = Span(start: nat, end: nat)

  /**
   * The pattern `^#{level}\s+(.+)$` matches at `p` with `\s+` taking exactly
   * `k` characters: `p` is a line start, `level` hashes follow, then `k >= 1`
   * whitespace characters, then at least one character other than a newline.
   * The capture then runs to the end of that line, the only place `$` allows.
   */
  predicate Feasible(s: string, p: int, level: nat, k: int) {
    && IsLineStart(s, p)
    && 1 <= k
    && p + level + k < |s|
    && HashesAt(s, p, level)
    && (forall i :: p + level <= i < p + level + k ==> IsSpace(s[i]))
    && s[p + level + k] != '\n'
  }

  /** The last index in `[lo, hi)` that holds something other than a newline. */
  function LastNonNewline(s: string, lo: nat, hi: nat): (r: Option<nat>)
    requires lo <= hi <= |s|
    ensures r.Some? ==> lo <= r.value < hi && s[r.value] != '\n'
    ensures r.Some? ==> forall k :: r.value < k < hi ==> s[k] == '\n'
    ensures r.None? ==> forall k :: lo <= k < hi ==> s[k] == '\n'
    decreases hi - lo
  {
    if lo == hi then None
    else if s[hi - 1] != '\n' then Some(hi - 1)
    else LastNonNewline(s, lo, hi - 1)
  }

  /**
   * The match of `^#{level}\s+(.+)$` at `p`, following Python's regex engine:
   * after the hashes, `\s+` first takes the whole whitespace run; only when
   * that run reaches the end of the text does it give characters back, until
   * `(.+)` can start on a character other than a newline. The capture then
   * runs to the end of its line.
   */
  function HeadingAt(s: string, p: nat, level: nat): (r: Option<Span>)
    requires p <= |s|
    ensures r.Some? ==> p + level < r.value.start < r.value.end <= |s|
    ensures r.Some? ==> r.value.end == LineEnd(s, r.value.start)
  {
    if !IsLineStart(s, p) || !HashesAt(s, p, level) then
      None
    else
      var q := p + level;
      var w := SpaceRun(s, q);
      if w == 0 then None
      else if q + w < |s| then Some(Span(q + w, LineEnd(s, q + w)))
      else
        match LastNonNewline(s, q + 1, q + w)
        case None => None
        case Some(j) => Some(Span(j, LineEnd(s, j)))
  }

  /**
   * The scanner agrees with the pattern's meaning: it finds a match exactly
   * when some split is feasible, and then the one with the longest `\s+`
   * run (greedy), with the capture running to the end of its line.
   */
  lemma HeadingAtIsGreedy(s: string, p: nat, level: nat)
    requires p <= |s|
    ensures HeadingAt(s, p, level).Some? <==> exists k :: Feasible(s, p, level, k)
    ensures HeadingAt(s, p, level).Some? ==>
      var c := HeadingAt(s, p, level).value;
      && Feasible(s, p, level, c.start - (p + level))
      && (forall k :: c.start - (p + level) < k ==> !Feasible(s, p, level, k))
  {
    if !IsLineStart(s, p) || !HashesAt(s, p, level) {
    } else {
      var q := p + level;
      var w := SpaceRun(s, q);
      if w == 0 {
        forall k | 1 <= k && q + k < |s|
          ensures !Feasible(s, p, level, k)
        {
          assert !IsSpace(s[q]);
        }
      } else if q + w < |s| {
        assert Feasible(s, p, level, w);
        forall k | w < k && q + k < |s|
          ensures !Feasible(s, p, level, k)
        {
          assert !IsSpace(s[q + w]);
        }
      } else {
        match LastNonNewline(s, q + 1, q + w)
        case None =>
          forall k | 1 <= k && q + k < |s|
            ensures !Feasible(s, p, level, k)
          {
            assert s[q + k] == '\n';
          }
        case Some(j) =>
          assert Feasible(s, p, level, j - q);
          forall k | j - q < k && q + k < |s|
            ensures !Feasible(s, p, level, k)
          {
            assert s[q + k] == '\n';
          }
      }
    }
  }

  /**
   * A match needs the hashes and then whitespace right after them, so a
   * `##` line never matches the one-hash pattern.
   */
  lemma HeadingAtNeedsSpace(s: string, p: nat, level: nat)
    requires p <= |s|
    ensures HeadingAt(s, p, level).Some? ==> HashesAt(s, p, level) && p + level < |s| && IsSpace(s[p + level])
  {
  }

  /** A match: where it starts and where its capture lies. */
  datatype Found = Found(pos: nat, cap: Span)

  /** `re.search` with the heading pattern from `from` on: the leftmost match. */
  function SearchHeading(s: string, level: nat, from: nat): (r: Option<Found>)
    requires from <= |s|
    ensures r.Some? ==> from <= r.value.pos <= |s| && HeadingAt(s, r.value.pos, level) == Some(r.value.cap)
    decreases |s| - from
  {
    var h := HeadingAt(s, from, level);
    if h.Some? then Some(Found(from, h.value))
    else if from == |s| then None
    else SearchHeading(s, level, from + 1)
  }

  /** The search finds the leftmost match, and finds none only when there is none. */
  lemma {:induction false} SearchHeadingIsLeftmost(s: string, level: nat, from: nat)
    requires from <= |s|
    ensures var r := SearchHeading(s, level, from);
      && (r.Some? ==> forall p :: from <= p < r.value.pos ==> HeadingAt(s, p, level).None?)
      && (r.None? ==> forall p :: from <= p <= |s| ==> HeadingAt(s, p, level).None?)
    decreases |s| - from
  {
    var r := SearchHeading(s, level, from);
    if HeadingAt(s, from, level).None? {
      if from < |s| {
        var r' := SearchHeading(s, level, from + 1);
        SearchHeadingIsLeftmost(s, level, from + 1);
        assert r == r';
        if r.Some? {
          forall p | from <= p < r.value.pos
            ensures HeadingAt(s, p, level).None?
          {
            if p > from {
              assert from + 1 <= p < r'.value.pos;
            }
          }
        }
      } else {
        assert r.None?;
      }
    } else {
      assert r.value.pos == from;
    }
  }

  /** The text of a capture: non-empty and on one line. */
  function Captured(s: string, f: Found): (c: string)
    requires f.cap.start < f.cap.end <= |s| && f.cap.end == LineEnd(s, f.cap.start)
    ensures |c| > 0 && '\n' !in c
  {
    s[f.cap.start..f.cap.end]
  }

  /**
   * `re.findall` with the heading pattern from `from` on: every capture, in
   * order, each search resuming where the previous match ended.
   */
  function FindAllHeadings(s: string, level: nat, from: nat): (r: seq<string>)
    requires from <= |s|
    ensures forall k :: 0 <= k < |r| ==> |r[k]| > 0 && '\n' !in r[k]
    ensures |r| > 0 <==> SearchHeading(s, level, from).Some?
    ensures |r| > 0 ==> r[0] == Captured(s, SearchHeading(s, level, from).value)
    decreases |s| - from
  {
    var m := SearchHeading(s, level, from);
    if m.None? then []
    else
      var f := m.value;
      assert HeadingAt(s, f.pos, level) == Some(f.cap);
      var c := Captured(s, f);
      [c] + FindAllHeadings(s, level, f.cap.end)
  }

  // ---------------------------------------------------------------------------
  // `^#+\s`

  /** The number of consecutive `#` characters starting at `i`. */
  function HashRun(s: string, i: nat): (n: nat)
    requires i <= |s|
    ensures i + n <= |s|
    ensures forall k :: i <= k < i + n ==> s[k] == '#'
    ensures i + n < |s| ==> s[i + n] != '#'
    decreases |s| - i
  {
    if i < |s| && s[i] == '#' then 1 + HashRun(s, i + 1) else 0
  }

  /**
   * `^#+\s` matches at `p`: a line starting with one or more hashes followed
   * by whitespace. Backtracking cannot help, since `#` is not whitespace.
   */
  predicate HashHeadingAt(s: string, p: nat)
    requires p <= |s|
  {
    IsLineStart(s, p) && 0 < HashRun(s, p) && p + HashRun(s, p) < |s| && IsSpace(s[p + HashRun(s, p)])
  }

  /** The number of `^#+\s` matches at or after `from`, each search resuming after the previous match, as `re.findall` counts them. */
  function CountHashHeadings(s: string, from: nat): (n: nat)
    requires from <= |s|
    ensures n == 0 <==> forall p :: from <= p < |s| ==> !HashHeadingAt(s, p)
    decreases |s| - from
  {
    if from == |s| then 0
    else if HashHeadingAt(s, from) then
      var next := from + HashRun(s, from) + 1;
      assert forall p :: from < p < next ==> !IsLineStart(s, p);
      1 + CountHashHeadings(s, next)
    else
      CountHashHeadings(s, from + 1)
  }

  /** The number of positions at or after `from` where `^#+\s` matches, counted one position at a time. */
  function HashHeadingPositions(s: string, from: nat): nat
    requires from <= |s|
    decreases |s| - from
  {
    if from == |s| then 0
    else (if HashHeadingAt(s, from) then 1 else 0) + HashHeadingPositions(s, from + 1)
  }

  /** Skipping positions where nothing matches leaves the position count unchanged. */
  lemma {:induction false} PositionsSkipNonMatches(s: string, a: nat, b: nat)
    requires a <= b <= |s|
    requires forall p :: a <= p < b ==> !HashHeadingAt(s, p)
    ensures HashHeadingPositions(s, a) == HashHeadingPositions(s, b)
    decreases b - a
  {
    if a < b {
      PositionsSkipNonMatches(s, a + 1, b);
    }
  }

  /** The positions a match covers after its first follow a `#`, so none of them starts a line. */
  lemma NoMatchInsideMatch(s: string, from: nat)
    requires from <= |s| && HashHeadingAt(s, from)
    ensures forall p :: from < p < from + HashRun(s, from) + 1 ==> !HashHeadingAt(s, p)
  {
    forall p | from < p < from + HashRun(s, from) + 1
      ensures !HashHeadingAt(s, p)
    {
      assert s[p - 1] == '#';
    }
  }

  /**
   * No match can start inside another, since the positions a match covers
   * after its first follow a `#`. So the `re.findall` count is exactly the
   * number of positions where the pattern matches.
   */
  lemma {:induction false} CountHashHeadingsCountsPositions(s: string, from: nat)
    requires from <= |s|
    ensures CountHashHeadings(s, from) == HashHeadingPositions(s, from)
    decreases |s| - from
  {
    if from < |s| {
      if HashHeadingAt(s, from) {
        var next := from + HashRun(s, from) + 1;
        NoMatchInsideMatch(s, from);
        PositionsSkipNonMatches(s, from + 1, next);
        CountHashHeadingsCountsPositions(s, next);
        assert CountHashHeadings(s, from) == 1 + CountHashHeadings(s, next);
        assert HashHeadingPositions(s, from) == 1 + HashHeadingPositions(s, from + 1);
      } else {
        CountHashHeadingsCountsPositions(s, from + 1);
      }
    }
  }
}

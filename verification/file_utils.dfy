/**
 * `clean_filename` from master_agent/utils/file_utils.py: turns a title into
 * a file-name-safe string.
 */
module FileUtils {
  import opened Text

  /** The `max_length` default. */
  const DefaultMaxLength: int := 50

  /** Characters the class `[\w\s-]` matches; `re.sub(r'[^\w\s-]', '', ...)` keeps exactly these. */
  predicate Kept(c: char) {
    IsWord(c) || IsSpace(c) || c == '-'
  }

  /**
   * `re.sub(r'[^\w\s-]', '', s)`: the kept characters of `s`, each as often
   * as in `s`, in their original order.
   */
  function RemoveSpecial(s: string): (r: string)
    ensures forall i :: 0 <= i < |r| ==> Kept(r[i])
    ensures IsSubsequence(r, s)
    ensures forall c :: Kept(c) ==> multiset(r)[c] == multiset(s)[c]
    decreases |s|
  {
    if |s| == 0 then []
    else
      assert s == [s[0]] + s[1..];
      var rest := RemoveSpecial(s[1..]);
      if Kept(s[0]) then
        assert ([s[0]] + rest)[1..] == rest;
        [s[0]] + rest
      else
        rest
  }

  /** Python's `s.replace(' ', '_')`. */
  function Underscore(s: string): string {
    ReplaceAll(s, " ", "_")
  }

  /** After `replace(' ', '_')` no space is left. */
  lemma UnderscoreRemovesSpaces(s: string)
    ensures ' ' !in Underscore(s)
  {
    ReplaceChar(s, ' ', '_');
    var u := Underscore(s);
    assert forall i :: 0 <= i < |u| ==> u[i] != ' ';
  }

  /** The string `clean_filename` truncates: filtered, stripped, spaces turned into underscores. */
  function Sanitized(text: string): string {
    Underscore(Strip(RemoveSpecial(text)))
  }

  /** The characters a cleaned file name may contain. */
  predicate SafeChar(c: char) {
    IsWord(c) || c == '-' || (IsSpace(c) && c != ' ')
  }

  /** Every character of the sanitized text is safe. */
  lemma SanitizedIsSafe(text: string)
    ensures forall i :: 0 <= i < |Sanitized(text)| ==> SafeChar(Sanitized(text)[i])
  {
    var filtered := RemoveSpecial(text);
    var stripped := Strip(filtered);
    var a := LeadingSpaces(filtered);
    forall i | 0 <= i < |stripped|
      ensures Kept(stripped[i])
    {
      assert stripped[i] == filtered[a + i];
    }
    ReplaceChar(stripped, ' ', '_');
    forall i | 0 <= i < |Sanitized(text)|
      ensures SafeChar(Sanitized(text)[i])
    {
      var c := stripped[i];
      assert Sanitized(text)[i] == if c == ' ' then '_' else c;
    }
  }

  /**
   * `clean_filename(text, max_length)`: at most `max_length` characters, no
   * space, only word characters, `-` and other whitespace; a prefix of the
   * sanitized text, and all of it when that is short enough.
   */
  function CleanFilename(text: string, maxLength: int): (r: string)
    ensures 0 <= maxLength ==> |r| == (if |Sanitized(text)| <= maxLength then |Sanitized(text)| else maxLength)
    ensures maxLength < 0 ==> |r| == (if -maxLength < |Sanitized(text)| then |Sanitized(text)| + maxLength else 0)
    ensures ' ' !in r
    ensures forall i :: 0 <= i < |r| ==> SafeChar(r[i])
    ensures r <= Sanitized(text)
    ensures 0 <= maxLength && |Sanitized(text)| <= maxLength ==> r == Sanitized(text)
  {
    var full := Sanitized(text);
    SanitizedIsSafe(text);
    var r := PyPrefix(full, maxLength);
    forall i | 0 <= i < |r|
      ensures SafeChar(r[i]) && r[i] != ' '
    {
      assert r[i] == full[i];
    }
    r
  }

  lemma UnderscoreCons(s: string)
    requires |s| > 0
    ensures Underscore(s) == [if s[0] == ' ' then '_' else s[0]] + Underscore(s[1..])
  {
    assert s[..1] == " " <==> s[0] == ' ';
    assert s[|" "|..] == s[1..];
  }

  /** Turning spaces into underscores keeps one string a subsequence of another. */
  lemma {:induction false} UnderscorePreservesSubsequence(a: string, b: string)
    requires IsSubsequence(a, b)
    ensures IsSubsequence(Underscore(a), Underscore(b))
    decreases |b|
  {
    if |a| > 0 {
      UnderscoreCons(a);
      UnderscoreCons(b);
      var ua, ub := Underscore(a), Underscore(b);
      assert ua[1..] == Underscore(a[1..]);
      assert ub[1..] == Underscore(b[1..]);
      if a[0] == b[0] && IsSubsequence(a[1..], b[1..]) {
        UnderscorePreservesSubsequence(a[1..], b[1..]);
      } else {
        UnderscorePreservesSubsequence(a, b[1..]);
      }
    }
  }

  /** The sanitized text keeps the input's characters in order. */
  lemma SanitizedKeepsOrder(text: string)
    ensures IsSubsequence(Sanitized(text), Underscore(text))
  {
    var filtered := RemoveSpecial(text);
    var stripped := Strip(filtered);
    StripKeepsOrder(filtered);
    SubsequenceTrans(stripped, filtered, text);
    UnderscorePreservesSubsequence(stripped, text);
  }

  /**
   * The characters `clean_filename` keeps appear in the order they had in
   * the input (with each space already turned into an underscore).
   */
  lemma CleanFilenameKeepsOrder(text: string, maxLength: int)
    ensures IsSubsequence(CleanFilename(text, maxLength), Underscore(text))
  {
    var r := CleanFilename(text, maxLength);
    SanitizedKeepsOrder(text);
    PrefixIsSubsequence(r, Sanitized(text));
    SubsequenceTrans(r, Sanitized(text), Underscore(text));
  }

  lemma {:induction false} RemoveSpecialKeepsSafe(s: string)
    requires forall i :: 0 <= i < |s| ==> Kept(s[i])
    ensures RemoveSpecial(s) == s
    decreases |s|
  {
    if |s| > 0 {
      RemoveSpecialKeepsSafe(s[1..]);
    }
  }

  lemma StripKeepsTrimmed(s: string)
    requires s == [] || (!IsSpace(s[0]) && !IsSpace(s[|s| - 1]))
    ensures Strip(s) == s
  {
    if |s| > 0 {
      assert LeadingSpaces(s) == 0;
      assert TrailingSpaces(s) == 0;
    }
  }

  lemma UnderscoreKeepsSpaceless(s: string)
    requires ' ' !in s
    ensures Underscore(s) == s
  {
    ReplaceChar(s, ' ', '_');
  }

  /** The sanitized form of a name made only of word characters and `-` is the name itself. */
  lemma SanitizedKeepsSafeNames(text: string)
    requires forall i :: 0 <= i < |text| ==> IsWord(text[i]) || text[i] == '-'
    ensures Sanitized(text) == text
  {
    assert forall i :: 0 <= i < |text| ==> Kept(text[i]) && !IsSpace(text[i]) && text[i] != ' ';
    RemoveSpecialKeepsSafe(text);
    assert RemoveSpecial(text) == text;
    StripKeepsTrimmed(text);
    assert Strip(text) == text;
    UnderscoreKeepsSpaceless(text);
  }

  /** A name made only of word characters and `-` that fits is returned unchanged. */
  lemma CleanFilenameKeepsSafeNames(text: string, maxLength: int)
    requires forall i :: 0 <= i < |text| ==> IsWord(text[i]) || text[i] == '-'
    requires |text| <= maxLength
    ensures CleanFilename(text, maxLength) == text
  {
    SanitizedKeepsSafeNames(text);
  }
}

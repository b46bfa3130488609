/**
 * Title extraction: the first match of the case-insensitive pattern
 * `<title>(.*?)</title>`, whose lazy group cannot cross a line terminator;
 * "No Title" when nothing matches.
 */
module TitleExtractor {
  import opened Wrappers
  import opened Strings

  const OpenTag := "<title>"
  const CloseTag := "</title>"
  const NoTitle := "No Title"

  /** The characters JavaScript's `.` does not match. */
  predicate IsLineTerminator(c: char) {
    c == '\n' || c == '\r' || c == '\U{2028}' || c == '\U{2029}'
  }

  /** The lower-case literal `lit` occurs at `i` when ASCII case is ignored. */
  predicate StartsAtIgnoreCase(s: string, lit: string, i: nat) {
    i + |lit| <= |s| && Lower(s[i..i + |lit|]) == lit
  }

  /**
   * The lazy group scanning from `j`: the first position at which the closing
   * tag begins, provided no line terminator is crossed on the way.
   */
  function LazyClose(html: string, j: nat): (r: Option<nat>)
    requires j <= |html|
    ensures r.Some? ==> j <= r.value && StartsAtIgnoreCase(html, CloseTag, r.value)
    ensures r.Some? ==> forall k :: j <= k < r.value ==> !IsLineTerminator(html[k]) && !StartsAtIgnoreCase(html, CloseTag, k)
    decreases |html| - j
  {
    if StartsAtIgnoreCase(html, CloseTag, j) then Some(j)
    else if j == |html| || IsLineTerminator(html[j]) then None
    else LazyClose(html, j + 1)
  }

  /** The whole pattern matches starting at `i`. */
  predicate TitleAt(html: string, i: nat) {
    StartsAtIgnoreCase(html, OpenTag, i) && LazyClose(html, i + |OpenTag|).Some?
  }

  /** The leftmost start, at or after `i`, of a match of the pattern. */
  function FindTitle(html: string, i: nat): (r: Option<nat>)
    requires i <= |html|
    ensures r.Some? ==> i <= r.value && TitleAt(html, r.value)
    ensures forall k :: i <= k && (r.None? || k < r.value) ==> !TitleAt(html, k)
    decreases |html| - i
  {
    if TitleAt(html, i) then Some(i)
    else if i == |html| then None
    else FindTitle(html, i + 1)
  }

  /** `html.match(/<title>(.*?)<\/title>/i)?.[1] ?? 'No Title'`. */
  function ExtractTitle(html: string): string {
    match FindTitle(html, 0)
    case None => NoTitle
    case Some(i) => html[i + |OpenTag|..LazyClose(html, i + |OpenTag|).value]
  }

  lemma LowerAppend(a: string, b: string)
    ensures Lower(a + b) == Lower(a) + Lower(b)
  {
  }

  /** With no match anywhere the title is "No Title". */
  lemma NoMatchNoTitle(html: string)
    requires forall k :: 0 <= k <= |html| ==> !TitleAt(html, k)
    ensures ExtractTitle(html) == NoTitle
  {
  }

  /** The leftmost match starting at `i` is the one `FindTitle` reports. */
  lemma LeftmostFound(html: string, i: nat)
    requires i <= |html| && TitleAt(html, i)
    requires forall k :: 0 <= k < i ==> !TitleAt(html, k)
    ensures FindTitle(html, 0) == Some(i)
  {
  }

  /** The text between the tags of a match at `i` whose closing tag is at `close`. */
  lemma MatchShape(html: string, i: nat, close: nat)
    requires i + 7 <= close && close + 8 <= |html|
    requires StartsAtIgnoreCase(html, OpenTag, i) && StartsAtIgnoreCase(html, CloseTag, close)
    ensures Lower(html[i..close + 8]) == OpenTag + Lower(html[i + 7..close]) + CloseTag
  {
    var t := html[i + 7..close];
    assert html[i..close + 8] == html[i..i + 7] + t + html[close..close + 8];
    LowerAppend(html[i..i + 7] + t, html[close..close + 8]);
    LowerAppend(html[i..i + 7], t);
  }

  /**
   * What the extracted title is when the leftmost match starts at `i`: the
   * text between the tags of that match, which holds no line terminator and
   * no closing tag (the group is lazy), with tags that read `<title>` and
   * `</title>` in any case.
   */
  lemma ExtractTitleMeaning(html: string, i: nat)
    requires i <= |html| && TitleAt(html, i)
    requires forall k :: 0 <= k < i ==> !TitleAt(html, k)
    ensures var t := ExtractTitle(html);
      i + 7 + |t| + 8 <= |html|
      && html[i + 7..i + 7 + |t|] == t
      && Lower(html[i..i + 7 + |t| + 8]) == OpenTag + Lower(t) + CloseTag
      && (forall k :: 0 <= k < |t| ==> !IsLineTerminator(t[k]))
      && (forall k :: i + 7 <= k < i + 7 + |t| ==> !StartsAtIgnoreCase(html, CloseTag, k))
  {
    LeftmostFound(html, i);
    var close := LazyClose(html, i + 7).value;
    var t := html[i + 7..close];
    assert ExtractTitle(html) == t;
    assert |t| == close - (i + 7);
    MatchShape(html, i, close);
    forall k | 0 <= k < |t| ensures !IsLineTerminator(t[k]) {
      assert t[k] == html[i + 7 + k];
    }
  }
}

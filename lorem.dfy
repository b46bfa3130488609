/**
 * The lorem-ipsum scanner: the page body is split at every "\n", and each
 * line is searched from left to right for non-overlapping, ASCII
 * case-insensitive occurrences of "lorem ipsum".  Every occurrence becomes a
 * snippet holding the text before it, the occurrence as written, the text
 * after it and the 1-based line number.
 */
module LoremScanner {
  import opened Wrappers
  import opened Strings
  import opened Types

  const Phrase := "lorem ipsum"

  /** The phrase occurs at offset `k` of the line, ignoring ASCII case. */
  predicate LoremAt(line: string, k: nat) {
    k + |Phrase| <= |line| && LowerEq(line[k..k + |Phrase|], Phrase)
  }

  /** The first occurrence at or after `pos`. */
  function NextLorem(line: string, pos: nat): (r: Option<nat>)
    requires pos <= |line|
    ensures r.Some? ==> pos <= r.value && r.value + |Phrase| <= |line|
    decreases |line| - pos
  {
    if LoremAt(line, pos) then Some(pos)
    else if pos + |Phrase| >= |line| then None
    else NextLorem(line, pos + 1)
  }

  /** `NextLorem` finds the leftmost occurrence at or after `pos`, and `None` means there is none. */
  lemma {:induction false} NextLoremMeaning(line: string, pos: nat)
    requires pos <= |line|
    ensures var r := NextLorem(line, pos);
      (r.Some? ==> LoremAt(line, r.value))
      && forall j :: pos <= j && (r.None? || j < r.value) ==> !LoremAt(line, j)
    decreases |line| - pos
  {
    if !LoremAt(line, pos) && pos + |Phrase| < |line| {
      NextLoremMeaning(line, pos + 1);
    }
  }

  /** The snippet for the occurrence at offset `k` of line number `lineNumber`. */
  function SnippetAt(line: string, k: nat, lineNumber: int): LoremSnippet
    requires k + |Phrase| <= |line|
  {
    LoremSnippet(line[..k], line[k..k + |Phrase|], line[k + |Phrase|..], lineNumber)
  }

  /** The snippets of one line, for the scan resumed at `pos`. */
  function LineSnippets(line: string, lineNumber: int, pos: nat): seq<LoremSnippet>
    requires pos <= |line|
    decreases |line| - pos
  {
    match NextLorem(line, pos)
    case None => []
    case Some(k) => [SnippetAt(line, k, lineNumber)] + LineSnippets(line, lineNumber, k + |Phrase|)
  }

  /** The snippets of the first `n` lines, in line order. */
  function LinesSnippets(lines: seq<string>, n: nat): seq<LoremSnippet>
    requires n <= |lines|
  {
    if n == 0 then [] else LinesSnippets(lines, n - 1) + LineSnippets(lines[n - 1], n, 0)
  }

  /** Every snippet of a page body, in document order. */
  function Snippets(html: string): seq<LoremSnippet> {
    var lines := Split(html, '\n');
    LinesSnippets(lines, |lines|)
  }

  /** Resuming at `pos`, the first snippet is the match `NextLorem` finds. */
  lemma LineSnippetsStep(line: string, lineNumber: int, pos: nat, k: nat)
    requires pos <= |line| && NextLorem(line, pos) == Some(k)
    ensures LineSnippets(line, lineNumber, pos) == [SnippetAt(line, k, lineNumber)] + LineSnippets(line, lineNumber, k + |Phrase|)
  {
  }

  /** The matches of one line, one step per match, as the per-line callback does. */
  method ScanLine(line: string, lineNumber: int) returns (found: seq<LoremSnippet>)
    ensures found == LineSnippets(line, lineNumber, 0)
  {
    found := [];
    var pos := 0;
    var m := NextLorem(line, pos);
    while m.Some?
      invariant pos <= |line|
      invariant m == NextLorem(line, pos)
      invariant found + LineSnippets(line, lineNumber, pos) == LineSnippets(line, lineNumber, 0)
      decreases |line| - pos
    {
      var k := m.value;
      var snippet := SnippetAt(line, k, lineNumber);
      LineSnippetsStep(line, lineNumber, pos, k);
      ghost var rest := LineSnippets(line, lineNumber, k + |Phrase|);
      assert found + [snippet] + rest == found + ([snippet] + rest);
      found := found + [snippet];
      pos := k + |Phrase|;
      m := NextLorem(line, pos);
    }
    assert found + [] == found;
  }

  /**
   * The scan of a page body: one pass over the lines, counting the matches
   * of each.
   */
  method ScanLorem(html: string) returns (snippets: seq<LoremSnippet>, loremCount: nat)
    ensures snippets == Snippets(html)
    ensures loremCount == |snippets|
  {
    var lines := Split(html, '\n');
    snippets := [];
    loremCount := 0;
    var index := 0;
    while index < |lines|
      invariant 0 <= index <= |lines|
      invariant snippets == LinesSnippets(lines, index)
      invariant loremCount == |snippets|
    {
      var found := ScanLine(lines[index], index + 1);
      loremCount := loremCount + |found|;
      snippets := snippets + found;
      index := index + 1;
    }
  }

  /** The first letter of the phrase occurs in it only once, so two occurrences never overlap. */
  lemma NoSelfOverlap(line: string, k: nat, j: nat)
    requires LoremAt(line, k) && k < j < k + |Phrase|
    ensures !LoremAt(line, j)
  {
    LowerEqMeaning(line[k..k + |Phrase|], Phrase);
    assert LowerChar(line[j]) == Phrase[j - k] by {
      assert Lower(line[k..k + |Phrase|])[j - k] == LowerChar(line[j]);
    }
  }

  /** The offsets at which the scan of a line resumed at `pos` finds the phrase. */
  function Offsets(line: string, pos: nat): (r: seq<nat>)
    requires pos <= |line|
    ensures forall i :: 0 <= i < |r| ==> pos <= r[i] && r[i] + |Phrase| <= |line|
    decreases |line| - pos
  {
    match NextLorem(line, pos)
    case None => []
    case Some(k) => [k] + Offsets(line, k + |Phrase|)
  }

  /** The snippets of a line are those at its offsets, in order. */
  lemma {:induction false} SnippetsAtOffsets(line: string, lineNumber: int, pos: nat)
    requires pos <= |line|
    ensures var r := LineSnippets(line, lineNumber, pos);
      var o := Offsets(line, pos);
      |r| == |o| && forall i :: 0 <= i < |r| ==> r[i] == SnippetAt(line, o[i], lineNumber)
    decreases |line| - pos
  {
    match NextLorem(line, pos)
    case None =>
    case Some(k) =>
      SnippetsAtOffsets(line, lineNumber, k + |Phrase|);
  }

  /** Each offset is at least a phrase's length past the one before. */
  predicate Increasing(o: seq<nat>) {
    forall i, j :: 0 <= i < j < |o| ==> o[i] + |Phrase| <= o[j]
  }

  /** The offsets come in increasing order, each at least a phrase's length past the one before. */
  lemma {:induction false} OffsetsIncreasing(line: string, pos: nat)
    requires pos <= |line|
    ensures Increasing(Offsets(line, pos))
    decreases |line| - pos
  {
    match NextLorem(line, pos)
    case None =>
    case Some(k) =>
      OffsetsIncreasing(line, k + |Phrase|);
      var rest := Offsets(line, k + |Phrase|);
      var o := Offsets(line, pos);
      assert o == [k] + rest;
      forall i, j | 0 <= i < j < |o| ensures o[i] + |Phrase| <= o[j] {
        assert o[j] == rest[j - 1];
        if i > 0 {
          assert o[i] == rest[i - 1];
          assert rest[i - 1] + |Phrase| <= rest[j - 1];
        } else {
          assert o[0] == k;
          assert k + |Phrase| <= rest[j - 1];
        }
      }
  }

  /**
   * Since occurrences cannot overlap, the left-to-right scan finds every one
   * of them: the offsets are exactly the occurrences at or after `pos`.
   */
  lemma {:induction false} OffsetsComplete(line: string, pos: nat)
    requires pos <= |line|
    ensures forall k :: k in Offsets(line, pos) <==> pos <= k && LoremAt(line, k)
    decreases |line| - pos
  {
    NextLoremMeaning(line, pos);
    match NextLorem(line, pos)
    case None =>
    case Some(k) =>
      OffsetsComplete(line, k + |Phrase|);
      var rest := Offsets(line, k + |Phrase|);
      assert Offsets(line, pos) == [k] + rest;
      forall j | k < j < k + |Phrase| ensures !LoremAt(line, j) {
        NoSelfOverlap(line, k, j);
      }
  }

  /**
   * How many times the scanner reports the phrase in a line, and where:
   * exactly once per occurrence, in increasing order of position.
   */
  lemma LineSnippetsComplete(line: string, lineNumber: int)
    ensures var r := LineSnippets(line, lineNumber, 0);
      var o := Offsets(line, 0);
      |r| == |o|
      && (forall i :: 0 <= i < |r| ==> |r[i].contextBefore| == o[i])
      && (forall k :: k in o <==> LoremAt(line, k))
      && Increasing(o)
  {
    SnippetsAtOffsets(line, lineNumber, 0);
    OffsetsIncreasing(line, 0);
    OffsetsComplete(line, 0);
  }

  /** The snippet reassembles the line around an occurrence of the phrase, kept as written. */
  predicate Fits(line: string, s: LoremSnippet) {
    line == s.contextBefore + s.loremText + s.contextAfter
    && LoremAt(line, |s.contextBefore|)
    && Lower(s.loremText) == Phrase
  }

  lemma SnippetAtFits(line: string, k: nat, lineNumber: int)
    requires LoremAt(line, k)
    ensures Fits(line, SnippetAt(line, k, lineNumber))
  {
    LowerEqMeaning(line[k..k + |Phrase|], Phrase);
    assert line == line[..k] + line[k..k + |Phrase|] + line[k + |Phrase|..];
  }

  /** Every snippet of a line reassembles the line around an occurrence of the phrase. */
  lemma LineSnippetsShape(line: string, lineNumber: int)
    ensures forall s :: s in LineSnippets(line, lineNumber, 0) ==> s.lineNumber == lineNumber && Fits(line, s)
  {
    var r := LineSnippets(line, lineNumber, 0);
    var o := Offsets(line, 0);
    SnippetsAtOffsets(line, lineNumber, 0);
    OffsetsComplete(line, 0);
    forall s | s in r ensures s.lineNumber == lineNumber && Fits(line, s) {
      var i :| 0 <= i < |r| && r[i] == s;
      assert o[i] in o;
      SnippetAtFits(line, o[i], lineNumber);
    }
  }

  /** Every snippet of a page comes from a line of the body, at an occurrence of the phrase. */
  lemma SnippetsShape(html: string)
    ensures var lines := Split(html, '\n');
      forall s :: s in Snippets(html) ==> 1 <= s.lineNumber <= |lines| && Fits(lines[s.lineNumber - 1], s)
  {
    var lines := Split(html, '\n');
    LinesShape(lines, |lines|);
  }

  lemma {:induction false} LinesShape(lines: seq<string>, n: nat)
    requires n <= |lines|
    ensures forall s :: s in LinesSnippets(lines, n) ==> 1 <= s.lineNumber <= n && Fits(lines[s.lineNumber - 1], s)
  {
    if n > 0 {
      LinesShape(lines, n - 1);
      LineSnippetsShape(lines[n - 1], n);
    }
  }

  /** A page whose body holds no occurrence of the phrase has no snippets, and so is clean. */
  lemma {:induction false} NoPhraseNoSnippets(html: string)
    requires forall line, k :: line in Split(html, '\n') && 0 <= k <= |line| ==> !LoremAt(line, k)
    ensures Snippets(html) == []
  {
    var lines := Split(html, '\n');
    NoneInLines(lines, |lines|);
  }

  lemma {:induction false} NoneInLines(lines: seq<string>, n: nat)
    requires n <= |lines|
    requires forall line, k :: line in lines && 0 <= k <= |line| ==> !LoremAt(line, k)
    ensures LinesSnippets(lines, n) == []
  {
    if n > 0 {
      NoneInLines(lines, n - 1);
      assert lines[n - 1] in lines;
      NextLoremMeaning(lines[n - 1], 0);
    }
  }
}

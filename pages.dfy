/**
 * The page results the crawl records: a successful page carries its title,
 * its lorem snippets and their count; a page whose fetch or link scan threw
 * is recorded as an error page instead.  Pages are numbered from 1 in the
 * order they are recorded.
 */
module PageBuilder {
  import opened Wrappers
  import opened Strings
  import opened Types
  import opened TitleExtractor
  import opened LoremScanner

  const ErrorTitle := "Error Fetching Page"
  const IdPrefix := "page_"

  /** The id of the n-th recorded page. */
  function PageId(n: nat): string {
    IdPrefix + NatToString(n)
  }

  /** Distinct page numbers give distinct ids. */
  lemma PageIdInjective(m: nat, n: nat)
    requires PageId(m) == PageId(n)
    ensures m == n
  {
    assert NatToString(m) == PageId(m)[|IdPrefix|..];
    assert NatToString(n) == PageId(n)[|IdPrefix|..];
    NatToStringInjective(m, n);
  }

  /** `response.ok`: a status in the range 200 to 299. */
  predicate IsOk(status: nat) {
    200 <= status <= 299
  }

  /** The message of the error thrown for a response that is not ok. */
  function HttpErrorMessage(status: nat): string {
    "HTTP error! status: " + NatToString(status)
  }

  /** Only the text/html test decides whether a body is scanned; a missing header counts as empty. */
  predicate IsHtml(contentType: Option<string>) {
    Contains(contentType.GetOr(""), "text/html")
  }

  /** A successful page is `lorem` when the phrase was found at least once and `clean` otherwise. */
  function StatusOf(loremCount: int): (s: Status)
    ensures s != Error
    ensures s == Lorem <==> loremCount > 0
  {
    if loremCount > 0 then Lorem else Clean
  }

  /** The result recorded for the n-th page when its body was read and scanned. */
  function SuccessPage(n: nat, url: string, html: string, timestamp: string): (p: PageResult)
    ensures WellFormedPage(p) && p.status != Error && p.error.None?
    ensures p.id == PageId(n) && p.url == url
  {
    var snippets := Snippets(html);
    PageResult(PageId(n), url, StatusOf(|snippets|), |snippets|, snippets, timestamp, ExtractTitle(html), None)
  }

  /** The result recorded for the n-th page when fetching or scanning it threw `message`. */
  function ErrorPage(n: nat, url: string, timestamp: string, message: string): (p: PageResult)
    ensures WellFormedPage(p)
    ensures p.status == Error && p.error == Some(message)
    ensures p.id == PageId(n) && p.url == url
  {
    PageResult(PageId(n), url, Error, 0, [], timestamp, ErrorTitle, Some(message))
  }

  /**
   * The relations between a page's fields that the crawler maintains: an
   * error page, and only an error page, carries an error message, and has no
   * snippets and the fixed title; any other page counts its snippets and is
   * `lorem` exactly when it has some.
   */
  predicate WellFormedPage(p: PageResult) {
    (p.status == Error <==> p.error.Some?)
    && (p.status == Error ==> p.loremCount == 0 && p.snippets == [] && p.title == ErrorTitle)
    && (p.status != Error ==> p.loremCount == |p.snippets| && (p.status == Lorem <==> p.loremCount > 0))
  }

  /**
   * A successful page is `lorem` exactly when it has snippets, each of which
   * reassembles a line of the body around an occurrence of the phrase, and
   * its title is the extracted one.
   */
  lemma SuccessPageMeaning(n: nat, url: string, html: string, timestamp: string)
    ensures var p := SuccessPage(n, url, html, timestamp);
      var lines := Split(html, '\n');
      p.title == ExtractTitle(html)
      && (p.status == Lorem <==> p.snippets != [])
      && forall s :: s in p.snippets ==> 1 <= s.lineNumber <= |lines| && Fits(lines[s.lineNumber - 1], s)
  {
    SnippetsShape(html);
  }

  /** The page builder: title extraction, then the line-by-line scan. */
  method BuildPage(n: nat, url: string, html: string, timestamp: string) returns (page: PageResult)
    ensures page == SuccessPage(n, url, html, timestamp)
  {
    var title := ExtractTitle(html);
    var snippets, loremCount := ScanLorem(html);
    page := PageResult(PageId(n), url, if loremCount > 0 then Lorem else Clean, loremCount, snippets, timestamp, title, None);
  }
}

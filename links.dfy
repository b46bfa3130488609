/**
 * The link scanner: the global pattern `href="([^"]+)"` is run over the page
 * body from left to right, each match resuming where the previous one
 * ended.  Every captured value is resolved against the page URL and, when
 * admitted, pushed onto the crawl queue one level deeper.  A malformed
 * exclusion pattern stops the scan; what was pushed before stays pushed.
 */
module LinkScanner {
  import opened Wrappers
  import opened Strings
  import opened Types
  import opened Environment
  import opened CrawlScope

  /** A queue entry: a URL and its link distance from the start URL. */
  datatype Item = Item(url: string, depth: nat)

  const HrefOpen := "href=\""

  /** One match of the link pattern: where it starts, the captured value and where it ends. */
  datatype HrefMatch = HrefMatch(start: nat, value: string, end: nat)

  /** The first `"` at or after `j`, or `|html|` when there is none. */
  function QuoteFrom(html: string, j: nat): (q: nat)
    requires j <= |html|
    ensures j <= q <= |html|
    ensures q < |html| ==> html[q] == '"'
    ensures forall k :: j <= k < q ==> html[k] != '"'
    decreases |html| - j
  {
    if j == |html| || html[j] == '"' then j else QuoteFrom(html, j + 1)
  }

  /**
   * The match of the pattern starting exactly at `p`, if any: `href="`, then
   * one or more characters other than `"`, then `"`.
   */
  function HrefMatchAt(html: string, p: nat): (r: Option<HrefMatch>)
    ensures r.Some? ==> r.value.start == p < r.value.end <= |html|
  {
    if StartsAt(html, HrefOpen, p) then
      var q := QuoteFrom(html, p + |HrefOpen|);
      if p + |HrefOpen| < q < |html| then
        var value := html[p + |HrefOpen|..q];
        Some(HrefMatch(p, value, q + 1))
      else None
    else None
  }

  /**
   * A match at `p` reads `href="`, the captured value, `"`, and the value is
   * not empty and holds no `"`.
   */
  lemma HrefMatchShape(html: string, p: nat)
    ensures var r := HrefMatchAt(html, p);
      r.Some? ==>
        |r.value.value| >= 1 && '"' !in r.value.value
        && r.value.end == p + |HrefOpen| + |r.value.value| + 1
        && html[p..r.value.end] == HrefOpen + r.value.value + "\""
  {
    var r := HrefMatchAt(html, p);
    if r.Some? {
      StartsAtMeaning(html, HrefOpen, p);
      var q := r.value.end - 1;
      var value := r.value.value;
      forall k | 0 <= k < |value| ensures value[k] != '"' {
        assert value[k] == html[p + |HrefOpen| + k];
      }
      assert html[p..q + 1] == html[p..p + |HrefOpen|] + value + [html[q]];
    }
  }

  /** Conversely, wherever `href="`, a non-empty value without `"`, and `"` can be read, that is the match. */
  lemma HrefMatchComplete(html: string, p: nat, v: string)
    requires |v| >= 1 && '"' !in v && p + |HrefOpen| + |v| + 1 <= |html|
    requires html[p..p + |HrefOpen| + |v| + 1] == HrefOpen + v + "\""
    ensures HrefMatchAt(html, p) == Some(HrefMatch(p, v, p + |HrefOpen| + |v| + 1))
  {
    var e := p + |HrefOpen| + |v| + 1;
    var w := html[p..e];
    StartsAtMeaning(html, HrefOpen, p);
    assert html[p..p + |HrefOpen|] == w[..|HrefOpen|] == HrefOpen;
    forall k | p + |HrefOpen| <= k < e - 1 ensures html[k] != '"' {
      assert html[k] == w[k - p] == v[k - p - |HrefOpen|];
    }
    assert html[e - 1] == w[e - 1 - p] == '"';
    assert QuoteFrom(html, p + |HrefOpen|) == e - 1;
    assert w[|HrefOpen|..|w| - 1] == v;
    assert html[p + |HrefOpen|..e - 1] == w[|HrefOpen|..|w| - 1];
  }

  /** The leftmost match starting at or after `pos` (`exec` with `lastIndex == pos`). */
  function NextHref(html: string, pos: nat): (r: Option<HrefMatch>)
    requires pos <= |html|
    ensures r.Some? ==> pos <= r.value.start < r.value.end <= |html|
    decreases |html| - pos
  {
    if HrefMatchAt(html, pos).Some? then HrefMatchAt(html, pos)
    else if pos == |html| then None
    else NextHref(html, pos + 1)
  }

  /** `NextHref` reports the match at the leftmost position where there is one. */
  lemma {:induction false} NextHrefMeaning(html: string, pos: nat)
    requires pos <= |html|
    ensures var r := NextHref(html, pos);
      (r.Some? ==> HrefMatchAt(html, r.value.start) == r)
      && forall p :: pos <= p && (r.None? || p < r.value.start) ==> HrefMatchAt(html, p).None?
    decreases |html| - pos
  {
    if HrefMatchAt(html, pos).None? && pos < |html| {
      NextHrefMeaning(html, pos + 1);
    }
  }

  /** Every value the pattern captures from `pos` on, in order. */
  function Hrefs(html: string, pos: nat): seq<string>
    requires pos <= |html|
    decreases |html| - pos
  {
    match NextHref(html, pos)
    case None => []
    case Some(m) => [m.value] + Hrefs(html, m.end)
  }

  /** What the scan of one page needs to know. */
  datatype LinkContext = LinkContext(
    env: Env, scope: Scope, startHostname: string, exclusions: seq<string>,
    visited: set<string>, base: string, depth: nat)

  /** The queue after the scan, and the message of the error that stopped it, if one did. */
  datatype LinkOutcome = LinkOutcome(queue: seq<Item>, failure: Option<string>)

  /** `href`, resolved against the page URL, is `url`, and its host is in scope. */
  predicate ResolvesInScope(c: LinkContext, href: string, url: string) {
    c.env.resolve(href, c.base).Some?
    && c.env.resolve(href, c.base).value.href == url
    && InScope(c.scope, c.env.resolve(href, c.base).value.hostname, c.startHostname)
  }

  /**
   * `url` may be queued from a page whose captured values are `hrefs`: it is
   * the in-scope resolution of one of them, unvisited, and passed by every
   * pattern.
   */
  predicate Admissible(c: LinkContext, hrefs: seq<string>, url: string) {
    (exists h :: h in hrefs && ResolvesInScope(c, h, url))
    && url !in c.visited
    && forall i :: 0 <= i < |c.exclusions| ==> Passes(c.env, c.exclusions[i], url)
  }

  /**
   * The scan over the captured values, with the queue as it stands: values
   * that do not resolve or are not admitted are skipped, admitted ones are
   * pushed, and a malformed pattern ends the scan with its message.
   */
  function ScanLinks(c: LinkContext, hrefs: seq<string>, queue: seq<Item>): LinkOutcome
    decreases |hrefs|
  {
    if hrefs == [] then LinkOutcome(queue, None)
    else
      match Admit(c.env, c.scope, c.startHostname, c.exclusions, c.visited, c.base, hrefs[0])
      case Failure(message) => LinkOutcome(queue, Some(message))
      case Success(None) => ScanLinks(c, hrefs[1..], queue)
      case Success(Some(url)) => ScanLinks(c, hrefs[1..], queue + [Item(url, c.depth + 1)])
  }

  /** The scan of a whole page body. */
  function PageLinks(c: LinkContext, html: string, queue: seq<Item>): LinkOutcome {
    ScanLinks(c, Hrefs(html, 0), queue)
  }

  /**
   * The scan only appends to the queue; every item it appends is one level
   * deeper than the page and is the in-scope resolution of a captured value,
   * unvisited and passed by every pattern; a single-page crawl appends
   * nothing and cannot fail.
   */
  lemma {:induction false} ScanLinksShape(c: LinkContext, hrefs: seq<string>, queue: seq<Item>)
    ensures var r := ScanLinks(c, hrefs, queue);
      |queue| <= |r.queue| && r.queue[..|queue|] == queue
      && (forall i :: |queue| <= i < |r.queue| ==> r.queue[i].depth == c.depth + 1 && Admissible(c, hrefs, r.queue[i].url))
      && (c.scope == Single ==> r == LinkOutcome(queue, None))
    decreases |hrefs|
  {
    if hrefs != [] {
      var admitted := Admit(c.env, c.scope, c.startHostname, c.exclusions, c.visited, c.base, hrefs[0]);
      AdmitMeaning(c.env, c.scope, c.startHostname, c.exclusions, c.visited, c.base, hrefs[0]);
      var q := if admitted.Success? && admitted.value.Some? then queue + [Item(admitted.value.value, c.depth + 1)] else queue;
      if admitted.Success? {
        ScanLinksShape(c, hrefs[1..], q);
        var r := ScanLinks(c, hrefs[1..], q);
        assert r.queue[..|queue|] == q[..|queue|];
        forall i | |queue| <= i < |r.queue| ensures Admissible(c, hrefs, r.queue[i].url) {
          if i < |q| {
            assert r.queue[i] == q[i] && ResolvesInScope(c, hrefs[0], r.queue[i].url);
          } else {
            assert Admissible(c, hrefs[1..], r.queue[i].url);
            var h :| h in hrefs[1..] && ResolvesInScope(c, h, r.queue[i].url);
            assert h in hrefs;
          }
        }
      }
    }
  }

  /**
   * The `exec` loop: one step per match, pushing admitted links onto the
   * queue; a malformed exclusion pattern ends the loop with its message.
   */
  method EnqueueLinks(c: LinkContext, html: string, queue: seq<Item>) returns (newQueue: seq<Item>, failure: Option<string>)
    ensures LinkOutcome(newQueue, failure) == PageLinks(c, html, queue)
  {
    newQueue := queue;
    failure := None;
    var pos := 0;
    var m := NextHref(html, pos);
    while m.Some?
      invariant pos <= |html|
      invariant m == NextHref(html, pos)
      invariant ScanLinks(c, Hrefs(html, pos), newQueue) == PageLinks(c, html, queue)
      decreases |html| - pos
    {
      var hrefs := Hrefs(html, pos);
      assert hrefs[0] == m.value.value && hrefs[1..] == Hrefs(html, m.value.end);
      var admitted := Admit(c.env, c.scope, c.startHostname, c.exclusions, c.visited, c.base, m.value.value);
      if admitted.Failure? {
        failure := Some(admitted.error);
        return;
      }
      if admitted.value.Some? {
        newQueue := newQueue + [Item(admitted.value.value, c.depth + 1)];
      }
      pos := m.value.end;
      m := NextHref(html, pos);
    }
  }

  /**
   * The scan never looks at the queue it appends to: it pushes the same
   * items whatever the queue already holds, so a URL queued twice (from two
   * pages, or twice from one) stays in the queue twice.
   */
  lemma {:induction false} QueueNotConsulted(c: LinkContext, hrefs: seq<string>, queue: seq<Item>)
    ensures ScanLinks(c, hrefs, queue).queue == queue + ScanLinks(c, hrefs, []).queue
    ensures ScanLinks(c, hrefs, queue).failure == ScanLinks(c, hrefs, []).failure
    decreases |hrefs|
  {
    if hrefs != [] {
      var admitted := Admit(c.env, c.scope, c.startHostname, c.exclusions, c.visited, c.base, hrefs[0]);
      if admitted.Success? && admitted.value.Some? {
        var item := Item(admitted.value.value, c.depth + 1);
        QueueNotConsulted(c, hrefs[1..], queue + [item]);
        QueueNotConsulted(c, hrefs[1..], [item]);
        assert [] + [item] == [item];
        var tail := ScanLinks(c, hrefs[1..], []).queue;
        assert queue + [item] + tail == queue + ([item] + tail);
      } else if admitted.Success? {
        QueueNotConsulted(c, hrefs[1..], queue);
      }
    }
  }

  /** The items pushed for one captured value when no pattern can throw. */
  function PushedOne(c: LinkContext, href: string): seq<Item> {
    match c.env.resolve(href, c.base)
    case Some(u) =>
      if InScope(c.scope, u.hostname, c.startHostname) && u.href !in c.visited
      then [Item(u.href, c.depth + 1)] else []
    case None => []
  }

  /** The items pushed for these captured values when no pattern can throw. */
  function Pushed(c: LinkContext, hrefs: seq<string>): seq<Item>
    decreases |hrefs|
  {
    if hrefs == [] then [] else PushedOne(c, hrefs[0]) + Pushed(c, hrefs[1..])
  }

  /**
   * With no exclusion patterns nothing can throw, and the links pushed are
   * exactly the captured values, in order, that resolve into scope and
   * have not been visited.
   */
  lemma {:induction false} ScanWithoutExclusions(c: LinkContext, hrefs: seq<string>)
    requires c.exclusions == []
    ensures ScanLinks(c, hrefs, []) == LinkOutcome(Pushed(c, hrefs), None)
    decreases |hrefs|
  {
    if hrefs != [] {
      ScanWithoutExclusions(c, hrefs[1..]);
      QueueNotConsulted(c, hrefs[1..], PushedOne(c, hrefs[0]));
      assert [] + PushedOne(c, hrefs[0]) == PushedOne(c, hrefs[0]);
    }
  }
}

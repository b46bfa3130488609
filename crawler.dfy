/**
 * The crawl engine: a first-in first-out queue of (URL, depth) items and a
 * set of visited URLs.  While the queue is not empty and fewer than
 * `maxPages` pages are recorded, the queue is optionally re-ranked by the
 * prioritiser, its head is taken off, skipped if already visited or too
 * deep, and otherwise marked visited, fetched, turned into a page result and,
 * when not yet at the depth limit, scanned for links to queue.
 *
 * `Crawl` states the loop as a function of its state; `CrawlWebsite` is the
 * loop itself, proved to end in the state `Crawl` describes.
 */
module Crawler {
  import opened Wrappers
  import opened Strings
  import opened Seqs
  import opened Types
  import opened Environment
  import opened CrawlScope
  import opened LinkScanner
  import opened PageBuilder
  import opened Summary

  /** What stays fixed during a crawl: the validated input, the outside world and the seed's host name. */
  datatype Ctx = Ctx(input: CrawlInput, env: Env, startHostname: string)

  /**
   * The loop's state: the queue, the visited set and the recorded pages, the
   * URLs fetched so far in fetch order, and the number of prioritiser calls.
   */
  datatype State = State(
    queue: seq<Item>,
    visited: set<string>,
    pages: seq<PageResult>,
    fetched: seq<string>,
    aiCalls: nat)

  /** The state before the first iteration: only the seed, at depth 0, is queued. */
  function Initial(input: CrawlInput): State {
    State([Item(input.url, 0)], {}, [], [], 0)
  }

  /** `queue.map(q => q.url)`. */
  function Urls(queue: seq<Item>): (r: seq<string>)
    ensures |r| == |queue|
  {
    seq(|queue|, i requires 0 <= i < |queue| => queue[i].url)
  }

  /** An item's rank: its URL's index in the prioritiser's answer, -1 when the answer leaves it out. */
  function RankOf(order: seq<string>): Item -> int {
    (it: Item) => IndexOf(order, it.url)
  }

  /** The comparator `(a, b) => prioritized.indexOf(a.url) - prioritized.indexOf(b.url)`. */
  function ByRank(order: seq<string>): (Item, Item) -> int {
    (a: Item, b: Item) => IndexOf(order, a.url) - IndexOf(order, b.url)
  }

  /** The prioritiser is consulted only with a non-empty query and more than one queued item. */
  predicate Prioritizes(ctx: Ctx, queue: seq<Item>) {
    ctx.input.aiQuery.Some? && ctx.input.aiQuery.value != "" && |queue| > 1
  }

  /** The optional re-ranking at the top of each iteration; a failed call leaves the queue as it was. */
  function Reprioritize(ctx: Ctx, st: State): (r: State)
    ensures |r.queue| == |st.queue|
  {
    if Prioritizes(ctx, st.queue) then
      match ctx.env.prioritize(st.aiCalls, Urls(st.queue), ctx.input.aiQuery.value)
      case None => st.(aiCalls := st.aiCalls + 1)
      case Some(order) => st.(queue := SortWith(st.queue, ByRank(order)), aiCalls := st.aiCalls + 1)
    else st
  }

  /** What handling one fetched URL produces: the page to record, if any, and the queue afterwards. */
  datatype Outcome = Outcome(page: Option<PageResult>, queue: seq<Item>)

  /** What the link scan of the page at `item` needs to know. */
  function LinkCtx(ctx: Ctx, visited: set<string>, item: Item): LinkContext {
    LinkContext(ctx.env, ctx.input.scope, ctx.startHostname, ctx.input.exclusions, visited, item.url, item.depth)
  }

  /**
   * The body of the `try` and its `catch`, for the n-th page: a network
   * failure or a status that is not ok gives an error page; a body that is
   * not HTML gives no page; an HTML body gives its page and, above the depth
   * limit, its links, unless an exclusion pattern throws during the scan, in
   * which case the page becomes an error page while the links pushed before
   * the throw stay queued.
   */
  function ProcessResponse(ctx: Ctx, visited: set<string>, queue: seq<Item>, n: nat, item: Item): (o: Outcome)
    ensures o.page.None? ==> o.queue == queue
    ensures o.page.Some? ==> o.page.value.id == PageId(n) && o.page.value.url == item.url && WellFormedPage(o.page.value)
  {
    var timestamp := ctx.env.timestamp(n);
    match ctx.env.fetch(item.url)
    case NetworkFailure(message) => Outcome(Some(ErrorPage(n, item.url, timestamp, message)), queue)
    case Http(status, contentType, body) =>
      if !IsOk(status) then Outcome(Some(ErrorPage(n, item.url, timestamp, HttpErrorMessage(status))), queue)
      else if !IsHtml(contentType) then Outcome(None, queue)
      else HtmlOutcome(ctx, visited, queue, n, item, body)
  }

  /** An HTML body: its page, and its links when `item` is above the depth limit. */
  function HtmlOutcome(ctx: Ctx, visited: set<string>, queue: seq<Item>, n: nat, item: Item, body: string): (o: Outcome)
    ensures o.page.Some? && o.page.value.id == PageId(n) && o.page.value.url == item.url && WellFormedPage(o.page.value)
  {
    var timestamp := ctx.env.timestamp(n);
    if item.depth < ctx.input.maxDepth then
      var links := PageLinks(LinkCtx(ctx, visited, item), body, queue);
      match links.failure
      case None => Outcome(Some(SuccessPage(n, item.url, body, timestamp)), links.queue)
      case Some(message) => Outcome(Some(ErrorPage(n, item.url, timestamp, message)), links.queue)
    else Outcome(Some(SuccessPage(n, item.url, body, timestamp)), queue)
  }

  /**
   * Handling the dequeued `item`: skipped when visited or deeper than
   * `maxDepth`; otherwise marked visited before it is fetched, so it is
   * never fetched again, whatever the fetch yields.
   */
  function Visit(ctx: Ctx, st: State, item: Item): State {
    if item.url in st.visited || item.depth > ctx.input.maxDepth then st
    else
      var visited := st.visited + {item.url};
      var o := ProcessResponse(ctx, visited, st.queue, |st.pages| + 1, item);
      State(o.queue, visited, st.pages + (if o.page.Some? then [o.page.value] else []), st.fetched + [item.url], st.aiCalls)
  }

  /** One iteration: re-rank, take the head off, handle it.  Either a page is recorded or the queue shrinks. */
  function Step(ctx: Ctx, st: State): (r: State)
    requires st.queue != []
    ensures |r.pages| == |st.pages| + 1 || (r.pages == st.pages && |r.queue| < |st.queue|)
  {
    var s := Reprioritize(ctx, st);
    Visit(ctx, s.(queue := s.queue[1..]), s.queue[0])
  }

  /** The loop guard. */
  predicate Running(ctx: Ctx, st: State) {
    st.queue != [] && |st.pages| < ctx.input.maxPages
  }

  /** The state the loop ends in. */
  function Crawl(ctx: Ctx, st: State): State
    decreases if |st.pages| <= ctx.input.maxPages then ctx.input.maxPages - |st.pages| else 0, |st.queue|
  {
    if Running(ctx, st) then Crawl(ctx, Step(ctx, st)) else st
  }

  // ---------------------------------------------------------------------------
  // The loop

  /** Fetching `item` as the n-th page: the `try` block and its `catch`. */
  method FetchPage(ctx: Ctx, visited: set<string>, queue: seq<Item>, n: nat, item: Item)
    returns (page: Option<PageResult>, newQueue: seq<Item>)
    ensures Outcome(page, newQueue) == ProcessResponse(ctx, visited, queue, n, item)
  {
    newQueue := queue;
    var timestamp := ctx.env.timestamp(n);
    var response := ctx.env.fetch(item.url);
    match response
    case NetworkFailure(message) =>
      page := Some(ErrorPage(n, item.url, timestamp, message));
    case Http(status, contentType, body) =>
      if !IsOk(status) {
        page := Some(ErrorPage(n, item.url, timestamp, HttpErrorMessage(status)));
        return;
      }
      if !IsHtml(contentType) {
        page := None;
        return;
      }
      var built := BuildPage(n, item.url, body, timestamp);
      if item.depth < ctx.input.maxDepth {
        var pushed, failure := EnqueueLinks(LinkCtx(ctx, visited, item), body, queue);
        newQueue := pushed;
        if failure.Some? {
          page := Some(ErrorPage(n, item.url, timestamp, failure.value));
          return;
        }
      }
      page := Some(built);
  }

  /**
   * One pass of the loop body: the optional re-ranking, then the `shift`
   * and the handling of the item taken off.
   */
  method Iterate(ctx: Ctx, queue: seq<Item>, visited: set<string>, pages: seq<PageResult>,
                 ghost fetched: seq<string>, aiCalls: nat)
    returns (queue': seq<Item>, visited': set<string>, pages': seq<PageResult>,
             ghost fetched': seq<string>, aiCalls': nat)
    requires queue != []
    ensures State(queue', visited', pages', fetched', aiCalls') == Step(ctx, State(queue, visited, pages, fetched, aiCalls))
    ensures var next := Step(ctx, State(queue, visited, pages, fetched, aiCalls));
      queue' == next.queue && visited' == next.visited && pages' == next.pages && aiCalls' == next.aiCalls
  {
    ghost var before := State(queue, visited, pages, fetched, aiCalls);
    var ranked := queue;
    aiCalls' := aiCalls;
    var input := ctx.input;
    if input.aiQuery.Some? && input.aiQuery.value != "" && |queue| > 1 {
      var answer := ctx.env.prioritize(aiCalls, Urls(queue), input.aiQuery.value);
      aiCalls' := aiCalls + 1;
      if answer.Some? {
        ranked := SortWith(queue, ByRank(answer.value));
      }
    }
    assert State(ranked, visited, pages, fetched, aiCalls') == Reprioritize(ctx, before);
    queue', visited', pages', fetched' := VisitHead(ctx, ranked, visited, pages, fetched, aiCalls');
  }

  /** The `shift`, the skip test, marking the URL visited, and handling its fetch. */
  method VisitHead(ctx: Ctx, queue: seq<Item>, visited: set<string>, pages: seq<PageResult>,
                   ghost fetched: seq<string>, aiCalls: nat)
    returns (queue': seq<Item>, visited': set<string>, pages': seq<PageResult>, ghost fetched': seq<string>)
    requires queue != []
    ensures State(queue', visited', pages', fetched', aiCalls) == Visit(ctx, State(queue[1..], visited, pages, fetched, aiCalls), queue[0])
  {
    var item := queue[0];
    queue', visited', pages', fetched' := queue[1..], visited, pages, fetched;
    if item.url !in visited && item.depth <= ctx.input.maxDepth {
      visited' := visited + {item.url};
      fetched' := fetched + [item.url];
      var page, newQueue := FetchPage(ctx, visited', queue', |pages| + 1, item);
      queue' := newQueue;
      if page.Some? {
        pages' := pages + [page.value];
      }
    }
  }

  /** The failure `new URL(input.url)` throws for a seed that does not parse. */
  const InvalidUrl := "Invalid URL"

  /**
   * The crawl flow: the input is validated against its schema (defaults
   * filled in), the seed's host name is taken, the loop runs, and the result
   * is assembled from the pages and the clock readings.
   */
  method CrawlWebsite(raw: RawCrawlInput, isUrl: string -> bool, env: Env, clock: Clock)
    returns (r: Result<CrawlResult, string>)
    ensures r.Success? <==> ParseCrawlInput(raw, isUrl).Success? && env.parse(ParseCrawlInput(raw, isUrl).value.url).Some?
    ensures r.Success? ==>
      var input := ParseCrawlInput(raw, isUrl).value;
      var ctx := Ctx(input, env, env.parse(input.url).value.hostname);
      r.value == BuildResult(input, Crawl(ctx, Initial(input)).pages, clock)
    ensures r.Success? ==> |r.value.pages| <= ParseCrawlInput(raw, isUrl).value.maxPages
  {
    var parsed := ParseCrawlInput(raw, isUrl);
    if parsed.Failure? {
      return Failure(parsed.error);
    }
    var input := parsed.value;
    var seed := env.parse(input.url);
    if seed.None? {
      return Failure(InvalidUrl);
    }
    var ctx := Ctx(input, env, seed.value.hostname);

    var queue := [Item(input.url, 0)];
    var visited: set<string> := {};
    var pages: seq<PageResult> := [];
    ghost var fetched: seq<string> := [];
    var aiCalls: nat := 0;
    while queue != [] && |pages| < input.maxPages
      invariant Crawl(ctx, State(queue, visited, pages, fetched, aiCalls)) == Crawl(ctx, Initial(input))
      decreases if |pages| <= input.maxPages then input.maxPages - |pages| else 0, |queue|
    {
      queue, visited, pages, fetched, aiCalls := Iterate(ctx, queue, visited, pages, fetched, aiCalls);
    }
    InitialInv(ctx);
    CrawlInv(ctx, Initial(input));
    r := Success(BuildResult(input, pages, clock));
  }

  // ---------------------------------------------------------------------------
  // What the loop maintains

  /**
   * The loop invariant: at most `maxPages` pages, numbered `page_1`,
   * `page_2`, ... in order, well formed, with pairwise distinct URLs that
   * have all been visited; no queued item deeper than `maxDepth`; no URL
   * fetched twice, and the visited URLs are exactly the fetched ones; and a
   * single-page crawl never holds more than the seed.
   */
  ghost predicate Inv(ctx: Ctx, st: State) {
    |st.pages| <= ctx.input.maxPages
    && (forall i :: 0 <= i < |st.pages| ==>
          st.pages[i].id == PageId(i + 1) && WellFormedPage(st.pages[i]) && st.pages[i].url in st.visited)
    && (forall i, j :: 0 <= i < j < |st.pages| ==> st.pages[i].url != st.pages[j].url)
    && (forall i :: 0 <= i < |st.queue| ==> st.queue[i].depth <= ctx.input.maxDepth)
    && (forall i, j :: 0 <= i < j < |st.fetched| ==> st.fetched[i] != st.fetched[j])
    && (forall u :: u in st.visited <==> u in st.fetched)
    && (ctx.input.scope == Single ==> |st.pages| + |st.queue| <= 1)
  }

  /** The limits the input schema guarantees. */
  predicate ValidLimits(input: CrawlInput) {
    input.maxPages > 0 && input.maxDepth > 0
  }

  lemma InitialInv(ctx: Ctx)
    requires ValidLimits(ctx.input)
    ensures Inv(ctx, Initial(ctx.input))
  {
  }

  /** The comparator is the difference of ranks. */
  lemma ByRankKeyed(order: seq<string>)
    ensures KeyedBy(ByRank(order), RankOf(order))
  {
  }

  /**
   * The re-ranking changes only the queue (and counts the call), and the new
   * queue is a permutation of the old one; without a query or with at most
   * one item nothing happens, a failed call leaves the queue alone, and an
   * answer sorts the queue stably by rank.
   */
  lemma ReprioritizeMeaning(ctx: Ctx, st: State)
    ensures var r := Reprioritize(ctx, st);
      r.visited == st.visited && r.pages == st.pages && r.fetched == st.fetched
      && multiset(r.queue) == multiset(st.queue)
      && (!Prioritizes(ctx, st.queue) ==> r == st)
      && (Prioritizes(ctx, st.queue) ==>
            r.aiCalls == st.aiCalls + 1
            && match ctx.env.prioritize(st.aiCalls, Urls(st.queue), ctx.input.aiQuery.value)
               case None => r.queue == st.queue
               case Some(order) =>
                 SortedBy(r.queue, RankOf(order))
                 && forall k :: WithKey(r.queue, RankOf(order), k) == WithKey(st.queue, RankOf(order), k))
  {
    if Prioritizes(ctx, st.queue) {
      match ctx.env.prioritize(st.aiCalls, Urls(st.queue), ctx.input.aiQuery.value)
      case None =>
      case Some(order) =>
        ByRankKeyed(order);
        SortWithStable(st.queue, ByRank(order), RankOf(order));
    }
  }

  /**
   * A URL the prioritiser leaves out ranks -1, below every URL it lists, so
   * such items end up at the front of the queue, ahead of every listed one.
   */
  lemma AbsentMovesToFront(ctx: Ctx, st: State, order: seq<string>)
    requires Prioritizes(ctx, st.queue)
    requires ctx.env.prioritize(st.aiCalls, Urls(st.queue), ctx.input.aiQuery.value) == Some(order)
    ensures var q := Reprioritize(ctx, st).queue;
      forall i, j :: 0 <= i < j < |q| && q[j].url !in order ==> q[i].url !in order
  {
    ReprioritizeMeaning(ctx, st);
    var q := Reprioritize(ctx, st).queue;
    forall i, j | 0 <= i < j < |q| && q[j].url !in order ensures q[i].url !in order {
      assert RankOf(order)(q[i]) <= RankOf(order)(q[j]);
    }
  }

  /**
   * The values the link pattern captures from the body fetched from `url`,
   * the only bodies whose links are scanned being those of successful HTML
   * responses; none when the fetch fails or the response is an error or not HTML.
   */
  function FetchedHrefs(ctx: Ctx, url: string): seq<string> {
    match ctx.env.fetch(url)
    case NetworkFailure(_) => []
    case Http(status, contentType, body) => if IsOk(status) && IsHtml(contentType) then Hrefs(body, 0) else []
  }

  /**
   * What handling a fetch does to the queue: it only grows, by items one
   * level deeper than `item`, each the in-scope resolution of a link on the
   * fetched page that the exclusions admit, and only when `item.depth` is
   * below `maxDepth` and the crawl is not single-page.
   */
  lemma ProcessResponseQueue(ctx: Ctx, visited: set<string>, queue: seq<Item>, n: nat, item: Item)
    ensures var o := ProcessResponse(ctx, visited, queue, n, item);
      |queue| <= |o.queue| && o.queue[..|queue|] == queue
      && (forall i :: |queue| <= i < |o.queue| ==>
            o.queue[i].depth == item.depth + 1 && Admissible(LinkCtx(ctx, visited, item), FetchedHrefs(ctx, item.url), o.queue[i].url))
      && (item.depth >= ctx.input.maxDepth || ctx.input.scope == Single ==> o.queue == queue)
  {
    match ctx.env.fetch(item.url)
    case NetworkFailure(_) =>
    case Http(status, contentType, body) =>
      if IsOk(status) && IsHtml(contentType) {
        HtmlOutcomeQueue(ctx, visited, queue, n, item, body);
      }
  }

  /** The queue facts of `ProcessResponseQueue` for a body that is read and scanned. */
  lemma HtmlOutcomeQueue(ctx: Ctx, visited: set<string>, queue: seq<Item>, n: nat, item: Item, body: string)
    ensures var o := HtmlOutcome(ctx, visited, queue, n, item, body);
      |queue| <= |o.queue| && o.queue[..|queue|] == queue
      && (forall i :: |queue| <= i < |o.queue| ==>
            o.queue[i].depth == item.depth + 1 && Admissible(LinkCtx(ctx, visited, item), Hrefs(body, 0), o.queue[i].url))
      && (item.depth >= ctx.input.maxDepth || ctx.input.scope == Single ==> o.queue == queue)
  {
    if item.depth < ctx.input.maxDepth {
      ScanLinksShape(LinkCtx(ctx, visited, item), Hrefs(body, 0), queue);
    }
  }

  /**
   * A response that is not ok becomes an error page with the status in its
   * message, and no links are scanned.
   */
  lemma HttpErrorPage(ctx: Ctx, visited: set<string>, queue: seq<Item>, n: nat, item: Item)
    requires ctx.env.fetch(item.url).Http? && !IsOk(ctx.env.fetch(item.url).status)
    ensures var o := ProcessResponse(ctx, visited, queue, n, item);
      o.queue == queue && o.page.Some? && o.page.value.status == Error
      && o.page.value.error == Some(HttpErrorMessage(ctx.env.fetch(item.url).status))
  {
  }

  /**
   * A malformed exclusion pattern met while scanning an HTML page turns the
   * page into an error page carrying the pattern's error, yet every link
   * pushed before the throw stays queued.
   */
  lemma MalformedPatternErrorPage(ctx: Ctx, visited: set<string>, queue: seq<Item>, n: nat, item: Item)
    requires ctx.env.fetch(item.url).Http? && IsOk(ctx.env.fetch(item.url).status)
    requires IsHtml(ctx.env.fetch(item.url).contentType) && item.depth < ctx.input.maxDepth
    requires PageLinks(LinkCtx(ctx, visited, item), ctx.env.fetch(item.url).body, queue).failure.Some?
    ensures var links := PageLinks(LinkCtx(ctx, visited, item), ctx.env.fetch(item.url).body, queue);
      var o := ProcessResponse(ctx, visited, queue, n, item);
      o.page.Some? && o.page.value.status == Error && o.page.value.error == links.failure
      && o.page.value.title == ErrorTitle
      && o.queue == links.queue && |queue| <= |o.queue| && o.queue[..|queue|] == queue
  {
    ScanLinksShape(LinkCtx(ctx, visited, item), Hrefs(ctx.env.fetch(item.url).body, 0), queue);
  }

  /**
   * A URL whose response is ok but not HTML adds no page and no links, yet
   * stays visited: dequeued again later, at any depth, it is skipped.
   */
  lemma NonHtmlStaysVisited(ctx: Ctx, st: State, item: Item, later: Item)
    requires item.url !in st.visited && item.depth <= ctx.input.maxDepth
    requires ctx.env.fetch(item.url).Http? && IsOk(ctx.env.fetch(item.url).status)
    requires !IsHtml(ctx.env.fetch(item.url).contentType)
    requires later.url == item.url
    ensures var s := Visit(ctx, st, item);
      s == st.(visited := st.visited + {item.url}, fetched := st.fetched + [item.url])
      && Visit(ctx, s, later) == s
  {
  }

  /** The depth test never fires: every dequeued item is within `maxDepth`. */
  lemma DepthSkipNeverFires(ctx: Ctx, st: State)
    requires Inv(ctx, st) && st.queue != []
    ensures Reprioritize(ctx, st).queue[0].depth <= ctx.input.maxDepth
  {
    ReprioritizeMeaning(ctx, st);
    var q := Reprioritize(ctx, st).queue;
    assert q[0] in multiset(q);
  }

  /** The invariant survives the re-ranking. */
  lemma ReprioritizeInv(ctx: Ctx, st: State)
    requires Inv(ctx, st)
    ensures Inv(ctx, Reprioritize(ctx, st))
  {
    ReprioritizeMeaning(ctx, st);
    var q := Reprioritize(ctx, st).queue;
    forall i | 0 <= i < |q| ensures q[i].depth <= ctx.input.maxDepth {
      assert q[i] in multiset(st.queue);
    }
  }

  /** The invariant survives handling the head of the queue. */
  lemma VisitInv(ctx: Ctx, st: State)
    requires Inv(ctx, st) && Running(ctx, st)
    ensures Inv(ctx, Visit(ctx, st.(queue := st.queue[1..]), st.queue[0]))
  {
    var item := st.queue[0];
    var s := st.(queue := st.queue[1..]);
    if item.url !in s.visited && item.depth <= ctx.input.maxDepth {
      var visited := s.visited + {item.url};
      var n := |s.pages| + 1;
      ProcessResponseQueue(ctx, visited, s.queue, n, item);
      var o := ProcessResponse(ctx, visited, s.queue, n, item);
      FetchInv(ctx, st, o);
      assert Visit(ctx, s, item)
        == State(o.queue, visited, st.pages + (if o.page.Some? then [o.page.value] else []), st.fetched + [item.url], st.aiCalls);
    } else {
      forall i | 0 <= i < |s.queue| ensures s.queue[i].depth <= ctx.input.maxDepth {
        assert s.queue[i] == st.queue[i + 1];
      }
    }
  }

  /**
   * Fetching the unvisited head of the queue keeps the invariant, for any
   * outcome that keeps the rest of the queue in front, pushes links one
   * level deeper only below the depth limit and never in a single-page
   * crawl, and records at most the next page for that URL.
   */
  lemma FetchInv(ctx: Ctx, st: State, o: Outcome)
    requires Inv(ctx, st) && Running(ctx, st)
    requires st.queue[0].url !in st.visited && st.queue[0].depth <= ctx.input.maxDepth
    requires |st.queue[1..]| <= |o.queue| && o.queue[..|st.queue[1..]|] == st.queue[1..]
    requires forall i :: |st.queue[1..]| <= i < |o.queue| ==> o.queue[i].depth == st.queue[0].depth + 1
    requires st.queue[0].depth >= ctx.input.maxDepth || ctx.input.scope == Single ==> o.queue == st.queue[1..]
    requires o.page.Some? ==>
      o.page.value.id == PageId(|st.pages| + 1) && o.page.value.url == st.queue[0].url && WellFormedPage(o.page.value)
    ensures var url := st.queue[0].url;
      Inv(ctx, State(o.queue, st.visited + {url}, st.pages + (if o.page.Some? then [o.page.value] else []),
                     st.fetched + [url], st.aiCalls))
  {
    var item := st.queue[0];
    forall i | 0 <= i < |o.queue| ensures o.queue[i].depth <= ctx.input.maxDepth {
      if i < |st.queue[1..]| {
        assert o.queue[i] == st.queue[1..][i] == st.queue[i + 1];
      }
    }
    FetchedOnce(st.fetched, st.visited, item.url);
    if o.page.Some? {
      PagesKept(st.pages, st.visited, o.page.value, item.url);
    } else {
      assert st.pages + [] == st.pages;
    }
  }

  /** Fetching an unvisited URL keeps the fetch log free of repeats and in step with the visited set. */
  lemma FetchedOnce(fetched: seq<string>, visited: set<string>, url: string)
    requires forall i, j :: 0 <= i < j < |fetched| ==> fetched[i] != fetched[j]
    requires forall u :: u in visited <==> u in fetched
    requires url !in visited
    ensures var f := fetched + [url];
      (forall i, j :: 0 <= i < j < |f| ==> f[i] != f[j])
      && forall u :: u in visited + {url} <==> u in f
  {
    var f := fetched + [url];
    forall i, j | 0 <= i < j < |f| ensures f[i] != f[j] {
      if j == |fetched| {
        assert fetched[i] in fetched;
      }
    }
  }

  /** Recording the page of an unvisited URL keeps the page facts of the invariant. */
  lemma PagesKept(pages: seq<PageResult>, visited: set<string>, page: PageResult, url: string)
    requires forall i :: 0 <= i < |pages| ==> pages[i].id == PageId(i + 1) && WellFormedPage(pages[i]) && pages[i].url in visited
    requires forall i, j :: 0 <= i < j < |pages| ==> pages[i].url != pages[j].url
    requires url !in visited
    requires page.id == PageId(|pages| + 1) && WellFormedPage(page) && page.url == url
    ensures var ps := pages + [page];
      (forall i :: 0 <= i < |ps| ==> ps[i].id == PageId(i + 1) && WellFormedPage(ps[i]) && ps[i].url in visited + {url})
      && forall i, j :: 0 <= i < j < |ps| ==> ps[i].url != ps[j].url
  {
  }

  /** The loop invariant is kept by every iteration. */
  lemma StepInv(ctx: Ctx, st: State)
    requires Inv(ctx, st) && Running(ctx, st)
    ensures Inv(ctx, Step(ctx, st))
  {
    ReprioritizeInv(ctx, st);
    VisitInv(ctx, Reprioritize(ctx, st));
  }

  /**
   * The loop ends with the invariant intact, and it ends only when the queue
   * is empty or exactly `maxPages` pages are recorded.
   */
  lemma {:induction false} CrawlInv(ctx: Ctx, st: State)
    requires Inv(ctx, st)
    ensures var r := Crawl(ctx, st);
      Inv(ctx, r) && (r.queue == [] || |r.pages| == ctx.input.maxPages)
    decreases if |st.pages| <= ctx.input.maxPages then ctx.input.maxPages - |st.pages| else 0, |st.queue|
  {
    if Running(ctx, st) {
      StepInv(ctx, st);
      CrawlInv(ctx, Step(ctx, st));
    }
  }

  /**
   * What a finished crawl reports: at most `maxPages` pages, at most one
   * for a single-page crawl, numbered `page_1` ... `page_n` in order, well
   * formed and with pairwise distinct URLs, no URL fetched twice, and a
   * summary whose counts account for every page.
   */
  lemma CrawlResultMeaning(input: CrawlInput, env: Env, startHostname: string, clock: Clock)
    requires ValidLimits(input)
    ensures var ctx := Ctx(input, env, startHostname);
      var final := Crawl(ctx, Initial(input));
      var result := BuildResult(input, final.pages, clock);
      var pages := result.pages;
      |pages| <= input.maxPages
      && (input.scope == Single ==> |pages| <= 1)
      && (forall i :: 0 <= i < |pages| ==> pages[i].id == PageId(i + 1) && WellFormedPage(pages[i]))
      && (forall i, j :: 0 <= i < j < |pages| ==> pages[i].url != pages[j].url)
      && (forall i, j :: 0 <= i < j < |final.fetched| ==> final.fetched[i] != final.fetched[j])
      && result.config == ConfigOf(input)
      && result.summary.totalPages == |pages|
      && result.summary.loremPages + result.summary.cleanPages + CountStatus(pages, Error) == |pages|
      && result.summary.totalInstances >= result.summary.loremPages
  {
    var ctx := Ctx(input, env, startHostname);
    InitialInv(ctx);
    CrawlInv(ctx, Initial(input));
    var final := Crawl(ctx, Initial(input));
    SummaryMeaning(final.pages, clock.elapsedMs);
  }

  // ---------------------------------------------------------------------------
  // Where the crawled URLs come from

  /** `url` is the in-scope resolution of a link captured on the successful HTML page fetched from `page`. */
  ghost predicate LinkedFrom(ctx: Ctx, page: string, url: string) {
    exists h :: h in FetchedHrefs(ctx, page)
      && ctx.env.resolve(h, page).Some? && ctx.env.resolve(h, page).value.href == url
      && InScope(ctx.input.scope, ctx.env.resolve(h, page).value.hostname, ctx.startHostname)
  }

  /** `url` is the seed, or linked from one of the `visited` (that is, fetched) pages. */
  ghost predicate Reached(ctx: Ctx, visited: set<string>, url: string) {
    url == ctx.input.url || exists page :: page in visited && LinkedFrom(ctx, page, url)
  }

  /** Every queued URL and the URL of every recorded page has been reached. */
  ghost predicate Traced(ctx: Ctx, st: State) {
    (forall i :: 0 <= i < |st.queue| ==> Reached(ctx, st.visited, st.queue[i].url))
    && forall i :: 0 <= i < |st.pages| ==> Reached(ctx, st.visited, st.pages[i].url)
  }

  lemma ReachedGrows(ctx: Ctx, visited: set<string>, url: string, page: string)
    requires Reached(ctx, visited, url)
    ensures Reached(ctx, visited + {page}, url)
  {
    if url != ctx.input.url {
      var p :| p in visited && LinkedFrom(ctx, p, url);
      assert p in visited + {page};
    }
  }

  /** Re-ranking only permutes the queue, so every queued URL stays reached. */
  lemma ReprioritizeTraced(ctx: Ctx, st: State)
    requires Traced(ctx, st)
    ensures Traced(ctx, Reprioritize(ctx, st))
  {
    ReprioritizeMeaning(ctx, st);
    var q := Reprioritize(ctx, st).queue;
    forall i | 0 <= i < |q| ensures Reached(ctx, st.visited, q[i].url) {
      assert q[i] in multiset(st.queue);
    }
  }

  /** A link the scan admits from the page at `item` is linked from that page. */
  lemma AdmissibleLinked(ctx: Ctx, visited: set<string>, item: Item, url: string)
    requires Admissible(LinkCtx(ctx, visited, item), FetchedHrefs(ctx, item.url), url)
    ensures LinkedFrom(ctx, item.url, url)
  {
    var h :| h in FetchedHrefs(ctx, item.url) && ResolvesInScope(LinkCtx(ctx, visited, item), h, url);
  }

  /**
   * Handling the head of the queue keeps every URL reached: the links it
   * queues are found on the page just fetched, which is now visited.
   */
  lemma VisitTraced(ctx: Ctx, st: State)
    requires Traced(ctx, st) && st.queue != []
    ensures Traced(ctx, Visit(ctx, st.(queue := st.queue[1..]), st.queue[0]))
  {
    var item := st.queue[0];
    var s := st.(queue := st.queue[1..]);
    if item.url !in s.visited && item.depth <= ctx.input.maxDepth {
      var visited := s.visited + {item.url};
      var n := |s.pages| + 1;
      ProcessResponseQueue(ctx, visited, s.queue, n, item);
      var o := ProcessResponse(ctx, visited, s.queue, n, item);
      forall i | |s.queue| <= i < |o.queue| ensures LinkedFrom(ctx, item.url, o.queue[i].url) {
        AdmissibleLinked(ctx, visited, item, o.queue[i].url);
      }
      FetchTraced(ctx, st, o);
      assert Visit(ctx, s, item)
        == State(o.queue, visited, st.pages + (if o.page.Some? then [o.page.value] else []), st.fetched + [item.url], st.aiCalls);
    } else {
      forall i | 0 <= i < |s.queue| ensures Reached(ctx, st.visited, s.queue[i].url) {
        assert s.queue[i] == st.queue[i + 1];
      }
    }
  }

  /**
   * Fetching the head of the queue keeps every URL reached, for any outcome
   * that keeps the rest of the queue in front, appends only links of the
   * fetched page, and records at most a page for that URL.
   */
  lemma FetchTraced(ctx: Ctx, st: State, o: Outcome)
    requires Traced(ctx, st) && st.queue != []
    requires |st.queue[1..]| <= |o.queue| && o.queue[..|st.queue[1..]|] == st.queue[1..]
    requires forall i :: |st.queue[1..]| <= i < |o.queue| ==> LinkedFrom(ctx, st.queue[0].url, o.queue[i].url)
    requires o.page.Some? ==> o.page.value.url == st.queue[0].url
    ensures var url := st.queue[0].url;
      Traced(ctx, State(o.queue, st.visited + {url}, st.pages + (if o.page.Some? then [o.page.value] else []),
                        st.fetched + [url], st.aiCalls))
  {
    var url := st.queue[0].url;
    var visited := st.visited + {url};
    forall i | 0 <= i < |o.queue| ensures Reached(ctx, visited, o.queue[i].url) {
      if i < |st.queue[1..]| {
        assert o.queue[i] == st.queue[1..][i] == st.queue[i + 1];
        ReachedGrows(ctx, st.visited, o.queue[i].url, url);
      } else {
        assert url in visited;
      }
    }
    var pages := st.pages + (if o.page.Some? then [o.page.value] else []);
    forall i | 0 <= i < |pages| ensures Reached(ctx, visited, pages[i].url) {
      if i < |st.pages| {
        ReachedGrows(ctx, st.visited, st.pages[i].url, url);
      } else {
        ReachedGrows(ctx, st.visited, url, url);
      }
    }
  }

  /** The crawl, from any traced state, ends in a traced state. */
  lemma {:induction false} CrawlTraced(ctx: Ctx, st: State)
    requires Traced(ctx, st)
    ensures Traced(ctx, Crawl(ctx, st))
    decreases if |st.pages| <= ctx.input.maxPages then ctx.input.maxPages - |st.pages| else 0, |st.queue|
  {
    if Running(ctx, st) {
      ReprioritizeTraced(ctx, st);
      var r := Reprioritize(ctx, st);
      VisitTraced(ctx, r);
      CrawlTraced(ctx, Step(ctx, st));
    }
  }

  /**
   * Every page a crawl records is the seed or the in-scope resolution of a
   * link captured on a page it fetched; in a `domain` crawl that link's
   * resolved host is the seed's host, so the crawl never leaves it.
   */
  lemma CrawledPagesReached(input: CrawlInput, env: Env, startHostname: string)
    ensures var ctx := Ctx(input, env, startHostname);
      var final := Crawl(ctx, Initial(input));
      (forall i :: 0 <= i < |final.pages| ==> Reached(ctx, final.visited, final.pages[i].url))
      && (input.scope == Domain ==> forall i :: 0 <= i < |final.pages| && final.pages[i].url != input.url ==>
            exists page, h :: page in final.visited && h in FetchedHrefs(ctx, page)
              && env.resolve(h, page).Some? && env.resolve(h, page).value.href == final.pages[i].url
              && env.resolve(h, page).value.hostname == startHostname)
  {
    var ctx := Ctx(input, env, startHostname);
    CrawlTraced(ctx, Initial(input));
  }
}

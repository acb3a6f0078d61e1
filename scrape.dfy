/**
 * `scrapeSubreddit` (src/utils/scrape.ts) with the page turned into inputs:
 * which setup step fails, whether navigation and the first-post wait succeed,
 * the post counts the scroll loop observes, the post elements found after it,
 * and what the comments endpoint answers.
 */
module Scrape {
  import opened Wrappers
  import opened Js
  import opened Json
  import opened Types
  import opened Session
  import opened Comments
  import opened Time
  import opened ParsePost

  const PostCap := 10
  const ScrollBudget := 10
  const WantedCount := 10

  /** Which of `chromium.launch`, `newContext` and `newPage` (all before the `try`) throws, if any. */
  datatype Setup = LaunchFails | ContextFails | PageFails | Ready

  /**
   * One round of the scroll loop: the number of `shreddit-post` elements read,
   * or a throw from that read, the scroll or the delay that follows it.
   */
  datatype Probe = Count(n: nat) | ProbeThrew

  /**
   * A post element handle; `Stale` when reading its attributes, evaluating in
   * it, or the delay of its loop round throws.
   */
  datatype Handle = Live(el: Element) | Stale

  /**
   * The page, as the scraper observes it.
   * `navigates`: `goto`, the politeness delay and the scroll to the top resolve
   * (the scroll to the top runs after the first-post wait, but a throw there
   * ends like a navigation throw: `[]`, no request, the browser closed);
   * `firstPost`: a post appears within the wait; `probe(i)`: round `i` of the
   * scroll loop; `handles`: `page.$$('shreddit-post')` (None when it throws);
   * `server`: the comments endpoint; `closeRejects`: `browser.close()` in the
   * `finally` rejects, and that rejection replaces the result of the `try`.
   */
  datatype Page = Page(
    setup: Setup, navigates: bool, firstPost: bool, probe: nat -> Probe,
    handles: Option<seq<Handle>>, server: string -> Response, closeRejects: bool)

  /** How the promise settles. */
  datatype Settled = Resolved(result: ScrapeResult) | Rejected

  // ---------------------------------------------------------------------------
  // The scroll loop.

  /** The value of `attempts` when the loop exits from round `attempts` on, or None when a round throws. */
  function ScrollOutcome(probe: nat -> Probe, attempts: nat): Option<nat>
    requires attempts <= ScrollBudget
    decreases ScrollBudget - attempts
  {
    if attempts == ScrollBudget then Some(attempts)
    else match probe(attempts)
      case ProbeThrew => None
      case Count(n) => if n >= WantedCount then Some(attempts) else ScrollOutcome(probe, attempts + 1)
  }

  /**
   * `while (attempts < 10) { count; if (count >= 10) break; scroll; wait; attempts += 1 }`.
   * It stops at the first round that sees ten posts, and after ten rounds at the latest.
   */
  method ScrollUntilLoaded(probe: nat -> Probe) returns (attempts: nat, threw: bool)
    ensures attempts <= ScrollBudget
    ensures forall i | 0 <= i < attempts :: probe(i).Count? && probe(i).n < WantedCount
    ensures threw ==> attempts < ScrollBudget && probe(attempts) == ProbeThrew
    ensures !threw && attempts < ScrollBudget ==> probe(attempts).Count? && probe(attempts).n >= WantedCount
    ensures ScrollOutcome(probe, 0) == if threw then None else Some(attempts)
  {
    attempts, threw := 0, false;
    while attempts < ScrollBudget
      invariant attempts <= ScrollBudget
      invariant forall i | 0 <= i < attempts :: probe(i).Count? && probe(i).n < WantedCount
      invariant ScrollOutcome(probe, attempts) == ScrollOutcome(probe, 0)
    {
      var observed := probe(attempts);
      if observed.ProbeThrew? {
        threw := true;
        return;
      }
      if observed.n >= WantedCount {
        break;
      }
      attempts := attempts + 1;
    }
  }

  // ---------------------------------------------------------------------------
  // The per-post assembly.

  /** `attr ?? ''`: only a null attribute becomes `''`. */
  function Nullish(a: Option<string>): string {
    a.GetOr("")
  }

  /** `(titleAttr ?? '').trim() || el.evaluate(node => link?.textContent?.trim() || 'Untitled')`. */
  function LoopTitle(el: Element): string {
    var fromAttr := Trim(Nullish(el.postTitle));
    if fromAttr != "" then fromAttr
    else
      var linkText := match el.titleLink case Some(text) => Trim(text) case None => "";
      if linkText != "" then linkText else "Untitled"
  }

  /** `(authorAttr ?? '').trim() || 'Unknown'`. */
  function LoopAuthor(el: Element): string {
    var fromAttr := Trim(Nullish(el.author));
    if fromAttr != "" then fromAttr else "Unknown"
  }

  /** `permalinkAttr ? origin + permalinkAttr : ''` on the nullable attribute. */
  function LoopUrl(el: Element): string {
    if el.permalink.Some? && el.permalink.value != "" then Origin + el.permalink.value else ""
  }

  /**
   * `time?.getAttribute('datetime') || time?.getAttribute('title') || ''`, where
   * each operand runs its own `querySelector('faceplate-timeago time')`; both
   * queries find the same first element.
   */
  function LoopFallback(el: Element): string {
    var datetime := match el.time case Some(t) => t.datetime case None => None;
    var title := match el.time case Some(t) => t.title case None => None;
    if datetime.Some? && datetime.value != "" then datetime.value
    else if title.Some? && title.value != "" then title.value
    else ""
  }

  /** `normalize(created || '')`, then `normalize(fallback || '')` when that is empty. */
  function LoopPostedAt(el: Element, rt: Runtime): string {
    var posted := NormalizeTimestamp(Attr(el.createdTimestamp), rt.date);
    if posted != "" then posted else NormalizeTimestamp(LoopFallback(el), rt.date)
  }

  /**
   * The fields the loop reads inline. They agree with `parseShredditElement`
   * except for the score, which the loop trims before converting it.
   */
  function PostFields(el: Element, rt: Runtime): (p: ParsedPost)
    ensures var q := ParseShredditElement(el, rt);
      p.title == q.title && p.author == q.author && p.url == q.url && p.posted_at == q.posted_at
    ensures p.title != "" && p.author != "" && p.url == UrlOf(el)
    ensures p.upvotes.None? <==> AllWhitespace(Attr(el.score)) || rt.number(Trim(Attr(el.score))).None?
    ensures p.upvotes.Some? ==> p.upvotes == rt.number(Trim(Attr(el.score)))
  {
    var upvotesRaw := Trim(Nullish(el.score));
    var upvotes := if upvotesRaw != "" then rt.number(upvotesRaw) else None;
    LoopReadsAgree(el, rt);
    TrimEmptyIff(Attr(el.score));
    ParsedPost(LoopTitle(el), LoopAuthor(el), upvotes, LoopUrl(el), LoopPostedAt(el, rt))
  }

  /** `?? ''` and `|| ''` differ only on an empty attribute, where both give `''`. */
  lemma NullishIsAttr(a: Option<string>)
    ensures Nullish(a) == Attr(a)
  {
  }

  /** The loop reads each field as the extractor does; only the score is handled differently. */
  lemma LoopReadsAgree(el: Element, rt: Runtime)
    ensures Trim(Nullish(el.score)) == Trim(Attr(el.score))
    ensures LoopTitle(el) == TitleOf(el) && LoopAuthor(el) == AuthorOf(el) && LoopUrl(el) == UrlOf(el)
    ensures LoopPostedAt(el, rt) == PostedAt(el, rt)
  {
    NullishIsAttr(el.score);
    NullishIsAttr(el.postTitle);
    NullishIsAttr(el.author);
    assert LoopUrl(el) == UrlOf(el);
    LoopFallbackAgrees(el);
  }

  /** The two-query fallback of the loop is the extractor's `datetime || title || ''`. */
  lemma LoopFallbackAgrees(el: Element)
    ensures LoopFallback(el) == FallbackStamp(el)
  {
    if el.time.Some? {
      NullishIsAttr(el.time.value.datetime);
      NullishIsAttr(el.time.value.title);
    }
  }

  /** `{ ...fields, comments }`: comments are fetched only for a non-empty URL. */
  function Attach(fields: ParsedPost, server: string -> Response): (p: ScrapedPost)
    ensures p.title == fields.title && p.author == fields.author && p.upvotes == fields.upvotes
    ensures p.url == fields.url && p.posted_at == fields.posted_at
    ensures p.url == "" ==> p.comments == []
    ensures p.url != "" ==> p.comments == CommentsFrom(server(JsonUrl(p.url)))
    ensures |p.comments| <= TopLevelCap
  {
    WithComments(fields, if fields.url != "" then CommentsFrom(server(JsonUrl(fields.url))) else [])
  }

  /** One assembled post: the element's fields with its comments attached. */
  function AssemblePost(el: Element, rt: Runtime, server: string -> Response): (p: ScrapedPost)
    ensures p.url == UrlOf(el)
    ensures p.url == "" ==> p.comments == []
    ensures p.url != "" ==> p.comments == CommentsFrom(server(JsonUrl(p.url)))
    ensures |p.comments| <= TopLevelCap
  {
    Attach(PostFields(el, rt), server)
  }

  /** The per-post assembly as a function value. */
  function Builder(rt: Runtime, server: string -> Response): Element -> ScrapedPost {
    el => AssemblePost(el, rt, server)
  }

  /** No handle among `hs` throws. */
  predicate AllLive(hs: seq<Handle>) {
    forall i | 0 <= i < |hs| :: hs[i].Live?
  }

  /** The posts built from `hs` in order, or None when a handle throws. */
  function AssembleAll(hs: seq<Handle>, build: Element -> ScrapedPost): Option<seq<ScrapedPost>>
    decreases |hs|
  {
    if hs == [] then Some([])
    else match AssembleAll(hs[..|hs| - 1], build)
      case None => None
      case Some(ps) =>
        match hs[|hs| - 1]
        case Stale => None
        case Live(el) => Some(ps + [build(el)])
  }

  /** The comments endpoint requested for a post URL: none when it is empty. */
  function EndpointFor(url: string): seq<string> {
    if url != "" then [JsonUrl(url)] else []
  }

  /** The comment endpoints requested while assembling `hs`, up to the first handle that throws. */
  function Fetches(hs: seq<Handle>): seq<string>
    decreases |hs|
  {
    if hs == [] then []
    else
      var before := Fetches(hs[..|hs| - 1]);
      if !AllLive(hs[..|hs| - 1]) then before
      else match hs[|hs| - 1]
        case Stale => before
        case Live(el) => before + EndpointFor(UrlOf(el))
  }

  /** Assembly succeeds exactly when no handle throws. */
  lemma {:induction false} AssembleSucceedsIff(hs: seq<Handle>, build: Element -> ScrapedPost)
    ensures AssembleAll(hs, build).Some? <==> AllLive(hs)
    decreases |hs|
  {
    if hs != [] {
      var init := hs[..|hs| - 1];
      AssembleSucceedsIff(init, build);
      assert forall i | 0 <= i < |init| :: init[i] == hs[i];
    }
  }

  /** Assembly keeps one post per handle, in order. */
  lemma {:induction false} AssembleAllPosts(hs: seq<Handle>, build: Element -> ScrapedPost)
    requires AssembleAll(hs, build).Some?
    ensures |AssembleAll(hs, build).value| == |hs|
    ensures forall i | 0 <= i < |hs| :: hs[i].Live? && AssembleAll(hs, build).value[i] == build(hs[i].el)
    decreases |hs|
  {
    if hs != [] {
      var init := hs[..|hs| - 1];
      AssembleAllPosts(init, build);
      var ps := AssembleAll(init, build).value;
      assert AssembleAll(hs, build).value == ps + [build(hs[|hs| - 1].el)];
      assert forall i | 0 <= i < |init| :: init[i] == hs[i];
    }
  }

  /** A throwing handle ends the loop: no posts, and no request after it. */
  lemma {:induction false} StaleStops(hs: seq<Handle>, i: nat, build: Element -> ScrapedPost)
    requires i < |hs| && hs[i].Stale?
    ensures AssembleAll(hs, build) == None
    ensures Fetches(hs) == Fetches(hs[..i])
    decreases |hs|
  {
    var init := hs[..|hs| - 1];
    if i == |hs| - 1 {
      assert init == hs[..i];
    } else {
      assert init[i] == hs[i] && init[..i] == hs[..i];
      StaleStops(init, i, build);
      assert !AllLive(init);
    }
  }

  /** One more live handle: one more post, and one more request when it has a URL. */
  lemma AssembleStep(hs: seq<Handle>, i: nat, build: Element -> ScrapedPost, acc: seq<ScrapedPost>)
    requires i < |hs| && hs[i].Live? && AssembleAll(hs[..i], build) == Some(acc)
    ensures AssembleAll(hs[..i + 1], build) == Some(acc + [build(hs[i].el)])
    ensures Fetches(hs[..i + 1]) == Fetches(hs[..i]) + EndpointFor(UrlOf(hs[i].el))
  {
    var next := hs[..i + 1];
    assert next[..|next| - 1] == hs[..i];
    assert next[|next| - 1] == hs[i];
    AssembleSucceedsIff(hs[..i], build);
  }

  /** The comment step of the per-post loop: fetch comments if the post has a URL, then attach them. */
  method AttachComments(browser: Browser, fields: ParsedPost) returns (post: ScrapedPost)
    requires browser.open
    modifies browser
    ensures browser.open
    ensures post == Attach(fields, browser.server)
    ensures browser.requests == old(browser.requests) + EndpointFor(fields.url)
  {
    var comments: seq<RedditComment> := [];
    if fields.url != "" {
      comments := FetchPostComments(browser, fields.url);
    }
    post := WithComments(fields, comments);
  }

  /** Regrouping a concatenation of three sequences. */
  lemma ConcatAssoc<T>(a: seq<T>, b: seq<T>, c: seq<T>)
    ensures (a + b) + c == a + (b + c)
  {
  }

  /** `for (const el of limited) { ... posts.push(...) }`. */
  method CollectPosts(browser: Browser, limited: seq<Handle>, rt: Runtime) returns (posts: Option<seq<ScrapedPost>>)
    requires browser.open
    modifies browser
    ensures browser.open
    ensures posts == AssembleAll(limited, Builder(rt, browser.server))
    ensures browser.requests == old(browser.requests) + Fetches(limited)
  {
    var build := Builder(rt, browser.server);
    ghost var start := browser.requests;
    var acc: seq<ScrapedPost> := [];
    for i := 0 to |limited|
      invariant browser.open
      invariant AssembleAll(limited[..i], build) == Some(acc)
      invariant browser.requests == start + Fetches(limited[..i])
    {
      if limited[i].Stale? {
        StaleStops(limited, i, build);
        return None;
      }
      AssembleStep(limited, i, build, acc);
      ghost var done := Fetches(limited[..i]);
      ghost var endpoint := EndpointFor(UrlOf(limited[i].el));
      var fields := PostFields(limited[i].el, rt);
      var post := AttachComments(browser, fields);
      assert browser.requests == (start + done) + endpoint;
      ConcatAssoc(start, done, endpoint);
      acc := acc + [post];
    }
    assert limited[..|limited|] == limited;
    posts := Some(acc);
  }

  // ---------------------------------------------------------------------------
  // The whole scrape.

  /** What the `try` block returns: None when an exception reaches the `catch`. */
  function TrySpec(subreddit: string, page: Page, rt: Runtime): Option<ScrapeResult> {
    if !page.navigates then None
    else if !page.firstPost then Some(map[subreddit := []])
    else if ScrollOutcome(page.probe, 0).None? || page.handles.None? then None
    else
      match AssembleAll(Slice(page.handles.value, 0, PostCap), Builder(rt, page.server))
      case None => None
      case Some(posts) => Some(map[subreddit := posts])
  }

  /** The comment endpoints the `try` block requests. */
  function RequestsSpec(page: Page, rt: Runtime): seq<string> {
    if !page.navigates || !page.firstPost || ScrollOutcome(page.probe, 0).None? || page.handles.None? then []
    else Fetches(Slice(page.handles.value, 0, PostCap))
  }

  /** How `scrapeSubreddit(subreddit)` settles. */
  function ScrapeSpec(subreddit: string, page: Page, rt: Runtime): Settled {
    if page.setup != Ready || page.closeRejects then Rejected
    else match TrySpec(subreddit, page, rt)
      case Some(result) => Resolved(result)
      case None => Resolved(map[subreddit := []])
  }

  /** The `try` block. */
  method TryBody(browser: Browser, subreddit: string, page: Page, rt: Runtime) returns (r: Option<ScrapeResult>)
    requires browser.open && browser.server == page.server
    modifies browser
    ensures browser.open
    ensures r == TrySpec(subreddit, page, rt)
    ensures browser.requests == old(browser.requests) + RequestsSpec(page, rt)
  {
    if !page.navigates {
      return None;
    }
    if !page.firstPost {
      return Some(map[subreddit := []]);
    }
    var attempts, threw := ScrollUntilLoaded(page.probe);
    if threw || page.handles.None? {
      return None;
    }
    var limited := Slice(page.handles.value, 0, PostCap);
    var posts := CollectPosts(browser, limited, rt);
    if posts.None? {
      return None;
    }
    return Some(map[subreddit := posts.value]);
  }

  /**
   * `scrapeSubreddit(subreddit)`. The setup steps run before the `try`, so
   * their failure rejects, and a failure after the launch leaves the browser
   * open; from the `try` on, `finally` closes it on every path, and a
   * rejection of that close replaces the result.
   */
  method ScrapeSubreddit(subreddit: string, page: Page, rt: Runtime) returns (settled: Settled, browser: Browser?)
    ensures settled == ScrapeSpec(subreddit, page, rt)
    ensures browser == null <==> page.setup == LaunchFails
    ensures browser != null ==> (browser.open <==> page.setup != Ready)
    ensures browser != null && page.setup == Ready ==> browser.requests == RequestsSpec(page, rt)
  {
    if page.setup == LaunchFails {
      return Rejected, null;
    }
    browser := new Browser.Launch(page.server);
    if page.setup != Ready {
      return Rejected, browser;
    }
    var r := TryBody(browser, subreddit, page, rt);
    var result := if r.Some? then r.value else map[subreddit := []];
    browser.Close();
    if page.closeRejects {
      settled := Rejected;
    } else {
      settled := Resolved(result);
    }
  }

  // ---------------------------------------------------------------------------
  // Properties of the result.

  /** The posts of a resolved scrape, or `[]`. */
  function PostsOf(subreddit: string, s: Settled): seq<ScrapedPost> {
    if s.Resolved? && subreddit in s.result then s.result[subreddit] else []
  }

  /** The scrape rejects exactly when a setup step or the closing of the browser throws; otherwise the result has exactly one key. */
  lemma ResultShape(subreddit: string, page: Page, rt: Runtime)
    ensures ScrapeSpec(subreddit, page, rt).Rejected? <==> page.setup != Ready || page.closeRejects
    ensures ScrapeSpec(subreddit, page, rt).Resolved? ==> ScrapeSpec(subreddit, page, rt).result.Keys == {subreddit}
  {
  }

  /**
   * A scrape that gets through the try block yields one post per element of the
   * first `min(10, n)` handles, in document order.
   */
  lemma PostsInDocumentOrder(subreddit: string, page: Page, rt: Runtime)
    requires page.setup == Ready && !page.closeRejects && page.navigates && page.firstPost
    requires ScrollOutcome(page.probe, 0).Some? && page.handles.Some?
    requires forall i | 0 <= i < |page.handles.value| && i < PostCap :: page.handles.value[i].Live?
    ensures var hs := page.handles.value;
      var posts := PostsOf(subreddit, ScrapeSpec(subreddit, page, rt));
      && |posts| == (if |hs| < PostCap then |hs| else PostCap)
      && forall i | 0 <= i < |posts| :: posts[i] == AssemblePost(hs[i].el, rt, page.server)
  {
    var limited := Slice(page.handles.value, 0, PostCap);
    var build := Builder(rt, page.server);
    AssembleSucceedsIff(limited, build);
    AssembleAllPosts(limited, build);
    var posts := AssembleAll(limited, build).value;
    assert PostsOf(subreddit, ScrapeSpec(subreddit, page, rt)) == posts;
    forall i | 0 <= i < |posts| ensures posts[i] == AssemblePost(page.handles.value[i].el, rt, page.server) {
      assert limited[i] == page.handles.value[i];
    }
  }

  /** Any posts of a scrape are those the assembly loop built from the first ten handles. */
  lemma SpecPosts(subreddit: string, page: Page, rt: Runtime)
    requires PostsOf(subreddit, ScrapeSpec(subreddit, page, rt)) != []
    ensures page.handles.Some?
    ensures AssembleAll(Slice(page.handles.value, 0, PostCap), Builder(rt, page.server))
      == Some(PostsOf(subreddit, ScrapeSpec(subreddit, page, rt)))
  {
  }

  /** At most ten posts, each with at most five top-level comments and none without a URL. */
  lemma PostBounds(subreddit: string, page: Page, rt: Runtime)
    ensures var posts := PostsOf(subreddit, ScrapeSpec(subreddit, page, rt));
      && |posts| <= PostCap
      && forall i | 0 <= i < |posts| :: |posts[i].comments| <= TopLevelCap && (posts[i].url == "" ==> posts[i].comments == [])
  {
    var posts := PostsOf(subreddit, ScrapeSpec(subreddit, page, rt));
    if posts != [] {
      SpecPosts(subreddit, page, rt);
      var limited := Slice(page.handles.value, 0, PostCap);
      AssembleAllPosts(limited, Builder(rt, page.server));
      forall i | 0 <= i < |posts| ensures |posts[i].comments| <= TopLevelCap && (posts[i].url == "" ==> posts[i].comments == []) {
        assert posts[i] == AssemblePost(limited[i].el, rt, page.server);
      }
    }
  }

  /** Every failure inside the try block, and the early return, give `{subreddit: []}`. */
  lemma FailuresGiveEmpty(subreddit: string, page: Page, rt: Runtime)
    requires page.setup == Ready && !page.closeRejects
    requires || !page.navigates || !page.firstPost || ScrollOutcome(page.probe, 0).None? || page.handles.None?
             || exists i :: 0 <= i < |page.handles.value| && i < PostCap && page.handles.value[i].Stale?
    ensures ScrapeSpec(subreddit, page, rt) == Resolved(map[subreddit := []])
  {
    if page.navigates && page.firstPost && ScrollOutcome(page.probe, 0).Some? && page.handles.Some? {
      var i :| 0 <= i < |page.handles.value| && i < PostCap && page.handles.value[i].Stale?;
      StaleStops(Slice(page.handles.value, 0, PostCap), i, Builder(rt, page.server));
    }
  }

  /** The endpoints of the posts that have a URL, in order. */
  function EndpointsOf(posts: seq<ScrapedPost>): seq<string> {
    if posts == [] then []
    else EndpointsOf(posts[..|posts| - 1]) + EndpointFor(posts[|posts| - 1].url)
  }

  /** The requests issued are exactly one per post with a URL, in order; none for a post without one. */
  lemma {:induction false} FetchesMatchPosts(hs: seq<Handle>, rt: Runtime, server: string -> Response)
    requires AssembleAll(hs, Builder(rt, server)).Some?
    ensures Fetches(hs) == EndpointsOf(AssembleAll(hs, Builder(rt, server)).value)
    decreases |hs|
  {
    if hs != [] {
      var build := Builder(rt, server);
      var init := hs[..|hs| - 1];
      FetchesMatchPosts(init, rt, server);
      AssembleSucceedsIff(init, build);
      var ps := AssembleAll(hs, build).value;
      var last := AssemblePost(hs[|hs| - 1].el, rt, server);
      assert ps == AssembleAll(init, build).value + [last];
      assert ps[..|ps| - 1] == AssembleAll(init, build).value;
      assert last.url == UrlOf(hs[|hs| - 1].el);
    }
  }

  /** In a scrape that resolves with posts, the browser requested exactly their endpoints. */
  lemma RequestsMatchPosts(subreddit: string, page: Page, rt: Runtime)
    requires page.setup == Ready && !page.closeRejects && TrySpec(subreddit, page, rt).Some?
    ensures RequestsSpec(page, rt) == EndpointsOf(PostsOf(subreddit, ScrapeSpec(subreddit, page, rt)))
  {
    if page.navigates && page.firstPost {
      FetchesMatchPosts(Slice(page.handles.value, 0, PostCap), rt, page.server);
    }
  }

  /**
   * The two differ only on the score: for a whitespace-only score the loop
   * gives `null`, while the extractor gives whatever `Number` makes of it
   * (0 in JavaScript).
   */
  lemma WhitespaceScoreDiverges(el: Element, rt: Runtime)
    requires Attr(el.score) != "" && AllWhitespace(Attr(el.score))
    ensures PostFields(el, rt).upvotes == None
    ensures ParseShredditElement(el, rt).upvotes == rt.number(Attr(el.score))
  {
    TrimEmptyIff(Attr(el.score));
  }
}

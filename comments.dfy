/**
 * `fetchPostComments` (src/utils/comments.ts): build the `.json?limit=5`
 * endpoint of a post, fetch it, and turn the listing into a tree of
 * `RedditComment`, keeping only `t1` nodes and at most five top-level comments.
 */
module Comments {
  import opened Wrappers
  import opened Js
  import opened Json
  import opened Types
  import opened Session

  const JsonSuffix := "/.json?limit=5"
  const TopLevelCap := 5

  /** The JSON endpoint of a post: one slash, then `.json?limit=5`. */
  function JsonUrl(postUrl: string): (r: string)
    ensures EndsWith(r, JsonSuffix)
    ensures |postUrl| < |r| && r[..|postUrl|] == postUrl
    ensures |r| == |postUrl| + |JsonSuffix| - (if EndsWith(postUrl, "/") then 1 else 0)
  {
    if EndsWith(postUrl, "/") then postUrl + JsonSuffix[1..] else postUrl + JsonSuffix
  }

  /** A trailing slash is not doubled: with or without it, the endpoint is the same. */
  lemma JsonUrlSlashInsensitive(postUrl: string)
    requires !EndsWith(postUrl, "/")
    ensures JsonUrl(postUrl + "/") == JsonUrl(postUrl)
  {
    assert EndsWith(postUrl + "/", "/");
    assert (postUrl + "/") + JsonSuffix[1..] == postUrl + JsonSuffix;
  }

  // ---------------------------------------------------------------------------
  // The specification of `parseNode`.

  /** The comment a node stands for: none unless its kind is `t1`. */
  function CommentOf(n: Node): Option<RedditComment>
    decreases n
  {
    if n.kind != Some("t1") then None
    else
      var replies := match n.replies
        case Absent => []
        case Listing(cs) => Accepted(cs);
      Some(RedditComment(n.author.GetOr("Unknown"), n.body.GetOr(""), replies))
  }

  /** The comments of the accepted nodes among `cs`, in order. */
  function Accepted(cs: seq<Node>): seq<RedditComment>
    decreases cs
  {
    if cs == [] then []
    else
      var before := Accepted(cs[..|cs| - 1]);
      match CommentOf(cs[|cs| - 1])
      case Some(c) => before + [c]
      case None => before
  }

  /** The nodes a listing holds (`?? []`). */
  function ChildrenOf(l: Listing): seq<Node> {
    match l
    case Absent => []
    case Listing(cs) => cs
  }

  /** A node is kept exactly when its kind is `t1`; missing body and author get defaults, present ones are kept. */
  lemma CommentFields(n: Node)
    ensures CommentOf(n).Some? <==> n.kind == Some("t1")
    ensures CommentOf(n).Some? ==>
      && CommentOf(n).value.author == (if n.author.Some? then n.author.value else "Unknown")
      && CommentOf(n).value.comment == (if n.body.Some? then n.body.value else "")
      && CommentOf(n).value.replies == Accepted(ChildrenOf(n.replies))
  {
  }

  /** Parsing distributes over concatenation: each node contributes on its own. */
  lemma {:induction false} AcceptedAppend(a: seq<Node>, b: seq<Node>)
    ensures Accepted(a + b) == Accepted(a) + Accepted(b)
    decreases |b|
  {
    if b == [] {
      assert a + b == a;
    } else {
      var b' := b[..|b| - 1];
      assert (a + b)[..|a + b| - 1] == a + b';
      assert (a + b)[|a + b| - 1] == b[|b| - 1];
      AcceptedAppend(a, b');
    }
  }

  /** A node that is not a comment contributes nothing, wherever it stands. */
  lemma NonCommentIgnored(a: seq<Node>, n: Node, b: seq<Node>)
    requires n.kind != Some("t1")
    ensures Accepted(a + [n] + b) == Accepted(a + b)
  {
    AcceptedAppend(a + [n], b);
    AcceptedAppend(a, [n]);
    AcceptedAppend(a, b);
    assert Accepted([n]) == [] by { assert [n][..0] == []; }
  }

  /** At most one comment per node. */
  lemma {:induction false} AcceptedShrinks(cs: seq<Node>)
    ensures |Accepted(cs)| <= |cs|
  {
    if cs != [] {
      AcceptedShrinks(cs[..|cs| - 1]);
    }
  }

  /** The accepted comments are exactly the comments of the nodes. */
  lemma {:induction false} AcceptedMembers(cs: seq<Node>, c: RedditComment)
    ensures c in Accepted(cs) <==> exists i :: 0 <= i < |cs| && CommentOf(cs[i]) == Some(c)
  {
    if cs != [] {
      var init := cs[..|cs| - 1];
      AcceptedMembers(init, c);
      if exists i :: 0 <= i < |init| && CommentOf(init[i]) == Some(c) {
        var i :| 0 <= i < |init| && CommentOf(init[i]) == Some(c);
        assert CommentOf(cs[i]) == Some(c);
      }
      if exists i :: 0 <= i < |cs| && CommentOf(cs[i]) == Some(c) {
        var i :| 0 <= i < |cs| && CommentOf(cs[i]) == Some(c);
        if i < |init| { assert CommentOf(init[i]) == Some(c); }
      }
    }
  }

  // ---------------------------------------------------------------------------
  // The loops of the source.

  /** `parseNode`: the replies are collected child by child. */
  method ParseNode(n: Node) returns (r: Option<RedditComment>)
    ensures r == CommentOf(n)
    decreases n
  {
    if n.kind != Some("t1") {
      return None;
    }
    var body := n.body.GetOr("");
    var author := n.author.GetOr("Unknown");
    var repliesData: seq<Node> := [];
    if n.replies.Listing? {
      repliesData := n.replies.children;
    }
    var replies: seq<RedditComment> := [];
    for i := 0 to |repliesData|
      invariant replies == Accepted(repliesData[..i])
    {
      var parsed := ParseNode(repliesData[i]);
      assert repliesData[..i + 1][..i] == repliesData[..i];
      if parsed.Some? {
        replies := replies + [parsed.value];
      }
    }
    assert repliesData[..|repliesData|] == repliesData;
    r := Some(RedditComment(author, body, replies));
  }

  /** The top-level loop: stop once five comments are collected. */
  method CollectTopLevel(listing: seq<Node>) returns (topLevel: seq<RedditComment>)
    ensures topLevel == Slice(Accepted(listing), 0, TopLevelCap)
    ensures |topLevel| <= TopLevelCap
  {
    topLevel := [];
    var i := 0;
    while i < |listing|
      invariant 0 <= i <= |listing|
      invariant topLevel == Accepted(listing[..i])
      invariant |topLevel| <= TopLevelCap
    {
      if |topLevel| >= TopLevelCap {
        break;
      }
      var parsed := ParseNode(listing[i]);
      assert listing[..i + 1][..i] == listing[..i];
      if parsed.Some? {
        topLevel := topLevel + [parsed.value];
      }
      i := i + 1;
    }
    AcceptedAppend(listing[..i], listing[i..]);
    assert listing[..i] + listing[i..] == listing;
  }

  /** The comments `fetchPostComments` returns for a response. */
  function CommentsFrom(response: Response): (r: seq<RedditComment>)
    ensures |r| <= TopLevelCap
    ensures response.JsonArray? && |response.items| >= 2 ==>
      r == Slice(Accepted(ChildrenOf(response.items[1])), 0, TopLevelCap)
  {
    match response
    case JsonArray(items) =>
      if |items| < 2 then [] else Slice(Accepted(ChildrenOf(items[1])), 0, TopLevelCap)
    case _ => []
  }

  /** Every failure of the fetch yields no comments. */
  lemma FailuresYieldNothing(response: Response)
    requires response.Threw? || response.NotOk? || response.NonArray? || (response.JsonArray? && |response.items| < 2)
    ensures CommentsFrom(response) == []
  {
  }

  /** `fetchPostComments(page, postUrl)`: one GET to the JSON endpoint, then the listing is parsed. */
  method FetchPostComments(browser: Browser, postUrl: string) returns (comments: seq<RedditComment>)
    requires browser.open
    modifies browser
    ensures browser.open && browser.requests == old(browser.requests) + [JsonUrl(postUrl)]
    ensures comments == CommentsFrom(browser.server(JsonUrl(postUrl)))
  {
    var jsonUrl := JsonUrl(postUrl);
    var response := browser.Get(jsonUrl);
    match response
    case Threw =>
      return [];
    case NotOk =>
      return [];
    case NonArray =>
      return [];
    case JsonArray(data) =>
      if |data| < 2 {
        return [];
      }
      var commentsListing := ChildrenOf(data[1]);
      comments := CollectTopLevel(commentsListing);
  }
}

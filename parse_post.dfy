/**
 * `parseShredditElement` (src/utils/parsePost.ts): each field of a post,
 * read from the attributes of a `shreddit-post` element with a fixed chain
 * of fallbacks.
 */
module ParsePost {
  import opened Wrappers
  import opened Js
  import opened Time
  import opened Types

  /** The `datetime` and `title` attributes of the `faceplate-timeago time` element. */
  datatype TimeTag = TimeTag(datetime: Option<string>, title: Option<string>)

  /**
   * A `shreddit-post` element: its attributes (None when `getAttribute`
   * returns null), the text of its `a[slot="title"]` child, and its
   * `faceplate-timeago time` child, when these exist.
   */
  datatype Element = Element(
    postTitle: Option<string>, author: Option<string>, score: Option<string>,
    permalink: Option<string>, createdTimestamp: Option<string>,
    titleLink: Option<string>, time: Option<TimeTag>)

  const Origin := "https://www.reddit.com"

  /** `getAttribute(name) || ''`: a null or empty attribute gives `''`. */
  function Attr(a: Option<string>): string {
    if a.Some? && a.value != "" then a.value else ""
  }

  /** The two fallback strings carry no surrounding whitespace. */
  lemma DefaultsTrimmed()
    ensures IsTrimmed("Untitled") && IsTrimmed("Unknown")
  {
    assert "Untitled"[0] == 'U' && "Untitled"[7] == 'd';
    assert "Unknown"[0] == 'U' && "Unknown"[6] == 'n';
  }

  /** The post title: attribute, then link text, then `"Untitled"`. */
  function TitleOf(el: Element): (r: string)
    ensures r != "" && IsTrimmed(r)
  {
    var fromAttr := Trim(Attr(el.postTitle));
    if fromAttr != "" then fromAttr
    else
      var fromLink := match el.titleLink case Some(text) => Trim(text) case None => "";
      if fromLink != "" then fromLink
      else
        DefaultsTrimmed();
        "Untitled"
  }

  /** The author: the trimmed attribute, or `"Unknown"`. */
  function AuthorOf(el: Element): (r: string)
    ensures r != "" && IsTrimmed(r)
  {
    var fromAttr := Trim(Attr(el.author));
    if fromAttr != "" then fromAttr
    else
      DefaultsTrimmed();
      "Unknown"
  }

  /** `origin + permalink`, or `""` without a permalink. */
  function UrlOf(el: Element): (r: string)
    ensures r != "" <==> Attr(el.permalink) != ""
    ensures r != "" ==> |Origin| < |r| && r[..|Origin|] == Origin && r[|Origin|..] == Attr(el.permalink)
  {
    var permalink := Attr(el.permalink);
    if permalink != "" then Origin + permalink else ""
  }

  /** The fallback timestamp text: `datetime`, else `title`, else `""`. */
  function FallbackStamp(el: Element): string {
    match el.time
    case None => ""
    case Some(t) => if Attr(t.datetime) != "" then Attr(t.datetime) else Attr(t.title)
  }

  /** `posted_at`: the normalised `created-timestamp`, else the normalised fallback. */
  function PostedAt(el: Element, rt: Runtime): (r: string)
    ensures Trim(Attr(el.createdTimestamp)) != "" ==>
      r == NormalizeTimestamp(Attr(el.createdTimestamp), rt.date)
    ensures Trim(Attr(el.createdTimestamp)) == "" ==>
      r == NormalizeTimestamp(FallbackStamp(el), rt.date)
    ensures r == "" <==> Trim(Attr(el.createdTimestamp)) == "" && Trim(FallbackStamp(el)) == ""
  {
    var iso := NormalizeTimestamp(Attr(el.createdTimestamp), rt.date);
    if iso != "" then iso else NormalizeTimestamp(FallbackStamp(el), rt.date)
  }

  /** `parseShredditElement(el)`. The score is converted untrimmed. */
  function ParseShredditElement(el: Element, rt: Runtime): (p: ParsedPost)
    ensures p.title != "" && IsTrimmed(p.title)
    ensures p.author != "" && IsTrimmed(p.author)
    ensures p.url != "" <==> Attr(el.permalink) != ""
    ensures p.url != "" ==> |Origin| < |p.url| && p.url[..|Origin|] == Origin && p.url[|Origin|..] == Attr(el.permalink)
    ensures p.posted_at == "" <==> Trim(Attr(el.createdTimestamp)) == "" && Trim(FallbackStamp(el)) == ""
    ensures p.upvotes.None? <==> Attr(el.score) == "" || rt.number(Attr(el.score)).None?
    ensures p.upvotes.Some? ==> p.upvotes == rt.number(Attr(el.score))
  {
    var scoreAttr := Attr(el.score);
    var upvotes := if scoreAttr != "" then rt.number(scoreAttr) else None;
    ParsedPost(TitleOf(el), AuthorOf(el), upvotes, UrlOf(el), PostedAt(el, rt))
  }

  /** No title attribute and no title link: the title is `"Untitled"`. */
  lemma UntitledDefault(el: Element)
    requires Trim(Attr(el.postTitle)) == "" && el.titleLink == None
    ensures TitleOf(el) == "Untitled"
  {
  }

  /** A score that does not convert (NaN, e.g. `"abc"`) gives `null` upvotes. */
  lemma UnconvertibleScore(el: Element, rt: Runtime)
    requires rt.number(Attr(el.score)) == None
    ensures ParseShredditElement(el, rt).upvotes == None
  {
  }

  /**
   * A whitespace-only `datetime` attribute is truthy, so it is chosen over
   * `title` and normalises to `""`: `posted_at` is then `""` whatever `title` holds.
   */
  lemma BlankDatetimeHidesTitle(el: Element, rt: Runtime)
    requires Trim(Attr(el.createdTimestamp)) == ""
    requires el.time.Some? && Attr(el.time.value.datetime) != "" && AllWhitespace(Attr(el.time.value.datetime))
    ensures PostedAt(el, rt) == ""
  {
    TrimEmptyIff(Attr(el.time.value.datetime));
  }
}

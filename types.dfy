/** The result shapes of src/types.ts. */
module Types {
  import opened Wrappers

  /** `RedditComment`: author, comment text and nested replies. */
  datatype RedditComment = RedditComment(author: string, comment: string, replies: seq<RedditComment>)

  /** `ParsedPost`: a post's fields without its comments; `upvotes` is `number | null`. */
  datatype ParsedPost = ParsedPost(title: string, author: string, upvotes: Option<int>, url: string, posted_at: string)

  /** `ScrapedPost = ParsedPost & { comments }`. */
  datatype ScrapedPost = ScrapedPost(
    title: string, author: string, upvotes: Option<int>, url: string, posted_at: string,
    comments: seq<RedditComment>)

  /** `ScrapeResult = Record<string, ScrapedPost[]>`. */
  type ScrapeResult = map<string, seq<ScrapedPost>>

  function WithComments(p: ParsedPost, comments: seq<RedditComment>): ScrapedPost {
    ScrapedPost(p.title, p.author, p.upvotes, p.url, p.posted_at, comments)
  }
}

# SubSpy scraper core in Dafny

SubSpy scrapes the newest posts of a subreddit with a headless browser. It returns
`{ [subreddit]: posts }`, where each post holds a title, author, upvotes, URL and
timestamp, plus up to five top-level comments fetched from Reddit's JSON endpoint. This
project models the four files that do the work and proves properties about them:

- `normalizeTimestampToISO` (module `Time`). It trims the input, then tries the strict
  `YYYY-MM-DDTHH:MM:SS.mmm…` pattern with its four suffix alternatives, then the date
  library, then gives back the trimmed input.
- `parseShredditElement` (module `ParsePost`). It reads every field of a
  `shreddit-post` element through its chain of fallbacks.
- `fetchPostComments` and `parseNode` (module `Comments`). They build the
  `/.json?limit=5` endpoint, interpret the JSON response, and fold the listing into a
  comment tree. Only `t1` nodes are kept, and the top-level loop stops at five.
- `scrapeSubreddit` (module `Scrape`). It covers the setup steps, navigation, the
  first-post wait, the scroll loop, the first ten handles, the per-post assembly with
  its comment fetch, the catch that degrades to `[]`, and the `finally` that closes
  the browser.

Supporting modules:

- `Wrappers`: `Option`.
- `Js`: `String.prototype.trim` with the ECMAScript whitespace set and
  `Array.prototype.slice`. It also holds `Runtime`, which bundles the two library
  conversions, `Number(...)` and `new Date(...).toISOString()`, as function parameters.
- `Json`: the shape of the comments response.
- `Types`: the result records of `src/types.ts`.
- `Session`: a `Browser` class with an `open` flag and the log of GET requests.

How the page is modelled: the page, as the scraper observes it, is an input value
(`Scrape.Page`). It says which setup step throws, whether navigation and the first-post
wait succeed, and the post count each scroll round sees. It also holds the element
handles (a handle can throw) and what the comment endpoint answers for each URL.

Behaviour of the code worth knowing:

- `chromium.launch`, `newContext` and `newPage` run before the `try`. If one of them
  throws, the promise rejects. After a `newContext` or `newPage` failure the browser
  is left open (`ScrapeSubreddit`'s contract states both).
- `browser.close()` runs in the `finally`. If it rejects, that rejection replaces the
  result of the `try`, so the scrape rejects even after a successful setup
  (`Scrape.ResultShape`).
- `posted_at` can be text that is neither empty nor a date. When the strict pattern and
  the date library both fail, the normaliser returns the trimmed raw text
  (`Time.Fallback`, `Time.NotADate`).
- In `parseShredditElement` the score is converted untrimmed, so a whitespace-only score converts to whatever
  `Number` gives (`0`). The loop in `scrape.ts` trims first and gives `null`
  (`Scrape.WhitespaceScoreDiverges`).
- The fallback timestamp is `datetime || title`. A whitespace-only `datetime` is truthy,
  so it is chosen, and it normalises to `""` whatever `title` holds
  (`ParsePost.BlankDatetimeHidesTitle`).
- The `([+-]\d{4})` alternative of the timestamp pattern can never capture, because the
  `([+-]\d{2})(\d{2})` alternative before it accepts the same strings. The `match[5]`
  branch is therefore dead code (`Time.Group5NeverCaptures`).

## Model

| member | source | states |
|---|---|---|
| Js.Trim | src/utils/time.ts:2 | the result of `trim` has no whitespace at either end |
| Js.TrimIsInfix | src/utils/time.ts:2 | the trimmed string is an infix of the input, and only whitespace surrounds it |
| Js.TrimIdempotent | src/utils/time.ts:2 | trimming twice is trimming once |
| Js.TrimEmptyIff | src/utils/time.ts:3 | `trim` gives `""` exactly when every character is whitespace |
| Js.Slice | src/utils/scrape.ts:45 | `slice(start, end)` clamps both bounds to the length; it gives the element range when the bounds are in range, and its length and elements otherwise |
| Js.PrefixSlice | src/utils/scrape.ts:45 | `slice(0, n)` is the prefix of length `min(n, len)` |
| Time.DigitRunEnd | src/utils/time.ts:5 | the greedy `\d*` stops at the first non-digit or at the end, and everything it consumed is a digit |
| Time.Match | src/utils/time.ts:5 | no contract of its own: `raw.match(...)`, with the greedy fraction run and the suffix alternatives tried in source order; described by `MatchIff`, `Group5NeverCaptures` and `StrictRebuild` |
| Time.OffsetOf | src/utils/time.ts:9-17 | no contract of its own: the `let offset` chain, branch for branch; described by `OffsetIsCanonical` |
| Time.CanonicalOffset | src/utils/time.ts:9-17 | every suffix form becomes `Z` or `±HH:MM` |
| Time.NormalizeTimestamp | src/utils/time.ts:1-26 | the normaliser returns `""` exactly when the trimmed input is empty |
| Time.StrictSplitUnique | src/utils/time.ts:5 | on a strict string, the fraction digits end exactly where the suffix starts, so the split is unique |
| Time.Group5NeverCaptures | src/utils/time.ts:14-17 | no match ever sets group 5, so the `match[5]` branch is dead |
| Time.MatchIff | src/utils/time.ts:5 | the pattern matches exactly the strings that are a 23-character head, then digits, then an optional `Z`, `±HHMM` or `±HH:MM` |
| Time.StrictRebuild | src/utils/time.ts:7-18 | the captured groups rebuild the head and the canonical offset of the suffix |
| Time.OffsetIsCanonical | src/utils/time.ts:9-17 | the `let offset` selection gives the canonical offset of whichever suffix was matched |
| Time.StrictOutput | src/utils/time.ts:5-18 | a strict input normalises to its first 23 characters (extra fraction digits dropped) followed by the canonical offset |
| Time.StrictOutputIsCanonical | src/utils/time.ts:18 | the strict branch always produces head plus `Z` or `±HH:MM` |
| Time.CanonicalIsFixed | src/utils/time.ts:1-18 | a canonical timestamp normalises to itself |
| Time.StrictIdempotent | src/utils/time.ts:1-18 | normalising the output of the strict branch again changes nothing |
| Time.Fallback | src/utils/time.ts:20-22 | without a strict match, the output is the date library's ISO string if it accepts the input, otherwise the trimmed input |
| Time.NotADate | src/utils/time.ts:20-22 | `"not-a-date"` comes back unchanged when the date library rejects it |
| Comments.JsonUrl | src/utils/comments.ts:7 | the endpoint starts with the post URL and ends with `/.json?limit=5`, and a trailing slash is not doubled (length formula) |
| Comments.JsonUrlSlashInsensitive | src/utils/comments.ts:7 | the URL with or without a trailing slash gives the same endpoint |
| Comments.CommentOf | src/utils/comments.ts:21-32 | no contract of its own: the recursive `parseNode`; described by `CommentFields`, and `ParseNode` is proved equal to it |
| Comments.Accepted | src/utils/comments.ts:27-30 | no contract of its own: the parsed children, in order, skipping those that give `null`; described by `AcceptedAppend`, `AcceptedShrinks`, `AcceptedMembers` and `NonCommentIgnored` |
| Comments.ChildrenOf | src/utils/comments.ts:25 | no contract of its own: `x?.data?.children ?? []`; used by `CommentFields` and `CommentsFrom` |
| Comments.CommentFields | src/utils/comments.ts:21-32 | a node gives a comment exactly when its kind is `t1`; author defaults to `"Unknown"`, body to `""`, and replies are the accepted children |
| Comments.AcceptedAppend | src/utils/comments.ts:27-30 | parsing a list of children distributes over concatenation |
| Comments.NonCommentIgnored | src/utils/comments.ts:22 | a non-`t1` node contributes nothing, wherever it stands |
| Comments.AcceptedShrinks | src/utils/comments.ts:27-30 | at most one comment per child node |
| Comments.AcceptedMembers | src/utils/comments.ts:27-30 | a comment appears among the replies exactly when some child node parses to it |
| Comments.ParseNode | src/utils/comments.ts:21-32 | the loop over `repliesData` produces exactly the comment the node stands for, replies in order |
| Comments.CollectTopLevel | src/utils/comments.ts:34-39 | the top-level loop returns the first five accepted comments of the listing, in order |
| Comments.CommentsFrom | src/utils/comments.ts:16-40 | at most five comments; for an array of two or more elements, the first five accepted comments of the second element's children |
| Comments.FailuresYieldNothing | src/utils/comments.ts:16-18 | a throw, a non-OK status, a non-array or a short array yields `[]` |
| Comments.FetchPostComments | src/utils/comments.ts:5-44 | exactly one GET to the JSON endpoint, and the result is what `CommentsFrom` makes of the response |
| Session.Browser.Launch | src/utils/scrape.ts:7-11 | a fresh browser is open and has requested nothing |
| Session.Browser.Get | src/utils/comments.ts:8-14 | the answer is the endpoint's, and the URL is appended to the request log |
| Session.Browser.Close | src/utils/scrape.ts:89-91 | the browser is closed and the request log is unchanged |
| ParsePost.TitleOf | src/utils/parsePost.ts:11 | the title is never empty and never has surrounding whitespace |
| ParsePost.AuthorOf | src/utils/parsePost.ts:12 | the author is never empty and never has surrounding whitespace |
| ParsePost.UrlOf | src/utils/parsePost.ts:14 | the URL is empty exactly when the permalink is; otherwise it is the origin followed by the permalink |
| ParsePost.FallbackStamp | src/utils/parsePost.ts:20-21 | no contract of its own: `datetime`, else `title`, else `''` of the time element; described by `PostedAt` and `BlankDatetimeHidesTitle` |
| ParsePost.PostedAt | src/utils/parsePost.ts:17-23 | the created timestamp wins when non-blank, otherwise the fallback; `""` exactly when both are blank |
| ParsePost.ParseShredditElement | src/utils/parsePost.ts:4-26 | title and author are never empty and carry no surrounding whitespace; the URL is empty exactly when the permalink is, otherwise origin then permalink; `posted_at` is `""` exactly when both timestamps are blank; upvotes are `null` exactly when the score is empty or NaN, and otherwise `Number` of the untrimmed score |
| ParsePost.UntitledDefault | src/utils/parsePost.ts:11 | without a title attribute and a title link, the title is `"Untitled"` |
| ParsePost.UnconvertibleScore | src/utils/parsePost.ts:25 | a score that converts to NaN gives `null` upvotes |
| ParsePost.BlankDatetimeHidesTitle | src/utils/parsePost.ts:19-22 | any non-empty, whitespace-only `datetime` hides the `title` attribute, and `posted_at` is `""` |
| Scrape.ScrollUntilLoaded | src/utils/scrape.ts:33-41 | the loop runs at most ten rounds; every round before the exit saw fewer than ten posts; the loop exits on ten posts, on the budget, or on a throw |
| Scrape.ScrollOutcome | src/utils/scrape.ts:33-41 | no contract of its own: the reference definition of the scroll loop's exit (None on a throw); `ScrollUntilLoaded` is proved against it |
| Scrape.PostFields | src/utils/scrape.ts:63-75 | the loop's own reads give the extractor's title, author, URL and `posted_at` (title and author never empty); upvotes are `null` exactly when the score is missing, whitespace-only or NaN, and otherwise `Number` of the trimmed score |
| Scrape.LoopTitle | src/utils/scrape.ts:63 | no contract of its own: the loop's title read; proved equal to `TitleOf` by `LoopReadsAgree` |
| Scrape.LoopAuthor | src/utils/scrape.ts:64 | no contract of its own: the loop's author read; proved equal to `AuthorOf` by `LoopReadsAgree` |
| Scrape.LoopUrl | src/utils/scrape.ts:67 | no contract of its own: the loop's URL on the nullable permalink; proved equal to `UrlOf` by `LoopReadsAgree` |
| Scrape.LoopFallback | src/utils/scrape.ts:73 | no contract of its own: the two-query fallback; proved equal to `FallbackStamp` by `LoopFallbackAgrees` |
| Scrape.LoopPostedAt | src/utils/scrape.ts:70-75 | no contract of its own: the loop's timestamp; proved equal to `PostedAt` by `LoopReadsAgree` |
| Scrape.NullishIsAttr | src/utils/scrape.ts:63-64 | the nullish default `?? ''` and the falsy default (logical or with `''`) agree on every attribute |
| Scrape.LoopReadsAgree | src/utils/scrape.ts:63-75 | the inline reads of title, author, URL and timestamp (`??`, a doubled `faceplate-timeago time` query) equal `parseShredditElement`'s, and the trimmed score is the same under either default |
| Scrape.LoopFallbackAgrees | src/utils/scrape.ts:73 | the two-query fallback equals the extractor's: `datetime` if non-empty, else `title`, else `''` |
| Scrape.Attach | src/utils/scrape.ts:79-81 | the fields are kept, and comments are fetched exactly when the URL is non-empty (at most five) |
| Scrape.AssemblePost | src/utils/scrape.ts:56-81 | an assembled post has the element's URL, no comments without a URL, otherwise the endpoint's comments, at most five |
| Scrape.AttachComments | src/utils/scrape.ts:79 | the post is the fields with their comments, and exactly one request is issued when the URL is non-empty, none otherwise |
| Scrape.AssembleAll | src/utils/scrape.ts:55-82 | no contract of its own: the reference definition of the per-post loop (None once a handle throws); described by `AssembleSucceedsIff` and `AssembleAllPosts`, and `CollectPosts` is proved against it |
| Scrape.Fetches | src/utils/scrape.ts:79 | no contract of its own: the comment endpoints the loop requests up to the first throwing handle; described by `FetchesMatchPosts` and `StaleStops` |
| Scrape.AssembleSucceedsIff | src/utils/scrape.ts:55-82 | the loop completes exactly when no handle throws |
| Scrape.AssembleAllPosts | src/utils/scrape.ts:55-82 | a completed loop gives one post per handle, in handle order |
| Scrape.StaleStops | src/utils/scrape.ts:55-82 | a throwing handle ends the loop with no result and no request after it |
| Scrape.AssembleStep | src/utils/scrape.ts:55-82 | one more live handle adds one post, and one request when it has a URL |
| Scrape.CollectPosts | src/utils/scrape.ts:55-82 | the loop returns the assembled posts (None when a handle throws) and issues exactly the comment requests of the handles it reached |
| Scrape.TrySpec | src/utils/scrape.ts:18-88 | no contract of its own: the reference definition of the `try` block (None where the catch takes over); `TryBody` is proved against it |
| Scrape.RequestsSpec | src/utils/scrape.ts:18-88 | no contract of its own: the requests the `try` block issues; described by `RequestsMatchPosts` |
| Scrape.ScrapeSpec | src/utils/scrape.ts:6-92 | no contract of its own: how the promise settles; `ScrapeSubreddit` is proved against it, and `ResultShape`, `FailuresGiveEmpty` and `PostBounds` describe it |
| Scrape.TryBody | src/utils/scrape.ts:18-88 | the try block's result and its request log match the specification of every path |
| Scrape.ScrapeSubreddit | src/utils/scrape.ts:6-92 | a setup failure or a rejecting `browser.close()` rejects; otherwise the promise resolves (`[]` after any failure inside try); the browser is closed exactly when setup succeeded |
| Scrape.ResultShape | src/utils/scrape.ts:6-92 | the scrape rejects exactly when setup fails or the close in `finally` rejects, and a resolved result has the subreddit as its only key |
| Scrape.PostsInDocumentOrder | src/utils/scrape.ts:44-84 | a successful scrape yields `min(10, n)` posts, the i-th built from the i-th element |
| Scrape.SpecPosts | src/utils/scrape.ts:44-84 | any posts in the result are those the loop built from the first ten handles |
| Scrape.PostBounds | src/utils/scrape.ts:45-81 | at most ten posts, each with at most five top-level comments, and none without a URL has comments |
| Scrape.FailuresGiveEmpty | src/utils/scrape.ts:26-88 | a failed navigation, a missing first post, a throwing scroll or query, or a throwing handle gives `{ [subreddit]: [] }` |
| Scrape.FetchesMatchPosts | src/utils/scrape.ts:79 | the loop requests one endpoint per post with a URL, in post order |
| Scrape.RequestsMatchPosts | src/utils/scrape.ts:18-84 | in a scrape that resolves with posts, the browser requested exactly those posts' endpoints |
| Scrape.WhitespaceScoreDiverges | src/utils/scrape.ts:65-66 | for a whitespace-only score the loop gives `null`, while the extractor gives `Number` of the raw score |

## Left out

- Playwright I/O is reduced to the input `Scrape.Page` and the `Browser` request log. Not modelled: the browser process, launch arguments, user agent, headers, timeouts, how long the delays last, and the `window.scrollTo`/`scrollBy` effects on the page. A throw from a delay is modelled where it occurs: after navigation in `navigates`, in a scroll round as `ProbeThrew`, in a post round as a `Stale` handle.
- The comment endpoint's answer is a function of the URL alone (`Page.server`): two posts with the same permalink always get the same comments, and an answer never changes between requests.
- Time-outs and concurrency are not modelled. Each scroll round and each handle either answers or throws.
- `Number(...)` and `new Date(...).toISOString()` are abstract parameters (`Js.Runtime`). Only integral upvotes are modelled, and no floating point.
- The JSON response is pre-structured (`Json.Response`). `body`/`author` are given after `toString()`. A `null` node behaves like a node without a kind. A `children` value that is not iterable (which would throw inside the catch and give `[]`) is not represented.
- The `catch` in `normalizeTimestampToISO` (src/utils/time.ts:23-25) is unreachable for string inputs and is not modelled.
- The error message logged by `console.error` in `scrapeSubreddit` is not modelled.
- External cancellation of the promise is not modelled. After a rejected `browser.close()` the model still counts the browser as closed.
- The Express routes, the CLI entry point and the root `index.ts` are not part of this model.

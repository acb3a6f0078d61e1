/**
 * The parts of Reddit's comment-listing JSON that src/utils/comments.ts reads,
 * and the outcomes of the GET request that fetches it.
 */
module Json {
  import opened Wrappers

  /**
   * A listing node: `kind`, `data.body` and `data.author` (already converted
   * with `toString()`), and `data.replies?.data?.children`. A `null` node
   * behaves like a node without a kind.
   */
  datatype Node = Node(kind: Option<string>, body: Option<string>, author: Option<string>, replies: Listing)

  /** `x?.data?.children`: absent when any link of the chain is missing. */
  datatype Listing = Absent | Listing(children: seq<Node>)

  /**
   * What `page.request.get(url)` and `response.json()` yield.
   * `Threw`: the request or the JSON decoding raised; `NotOk`: a status
   * outside 200-299; `NonArray`: JSON that is not an array; `JsonArray`:
   * an array, each element given by its `data?.children`.
   */
  datatype Response = Threw | NotOk | NonArray | JsonArray(items: seq<Listing>)
}

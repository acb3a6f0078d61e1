/**
 * The browser session that `scrapeSubreddit` launches: whether it is still
 * open, and the GET requests issued through `page.request`. What the JSON
 * endpoint answers is fixed for the session.
 */
module Session {
  import opened Json

  class Browser {
    /** The answer of the JSON endpoint for each URL. */
    const server: string -> Response
    var open: bool
    /** Every URL requested so far, in order. */
    var requests: seq<string>

    /** `chromium.launch(...)`. */
    constructor Launch(server: string -> Response)
      ensures this.server == server && open && requests == []
    {
      this.server := server;
      open := true;
      requests := [];
    }

    /** `page.request.get(url, ...)`, together with `response.json()`. */
    method Get(url: string) returns (response: Response)
      requires open
      modifies this
      ensures response == server(url)
      ensures requests == old(requests) + [url] && open
    {
      response := server(url);
      requests := requests + [url];
    }

    /** `browser.close()`. */
    method Close()
      modifies this
      ensures !open && requests == old(requests)
    {
      open := false;
    }
  }
}

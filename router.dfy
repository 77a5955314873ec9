/** The fetch handler's synchronous decision (build/sw.js, the tests at the
    head of the `fetch` listener): which of four strategies a request gets. */
module Router {
  import opened Text

  /** The parts of an intercepted request the worker looks at: `verb` is
      the HTTP method, `url` the absolute URL, `destination` e.g. "document"
      for a page navigation. */
  datatype Request = Request(verb: string, url: string, destination: string)

  datatype Route =
    | PassThrough   // not intercepted: the handler returns without responding
    | Api           // network only, canned offline JSON on failure
    | EntryPoint    // cache-first, populating the Login partition
    | Default       // cache-first, populating the Dynamic partition

  /** The tests in the order the handler applies them. */
  function Classify(req: Request): (r: Route)
    ensures r == PassThrough <==> req.verb != "GET"
    ensures r == Api <==> req.verb == "GET" && Contains(req.url, "/api/")
    ensures r == EntryPoint <==>
      req.verb == "GET" && !Contains(req.url, "/api/")
      && (Contains(req.url, "/login") || EndsWith(req.url, "/"))
    ensures r == Default <==>
      req.verb == "GET" && !Contains(req.url, "/api/")
      && !Contains(req.url, "/login") && !EndsWith(req.url, "/")
  {
    if req.verb != "GET" then PassThrough
    else if Contains(req.url, "/api/") then Api
    else if Contains(req.url, "/login") || EndsWith(req.url, "/") then EntryPoint
    else Default
  }

  /** The API test comes first: a login endpoint under `/api/` is an API
      request, whatever precedes or follows it. */
  lemma ApiLoginIsApi(prefix: string, rest: string, destination: string)
    ensures Classify(Request("GET", prefix + "/api/login" + rest, destination)) == Api
  {
    assert prefix + "/api/login" + rest == prefix + "/api/" + ("login" + rest);
    ContainsPiece(prefix, "/api/", "login" + rest);
  }

  /** A GET whose URL has `/api/` anywhere is Api even when it also ends
      with `/` or mentions `/login`. */
  lemma ApiBeforeEntryPoint(prefix: string, rest: string, destination: string)
    ensures Classify(Request("GET", prefix + "/api/" + rest, destination)) == Api
  {
    ContainsPiece(prefix, "/api/", rest);
  }

  /** The login test is a substring test: `/loginx`, `/login/reset` and
      `/old/login.png` all match. */
  lemma LoginIsSubstringTest(prefix: string, rest: string, destination: string)
    requires !Contains(prefix + "/login" + rest, "/api/")
    ensures Classify(Request("GET", prefix + "/login" + rest, destination)) == EntryPoint
  {
    ContainsPiece(prefix, "/login", rest);
  }

  /** Every URL ending with `/` is an entry point, not only the root. */
  lemma TrailingSlashIsEntryPoint(prefix: string, destination: string)
    requires !Contains(prefix + "/", "/api/")
    ensures Classify(Request("GET", prefix + "/", destination)) == EntryPoint
  {
    EndsWithSuffix(prefix, "/");
  }
}

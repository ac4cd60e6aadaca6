/** What the handlers and gates read from an HTTP request. */
module Requests {
  import opened Wrappers

  /**
    A request header as the handlers see it: missing, present but not visible
    ASCII (so `HeaderValue::to_str` fails), or present with a string value.
  */
  datatype Header = Absent | Opaque | Text(value: string)

  /** The path part of a request URI, which ends where a query begins. */
  type UriPath = p: string | '?' !in p

  /**
    The parts of a request the core reads: its URI as path and optional query
    (`req.path()` is the first, `req.uri().to_string()` both), the
    `Authorization` header and the `X-Rename-To` header.
  */
  datatype Request = Request(path: UriPath, query: Option<string>, authorization: Header, renameTo: Header)

  /** `req.uri().to_string()`: the path, then `?` and the query when there is one. */
  function Uri(req: Request): (uri: string)
    ensures req.path <= uri
    ensures req.query.None? <==> uri == req.path
    ensures req.query.Some? ==> uri[|req.path|] == '?' && uri[|req.path| + 1..] == req.query.value
  {
    match req.query
    case None => req.path
    case Some(q) => req.path + "?" + q
  }

  /** Where the query of a URI string begins: the first `?`, or the end when there is none. */
  function QueryStart(u: string): (i: nat)
    ensures i <= |u| && '?' !in u[..i]
    ensures i < |u| ==> u[i] == '?'
  {
    if u == "" || u[0] == '?' then 0
    else
      var j := QueryStart(u[1..]);
      assert u[..j + 1] == [u[0]] + u[1..][..j];
      j + 1
  }

  /** The path of a URI string, as `http::Uri::path` reads it: everything before the first `?`. */
  function PathOf(u: string): string {
    u[..QueryStart(u)]
  }

  /** The query of a URI string, as `http::Uri::query` reads it: everything after the first `?`, if any. */
  function QueryOf(u: string): Option<string> {
    var i := QueryStart(u);
    if i == |u| then None else Some(u[i + 1..])
  }

  /** A string without `?`, followed by nothing or by a `?`, has its query start right after it. */
  lemma {:induction false} QueryStartAfterPath(p: string, rest: string)
    requires '?' !in p && (rest == [] || rest[0] == '?')
    ensures QueryStart(p + rest) == |p|
    decreases |p|
  {
    if p != [] {
      assert (p + rest)[1..] == p[1..] + rest;
      assert '?' !in p[1..] by {
        assert forall k :: 0 <= k < |p[1..]| ==> p[1..][k] == p[k + 1];
      }
      QueryStartAfterPath(p[1..], rest);
    }
  }

  /** Reading path and query back out of `req.uri().to_string()` gives the request's own path and query. */
  lemma UriSplitsBack(req: Request)
    ensures PathOf(Uri(req)) == req.path && QueryOf(Uri(req)) == req.query
  {
    match req.query
    case None =>
      QueryStartAfterPath(req.path, []);
      assert req.path + [] == req.path;
    case Some(q) =>
      QueryStartAfterPath(req.path, "?" + q);
      assert Uri(req) == req.path + ("?" + q);
  }

  /** `&req.path()[1..]`: the request path without its first character. */
  function Target(req: Request): (target: string)
    requires |req.path| > 0
    ensures [req.path[0]] + target == req.path
  {
    req.path[1..]
  }

  /** No stripped request path holds a `?`, so a recorded path that does is reached by no request. */
  lemma TargetHasNoQuery(req: Request)
    requires |req.path| > 0
    ensures '?' !in Target(req)
  {
    assert forall i :: 0 <= i < |Target(req)| ==> Target(req)[i] == req.path[i + 1];
  }
}

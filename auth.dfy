/**
  The two access gates of src/auth.rs. Each reads the `Authorization` header,
  runs one query against the metadata store and decides whether the request
  reaches the handler. The source decides `is_valid = results.is_empty()`; the
  intended decision is the opposite, and both are modelled so that the
  consequences of each can be stated.
*/
module Auth {
  import opened Wrappers
  import opened Requests

  /** Which decision the gates take: the source's, or the one it meant. */
  datatype Gates = AsWritten | Intended

  /** `SELECT "id" FROM users WHERE "key"=$1`: the ids of the users holding the key. */
  function KeyLookup(users: map<string, int>, key: string): (ids: set<int>)
    ensures ids == {} <==> key !in users
    ensures key in users ==> ids == {users[key]}
  {
    var ids := set k | k in users && k == key :: users[k];
    assert key in users ==> users[key] in ids;
    ids
  }

  /**
    `SELECT "id" FROM users JOIN uploads ON uploads."uploader"=users."id"
    WHERE uploads."file_path"=$1 AND users."key"=$2`: the id of the key's user
    when that user uploaded the path. A row whose uploader is NULL joins nothing.
  */
  function OwnershipJoin(users: map<string, int>, uploads: map<string, Option<int>>, path: string, key: string): (ids: set<int>)
    ensures ids == {} <==> !Owns(users, uploads, path, key)
    ensures Owns(users, uploads, path, key) ==> ids == {users[key]}
  {
    var ids := set k | k in users && k == key && path in uploads && uploads[path] == Some(users[k]) :: users[k];
    assert Owns(users, uploads, path, key) ==> users[key] in ids;
    ids
  }

  /** The key belongs to a user and that user is the recorded uploader of the path. */
  predicate Owns(users: map<string, int>, uploads: map<string, Option<int>>, path: string, key: string) {
    key in users && path in uploads && uploads[path] == Some(users[key])
  }

  /** `RequiresAuthMiddleware::call` as written: a usable key is admitted when its lookup is empty. */
  function RequiresAuthAsWritten(authorization: Header, users: map<string, int>): (admit: bool)
    ensures admit <==> authorization.Text? && authorization.value !in users
  {
    match authorization
    case Text(key) => KeyLookup(users, key) == {}
    case _ => false
  }

  /** `RequiresAuthMiddleware::call` as intended: a usable key is admitted when its lookup finds a user. */
  function RequiresAuthIntended(authorization: Header, users: map<string, int>): (admit: bool)
    ensures admit <==> authorization.Text? && authorization.value in users
  {
    match authorization
    case Text(key) => KeyLookup(users, key) != {}
    case _ => false
  }

  /** `RequiresOwnershipMiddleware::call` as written: admitted when the join of path and key is empty. */
  function RequiresOwnershipAsWritten(req: Request, users: map<string, int>, uploads: map<string, Option<int>>): (admit: bool)
    requires |req.path| > 0
    ensures admit <==> req.authorization.Text? && !Owns(users, uploads, Target(req), req.authorization.value)
  {
    var requestPath := Target(req);
    match req.authorization
    case Text(key) => OwnershipJoin(users, uploads, requestPath, key) == {}
    case _ => false
  }

  /** `RequiresOwnershipMiddleware::call` as intended: admitted when the key owns the path. */
  function RequiresOwnershipIntended(req: Request, users: map<string, int>, uploads: map<string, Option<int>>): (admit: bool)
    requires |req.path| > 0
    ensures admit <==> req.authorization.Text? && Owns(users, uploads, Target(req), req.authorization.value)
  {
    var requestPath := Target(req);
    match req.authorization
    case Text(key) => OwnershipJoin(users, uploads, requestPath, key) != {}
    case _ => false
  }

  /** The creation gate, in the chosen version. */
  function RequiresAuth(gates: Gates, authorization: Header, users: map<string, int>): bool {
    if gates == AsWritten then RequiresAuthAsWritten(authorization, users)
    else RequiresAuthIntended(authorization, users)
  }

  /** The ownership gate, in the chosen version. */
  function RequiresOwnership(gates: Gates, req: Request, users: map<string, int>, uploads: map<string, Option<int>>): bool
    requires |req.path| > 0
  {
    if gates == AsWritten then RequiresOwnershipAsWritten(req, users, uploads)
    else RequiresOwnershipIntended(req, users, uploads)
  }

  /** Both gates, in both versions, turn away a request whose header is missing or not a string. */
  lemma UnusableHeaderIsForbidden(gates: Gates, req: Request, users: map<string, int>, uploads: map<string, Option<int>>)
    requires |req.path| > 0
    requires !req.authorization.Text?
    ensures !RequiresAuth(gates, req.authorization, users)
    ensures !RequiresOwnership(gates, req, users, uploads)
  {
  }

  /** As written, the creation gate turns away every registered key and admits every unknown one. */
  lemma RegisteredKeyIsForbidden(key: string, users: map<string, int>)
    ensures RequiresAuthAsWritten(Text(key), users) <==> key !in users
    ensures RequiresAuthAsWritten(Text(key), users) != RequiresAuthIntended(Text(key), users)
  {
  }

  /** As written, the ownership gate turns away the owner and admits every other usable key. */
  lemma OwnerIsForbidden(req: Request, users: map<string, int>, uploads: map<string, Option<int>>)
    requires |req.path| > 0 && req.authorization.Text?
    ensures RequiresOwnershipAsWritten(req, users, uploads) != RequiresOwnershipIntended(req, users, uploads)
  {
  }

  /** The intended ownership gate admits only the recorded uploader, whose row the handlers then act on. */
  lemma IntendedOwnershipTargetsOwnedRow(req: Request, users: map<string, int>, uploads: map<string, Option<int>>)
    requires |req.path| > 0
    requires RequiresOwnershipIntended(req, users, uploads)
    ensures Target(req) in uploads && uploads[Target(req)] == Some(users[req.authorization.value])
  {
  }
}

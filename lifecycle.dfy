/**
  The four handlers of src/main.rs as transitions of the two stores, in the
  order the source performs its store calls, and each handler behind its gate
  from src/auth.rs. A failing step (an `.expect` or `.unwrap` that panics)
  ends the request with the effects of the earlier steps kept: the source
  rolls nothing back.
*/
module Lifecycle {
  import opened Wrappers
  import opened Paths
  import opened Requests
  import opened Auth
  import opened Stores

  /**
    Where `upload_file` takes the file name from: the whole URI with its query,
    as written, or the request path the other handlers and the gate use.
  */
  datatype Naming = UriName | PathName

  /** `BASE_URL`, whether `CF_ID` is set (`ENABLE_CF`), which gate decision runs, and the upload's name source. */
  datatype Config = Config(baseUrl: string, enableCf: bool, gates: Gates, naming: Naming)

  /** A plain-text body, the gates' empty 403, or a panic that ends the request. */
  datatype Response = Body(text: string) | Forbidden | Aborted(reason: Panic)

  /** Where a request panics: each `.expect`/`.unwrap` that can fail. */
  datatype Panic =
    | GateDatabase          // the gate's pool.get().unwrap() or query unwrap
    | CreatingDirectory     // "Error creating directory"
    | OpeningFile           // "Error opening file"
    | HandlerDatabase       // the handler's pool.get().unwrap() or execute unwrap
    | AuthorizationUnwrap   // the upload handler's Authorization header unwrap
    | StreamingBody         // "Error reading chunk" or "Error writing to file"
    | RemovingDirectory     // "Failed to remove directory"
    | RenameToUnwrap        // X-Rename-To to_str().unwrap()
    | MissingFileSegment    // the second split().next().unwrap()
    | RenamingFile          // "Error renaming file"
    | RequestingCdn         // "Error requesting CF" or the assert on status 200

  datatype Outcome = Outcome(state: State, response: Response)

  const NoValidPath := "No valid path given"
  const RenameNotSet := "X-Rename-To not set"

  /** `purge_cache`: a no-op without `CF_ID`; otherwise the URL goes to the CDN, which must answer 200. */
  function Purge(cfg: Config, s: State, url: string, fault: Fault, response: Response): Outcome {
    if !cfg.enableCf then Outcome(s, response)
    else
      var sent := s.(purged := s.purged + [url]);
      if fault == FailAt(PurgeRequest) then Outcome(sent, Aborted(RequestingCdn))
      else Outcome(sent, response)
  }

  /**
    Which user the insert's `(SELECT "id" FROM users WHERE "key"=$2)` yields:
    the single id the gate's key query finds, NULL when it finds none.
  */
  function LookupId(users: map<string, int>, key: string): (id: Option<int>)
    ensures id.None? <==> KeyLookup(users, key) == {}
    ensures id.Some? ==> KeyLookup(users, key) == {id.value}
  {
    if key in users then Some(users[key]) else None
  }

  /** As written: `parse_filename_from_uri(&req.uri().to_string())`, so a query ends up in the name. */
  function NameAsWritten(req: Request): (name: Option<string>)
    ensures req.query.None? ==> name == ParseFilename(req.path)
    ensures name.Some? ==> PlainName(name.value) && name.value in Split(Uri(req))
  {
    ParseFilename(Uri(req))
  }

  /** As intended: the file name of `req.path()`, which holds no query. */
  function NameIntended(req: Request): (name: Option<string>)
    ensures name.Some? ==> PlainName(name.value) && '?' !in name.value
  {
    SplitKeepsOut(req.path, '?');
    ParseFilename(req.path)
  }

  /** The name the configured upload handler takes. */
  function UploadName(naming: Naming, req: Request): Option<string> {
    match naming
    case UriName => NameAsWritten(req)
    case PathName => NameIntended(req)
  }

  /**
    `upload_file`: take the file name, answering "No valid path given" without
    one, then store the upload.
  */
  function Upload(cfg: Config, s: State, req: Request, ns: string, chunks: seq<Bytes>, fault: Fault): Outcome
    requires FreshNamespace(s, ns)
  {
    match UploadName(cfg.naming, req)
    case None => Outcome(s, Body(NoValidPath))
    case Some(name) => UploadNamed(cfg, s, req.authorization, ns, name, chunks, fault)
  }

  /**
    The store effects of `upload_file` once the name is known: create the
    namespace directory (and the upload directory too, since the creation is
    recursive), then the empty file, then record the upload.
  */
  function UploadNamed(cfg: Config, s: State, authorization: Header, ns: string, name: string, chunks: seq<Bytes>, fault: Fault): Outcome
  {
    if fault == FailAt(CreateDir) then Outcome(s, Aborted(CreatingDirectory))
    else if fault == FailAt(CreateFile) then
      Outcome(s.(rootExists := true, objects := s.objects[ns := map[]]), Aborted(OpeningFile))
    else RecordUpload(cfg, s.(rootExists := true, objects := s.objects[ns := map[name := []]]), authorization, ns, name, chunks, fault)
  }

  /**
    The rest of `upload_file` once the empty file `ns/name` exists: insert the
    row (reading the `Authorization` header), then append the body chunk by chunk.
  */
  function RecordUpload(cfg: Config, s: State, authorization: Header, ns: string, name: string, chunks: seq<Bytes>, fault: Fault): Outcome
  {
    var display := DisplayPath(ns, name);
    if fault == FailAt(Database) then Outcome(s, Aborted(HandlerDatabase))
    else if !authorization.Text? then Outcome(s, Aborted(AuthorizationUnwrap))
    else
      var inserted := s.(uploads := s.uploads[display := LookupId(s.users, authorization.value)]);
      var n := Written(chunks, fault);
      var written := inserted.(objects := s.objects[ns := map[name := Concat(chunks[..n])]]);
      if n < |chunks| then Outcome(written, Aborted(StreamingBody))
      else Outcome(written, Body(Url(cfg.baseUrl, display)))
  }

  /**
    `overwrite_file`: open the existing file at the stripped path for writing
    with truncation (there is no `create`), then store the body.
  */
  function Overwrite(cfg: Config, s: State, req: Request, chunks: seq<Bytes>, fault: Fault): Outcome
    requires |req.path| > 0 && StaysInUploadRoot(Target(req))
  {
    match Locate(Target(req))
    case None => Outcome(s, Aborted(OpeningFile))
    case Some((ns, f)) => OverwriteFile(cfg, s, Target(req), ns, f, chunks, fault)
  }

  /** The store effects of `overwrite_file` on file `f` of namespace `ns`: truncate, append, purge. */
  function OverwriteFile(cfg: Config, s: State, target: string, ns: string, f: string, chunks: seq<Bytes>, fault: Fault): Outcome
  {
    if fault == FailAt(OpenFile) || ns !in s.objects || f !in s.objects[ns] then
      Outcome(s, Aborted(OpeningFile))
    else
      var n := Written(chunks, fault);
      var written := s.(objects := s.objects[ns := s.objects[ns][f := Concat(chunks[..n])]]);
      if n < |chunks| then Outcome(written, Aborted(StreamingBody))
      else
        var url := Url(cfg.baseUrl, target);
        Purge(cfg, written, url, fault, Body(url))
  }

  /**
    `delete_file`: delete the row whose path is the stripped path, then the
    whole directory named by its first segment, then purge, and answer "OK".
    An empty first segment names the upload directory itself, and removing it
    fails once it is gone. A `.` segment names it too, as `UPLOAD_DIRECTORY/.`:
    `remove_dir_all` empties it and then fails on removing `.` itself.
  */
  function Delete(cfg: Config, s: State, req: Request, fault: Fault): Outcome
    requires |req.path| > 0 && FirstSegment(Target(req)) != ".."
  {
    var target := Target(req);
    var ns := FirstSegment(target);
    var atRoot := ns == "" || ns == ".";
    if fault == FailAt(Database) then Outcome(s, Aborted(HandlerDatabase))
    else
      var unlisted := s.(uploads := s.uploads - {target});
      if fault == FailAt(RemoveDir) || (atRoot && !s.rootExists) || (!atRoot && ns !in s.objects) then
        Outcome(unlisted, Aborted(RemovingDirectory))
      else if ns == "." then
        Outcome(unlisted.(objects := map[]), Aborted(RemovingDirectory))
      else
        var removed :=
          if ns == "" then unlisted.(rootExists := false, objects := map[])
          else unlisted.(objects := s.objects - {ns});
        Purge(cfg, removed, Url(cfg.baseUrl, target), fault, Body("OK"))
  }

  /** The part of a move request outside the model: a namespace segment that is not a plain name. */
  predicate MoveInScope(req: Request)
    requires |req.path| > 0
  {
    var segs := Split(Target(req));
    req.renameTo.Text? && ParseFilename(req.renameTo.value).Some? && |segs| >= 2 ==> PlainName(segs[0])
  }

  /**
    `move_file`: read `X-Rename-To` and its file name before anything else,
    split the stripped path into namespace and current name, then move.
  */
  function Move(cfg: Config, s: State, req: Request, fault: Fault): Outcome
    requires |req.path| > 0 && MoveInScope(req)
  {
    match req.renameTo
    case Absent => Outcome(s, Body(RenameNotSet))
    case Opaque => Outcome(s, Aborted(RenameToUnwrap))
    case Text(value) =>
      match ParseFilename(value)
      case None => Outcome(s, Body(NoValidPath))
      case Some(name) =>
        var segs := Split(Target(req));
        if |segs| < 2 then Outcome(s, Aborted(MissingFileSegment))
        else MoveFile(cfg, s, Target(req), segs[0], segs[1], name, fault)
  }

  /**
    The store effects of `move_file`: update the row `target` to `ns/name`,
    rename file `current` of namespace `ns` to `name`, purge the old URL and
    answer with the new one.
  */
  function MoveFile(cfg: Config, s: State, target: string, ns: string, current: string, name: string, fault: Fault): Outcome
  {
    var newShort := DisplayPath(ns, name);
    if fault == FailAt(Database) || (target in s.uploads && newShort != target && newShort in s.uploads) then
      Outcome(s, Aborted(HandlerDatabase))
    else
      var updated := s.(uploads := RenameKey(s.uploads, target, newShort));
      if fault == FailAt(Rename) || ns !in s.objects || current !in s.objects[ns] then
        Outcome(updated, Aborted(RenamingFile))
      else
        var moved := updated.(objects := s.objects[ns := RenameKey(s.objects[ns], current, name)]);
        Purge(cfg, moved, Url(cfg.baseUrl, target), fault, Body(Url(cfg.baseUrl, newShort)))
  }

  /** The gate's own query can fail, and only once the header is usable. */
  predicate GateFails(authorization: Header, fault: Fault) {
    authorization.Text? && fault == FailAt(GateQuery)
  }

  /** `POST` on any path, behind `RequiresAuth`. */
  function HandlePost(cfg: Config, s: State, req: Request, ns: string, chunks: seq<Bytes>, fault: Fault): Outcome
    requires FreshNamespace(s, ns)
  {
    if GateFails(req.authorization, fault) then Outcome(s, Aborted(GateDatabase))
    else if !RequiresAuth(cfg.gates, req.authorization, s.users) then Outcome(s, Forbidden)
    else Upload(cfg, s, req, ns, chunks, fault)
  }

  /** `PUT` on any path, behind `RequiresOwnership`. */
  function HandlePut(cfg: Config, s: State, req: Request, chunks: seq<Bytes>, fault: Fault): Outcome
    requires |req.path| > 0
    requires RequiresOwnership(cfg.gates, req, s.users, s.uploads) ==> StaysInUploadRoot(Target(req))
  {
    if GateFails(req.authorization, fault) then Outcome(s, Aborted(GateDatabase))
    else if !RequiresOwnership(cfg.gates, req, s.users, s.uploads) then Outcome(s, Forbidden)
    else Overwrite(cfg, s, req, chunks, fault)
  }

  /** `DELETE` on any path, behind `RequiresOwnership`. */
  function HandleDelete(cfg: Config, s: State, req: Request, fault: Fault): Outcome
    requires |req.path| > 0
    requires RequiresOwnership(cfg.gates, req, s.users, s.uploads) ==> FirstSegment(Target(req)) != ".."
  {
    if GateFails(req.authorization, fault) then Outcome(s, Aborted(GateDatabase))
    else if !RequiresOwnership(cfg.gates, req, s.users, s.uploads) then Outcome(s, Forbidden)
    else Delete(cfg, s, req, fault)
  }

  /** `PATCH` on any path, behind `RequiresOwnership`. */
  function HandlePatch(cfg: Config, s: State, req: Request, fault: Fault): Outcome
    requires |req.path| > 0
    requires RequiresOwnership(cfg.gates, req, s.users, s.uploads) ==> MoveInScope(req)
  {
    if GateFails(req.authorization, fault) then Outcome(s, Aborted(GateDatabase))
    else if !RequiresOwnership(cfg.gates, req, s.users, s.uploads) then Outcome(s, Forbidden)
    else Move(cfg, s, req, fault)
  }
}

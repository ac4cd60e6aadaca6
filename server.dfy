/**
  The running service of src/main.rs: one object holding the metadata store,
  the upload directory and the URLs sent to the CDN, whose request handlers
  change them step by step in the order the source does. Each method is proved
  to leave exactly the state, and give exactly the answer, of the matching
  transition in `Lifecycle`, where the properties of those transitions are stated.
*/
module Server {
  import opened Wrappers
  import opened Paths
  import opened Requests
  import opened Auth
  import opened Stores
  import opened Lifecycle
  import Properties

  class FileHost {
    /** `BASE_URL`, `ENABLE_CF` and the gate decision, fixed at start-up. */
    const config: Config
    var users: map<string, int>
    var uploads: map<string, Option<int>>
    var rootExists: bool
    var objects: map<string, map<string, Bytes>>
    var purged: seq<string>

    /** The current contents of the stores. */
    function Snapshot(): State
      reads this
    {
      State(users, uploads, rootExists, objects, purged)
    }

    /** Rows and files agree and every name on disk is plain. */
    ghost predicate Valid()
      reads this
    {
      Consistent(Snapshot()) && WellNamed(objects)
    }

    /** The service starts on whatever the database and the upload directory already hold. */
    constructor(config: Config, initial: State)
      ensures this.config == config && Snapshot() == initial
    {
      this.config := config;
      users := initial.users;
      uploads := initial.uploads;
      rootExists := initial.rootExists;
      objects := initial.objects;
      purged := initial.purged;
    }

    /** `purge_cache`. */
    method PurgeCache(url: string, fault: Fault, response: Response) returns (resp: Response)
      modifies this`purged
      ensures Outcome(Snapshot(), resp) == Purge(config, old(Snapshot()), url, fault, response)
    {
      if !config.enableCf {
        return response;
      }
      purged := purged + [url];
      if fault == FailAt(PurgeRequest) {
        return Aborted(RequestingCdn);
      }
      return response;
    }

    /**
      The `while let Some(chunk) = payload.next()` loop: append the chunks to the
      file, which starts empty, until the body ends or a chunk fails.
    */
    method WriteBody(ns: string, name: string, chunks: seq<Bytes>, fault: Fault) returns (n: nat)
      requires ns in objects && name in objects[ns] && objects[ns][name] == []
      modifies this`objects
      ensures n == Written(chunks, fault)
      ensures objects == old(objects)[ns := old(objects)[ns][name := Concat(chunks[..n])]]
    {
      ghost var base := objects;
      assert base[ns := base[ns][name := Concat(chunks[..0])]] == base by {
        assert chunks[..0] == [];
        assert base[ns][name := []] == base[ns];
      }
      n := 0;
      while n < |chunks|
        invariant n <= |chunks|
        invariant forall j: nat :: j < n ==> !ChunkFails(fault, j)
        invariant objects == base[ns := base[ns][name := Concat(chunks[..n])]]
      {
        if ChunkFails(fault, n) {
          return;
        }
        ConcatAppend(chunks[..n], chunks[n]);
        assert chunks[..n + 1] == chunks[..n] + [chunks[n]];
        objects := objects[ns := objects[ns][name := objects[ns][name] + chunks[n]]];
        assert objects[ns] == base[ns][name := Concat(chunks[..n + 1])];
        n := n + 1;
      }
    }

    /** `upload_file`, with `ns` the fresh uuid it draws. */
    method Upload(req: Request, ns: string, chunks: seq<Bytes>, fault: Fault) returns (resp: Response)
      requires FreshNamespace(Snapshot(), ns)
      modifies this
      ensures Outcome(Snapshot(), resp) == Lifecycle.Upload(config, old(Snapshot()), req, ns, chunks, fault)
    {
      var name := UploadName(config.naming, req);
      if name.None? {
        return Body(NoValidPath);
      }
      resp := StoreUpload(req.authorization, ns, name.value, chunks, fault);
    }

    /** The store calls of `upload_file`: create the directory and the empty file, then record. */
    method StoreUpload(authorization: Header, ns: string, name: string, chunks: seq<Bytes>, fault: Fault) returns (resp: Response)
      modifies this
      ensures Outcome(Snapshot(), resp) == UploadNamed(config, old(Snapshot()), authorization, ns, name, chunks, fault)
    {
      if fault == FailAt(CreateDir) {
        return Aborted(CreatingDirectory);
      }
      rootExists := true;
      objects := objects[ns := map[]];
      if fault == FailAt(CreateFile) {
        return Aborted(OpeningFile);
      }
      objects := objects[ns := map[name := []]];
      assert Snapshot() == old(Snapshot()).(rootExists := true, objects := old(objects)[ns := map[name := []]]);
      resp := Record(authorization, ns, name, chunks, fault);
    }

    /** The row insert and the body of `upload_file`, once the empty file exists. */
    method Record(authorization: Header, ns: string, name: string, chunks: seq<Bytes>, fault: Fault) returns (resp: Response)
      requires ns in objects && objects[ns] == map[name := []]
      modifies this
      ensures Outcome(Snapshot(), resp) == RecordUpload(config, old(Snapshot()), authorization, ns, name, chunks, fault)
    {
      var display := DisplayPath(ns, name);
      if fault == FailAt(Database) {
        return Aborted(HandlerDatabase);
      }
      if !authorization.Text? {
        return Aborted(AuthorizationUnwrap);
      }
      uploads := uploads[display := LookupId(users, authorization.value)];
      var n := WriteBody(ns, name, chunks, fault);
      assert map[name := []][name := Concat(chunks[..n])] == map[name := Concat(chunks[..n])];
      if n < |chunks| {
        return Aborted(StreamingBody);
      }
      return Body(Url(config.baseUrl, display));
    }

    /** `overwrite_file`. */
    method Overwrite(req: Request, chunks: seq<Bytes>, fault: Fault) returns (resp: Response)
      requires |req.path| > 0 && StaysInUploadRoot(Target(req))
      modifies this
      ensures Outcome(Snapshot(), resp) == Lifecycle.Overwrite(config, old(Snapshot()), req, chunks, fault)
    {
      var target := req.path[1..];
      var location := Locate(target);
      if location.None? {
        return Aborted(OpeningFile);
      }
      var (ns, f) := location.value;
      resp := StoreOverwrite(target, ns, f, chunks, fault);
    }

    /** The store calls of `overwrite_file`: open with truncation, append, purge. */
    method StoreOverwrite(target: string, ns: string, f: string, chunks: seq<Bytes>, fault: Fault) returns (resp: Response)
      modifies this
      ensures Outcome(Snapshot(), resp) == OverwriteFile(config, old(Snapshot()), target, ns, f, chunks, fault)
    {
      if fault == FailAt(OpenFile) || ns !in objects || f !in objects[ns] {
        return Aborted(OpeningFile);
      }
      ghost var before := objects;
      objects := objects[ns := objects[ns][f := []]];
      var n := WriteBody(ns, f, chunks, fault);
      assert before[ns][f := []][f := Concat(chunks[..n])] == before[ns][f := Concat(chunks[..n])];
      assert objects == before[ns := before[ns][f := Concat(chunks[..n])]];
      if n < |chunks| {
        return Aborted(StreamingBody);
      }
      var url := Url(config.baseUrl, target);
      resp := PurgeCache(url, fault, Body(url));
    }

    /** `delete_file`. */
    method Delete(req: Request, fault: Fault) returns (resp: Response)
      requires |req.path| > 0 && FirstSegment(Target(req)) != ".."
      modifies this
      ensures Outcome(Snapshot(), resp) == Lifecycle.Delete(config, old(Snapshot()), req, fault)
    {
      var target := req.path[1..];
      var ns := FirstSegment(target);
      if fault == FailAt(Database) {
        return Aborted(HandlerDatabase);
      }
      uploads := uploads - {target};
      var atRoot := ns == "" || ns == ".";
      if fault == FailAt(RemoveDir) || (atRoot && !rootExists) || (!atRoot && ns !in objects) {
        return Aborted(RemovingDirectory);
      }
      if ns == "." {
        objects := map[];
        return Aborted(RemovingDirectory);
      }
      if ns == "" {
        rootExists := false;
        objects := map[];
      } else {
        objects := objects - {ns};
      }
      resp := PurgeCache(Url(config.baseUrl, target), fault, Body("OK"));
    }

    /** `move_file`. */
    method Move(req: Request, fault: Fault) returns (resp: Response)
      requires |req.path| > 0 && MoveInScope(req)
      modifies this
      ensures Outcome(Snapshot(), resp) == Lifecycle.Move(config, old(Snapshot()), req, fault)
    {
      if req.renameTo.Absent? {
        return Body(RenameNotSet);
      }
      if req.renameTo.Opaque? {
        return Aborted(RenameToUnwrap);
      }
      var name := ParseFilename(req.renameTo.value);
      if name.None? {
        return Body(NoValidPath);
      }
      var target := req.path[1..];
      var segs := Split(target);
      if |segs| < 2 {
        return Aborted(MissingFileSegment);
      }
      resp := StoreMove(target, segs[0], segs[1], name.value, fault);
    }

    /** The store calls of `move_file`: update the row, rename the file, purge the old URL. */
    method StoreMove(target: string, ns: string, current: string, name: string, fault: Fault) returns (resp: Response)
      modifies this
      ensures Outcome(Snapshot(), resp) == MoveFile(config, old(Snapshot()), target, ns, current, name, fault)
    {
      var newShort := DisplayPath(ns, name);
      if fault == FailAt(Database) || (target in uploads && newShort != target && newShort in uploads) {
        return Aborted(HandlerDatabase);
      }
      uploads := RenameKey(uploads, target, newShort);
      if fault == FailAt(Rename) || ns !in objects || current !in objects[ns] {
        return Aborted(RenamingFile);
      }
      objects := objects[ns := RenameKey(objects[ns], current, name)];
      resp := PurgeCache(Url(config.baseUrl, target), fault, Body(Url(config.baseUrl, newShort)));
    }

    /** `POST *` behind `RequiresAuth`; unless the row insert fails, it keeps the stores in step. */
    method HandlePost(req: Request, ns: string, chunks: seq<Bytes>, fault: Fault) returns (resp: Response)
      requires FreshNamespace(Snapshot(), ns)
      modifies this
      ensures Outcome(Snapshot(), resp) == Lifecycle.HandlePost(config, old(Snapshot()), req, ns, chunks, fault)
      ensures old(Valid()) && fault != FailAt(Database) ==> Valid()
    {
      ghost var before := Snapshot();
      if GateFails(req.authorization, fault) {
        return Aborted(GateDatabase);
      }
      if !RequiresAuth(config.gates, req.authorization, users) {
        return Forbidden;
      }
      resp := Upload(req, ns, chunks, fault);
      if Consistent(before) && WellNamed(before.objects) && fault != FailAt(Database) {
        Properties.PostKeepsConsistency(config, before, req, ns, chunks, fault);
      }
    }

    /** `PUT *` behind `RequiresOwnership`; whatever fails, it keeps the stores in step. */
    method HandlePut(req: Request, chunks: seq<Bytes>, fault: Fault) returns (resp: Response)
      requires |req.path| > 0
      requires RequiresOwnership(config.gates, req, users, uploads) ==> StaysInUploadRoot(Target(req))
      modifies this
      ensures Outcome(Snapshot(), resp) == Lifecycle.HandlePut(config, old(Snapshot()), req, chunks, fault)
      ensures old(Valid()) ==> Valid()
    {
      ghost var before := Snapshot();
      if GateFails(req.authorization, fault) {
        return Aborted(GateDatabase);
      }
      if !RequiresOwnership(config.gates, req, users, uploads) {
        return Forbidden;
      }
      resp := Overwrite(req, chunks, fault);
      if Consistent(before) && WellNamed(before.objects) {
        Properties.OverwriteKeepsConsistency(config, before, req, chunks, fault);
      }
    }

    /** `DELETE *` behind `RequiresOwnership`; behind the intended gate, unless removing the directory fails, it keeps the stores in step. */
    method HandleDelete(req: Request, fault: Fault) returns (resp: Response)
      requires |req.path| > 0
      requires RequiresOwnership(config.gates, req, users, uploads) ==> FirstSegment(Target(req)) != ".."
      modifies this
      ensures Outcome(Snapshot(), resp) == Lifecycle.HandleDelete(config, old(Snapshot()), req, fault)
      ensures old(Valid()) && config.gates == Intended && fault != FailAt(RemoveDir) ==> Valid()
    {
      ghost var before := Snapshot();
      if GateFails(req.authorization, fault) {
        return Aborted(GateDatabase);
      }
      if !RequiresOwnership(config.gates, req, users, uploads) {
        return Forbidden;
      }
      resp := Delete(req, fault);
      if Consistent(before) && WellNamed(before.objects) && config.gates == Intended && fault != FailAt(RemoveDir) {
        Properties.IntendedDeleteKeepsConsistency(config, before, req, fault);
      }
    }

    /** `PATCH *` behind `RequiresOwnership`; behind the intended gate, unless the rename fails, it keeps the stores in step. */
    method HandlePatch(req: Request, fault: Fault) returns (resp: Response)
      requires |req.path| > 0
      requires RequiresOwnership(config.gates, req, users, uploads) ==> MoveInScope(req)
      modifies this
      ensures Outcome(Snapshot(), resp) == Lifecycle.HandlePatch(config, old(Snapshot()), req, fault)
      ensures old(Valid()) && config.gates == Intended && fault != FailAt(Rename) ==> Valid()
    {
      ghost var before := Snapshot();
      if GateFails(req.authorization, fault) {
        return Aborted(GateDatabase);
      }
      if !RequiresOwnership(config.gates, req, users, uploads) {
        return Forbidden;
      }
      resp := Move(req, fault);
      if Consistent(before) && WellNamed(before.objects) && config.gates == Intended && fault != FailAt(Rename) {
        Properties.IntendedPatchKeepsConsistency(config, before, req, fault);
      }
    }
  }
}

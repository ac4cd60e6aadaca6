/**
  What the handlers promise: their exact store effects on success, the early
  exits that change nothing, and that rows and files stay in step.
*/
module Properties {
  import opened Wrappers
  import opened Paths
  import opened Requests
  import opened Auth
  import opened Stores
  import opened Lifecycle

  /** The namespace of an existing row holds exactly the row's file. */
  lemma RowNamespace(s: State, target: string)
    requires Consistent(s) && target in s.uploads
    ensures |Split(target)| == 2 && target == DisplayPath(Split(target)[0], Split(target)[1])
    ensures Split(target)[0] in s.objects && s.objects[Split(target)[0]].Keys == {Split(target)[1]}
  {
    TwoPiecesAreDisplayPath(target);
  }

  // Upload

  /** An upload without a file name answers "No valid path given" and changes nothing. */
  lemma UploadWithoutFileName(cfg: Config, s: State, req: Request, ns: string, chunks: seq<Bytes>, fault: Fault)
    requires FreshNamespace(s, ns) && UploadName(cfg.naming, req).None?
    ensures Upload(cfg, s, req, ns, chunks, fault) == Outcome(s, Body(NoValidPath))
  {
  }

  /**
    A successful upload adds exactly the new namespace, holding exactly one file
    with the whole body, and exactly one row for it, and answers with its URL.
    The upload directory exists afterwards.
  */
  lemma UploadSucceeds(cfg: Config, s: State, req: Request, ns: string, chunks: seq<Bytes>)
    requires FreshNamespace(s, ns) && UploadName(cfg.naming, req).Some? && req.authorization.Text?
    ensures var name := UploadName(cfg.naming, req).value;
            var display := DisplayPath(ns, name);
            var o := Upload(cfg, s, req, ns, chunks, NoFault);
            && o.response == Body(Url(cfg.baseUrl, display))
            && ns !in s.objects && o.state.objects == s.objects[ns := map[name := Concat(chunks)]]
            && display !in s.uploads
            && o.state.uploads == s.uploads[display := LookupId(s.users, req.authorization.value)]
            && o.state.users == s.users && o.state.purged == s.purged && o.state.rootExists
  {
    assert chunks[..|chunks|] == chunks;
  }

  /**
    `t` differs from `s` at most in namespace `ns`, which holds at most the file
    `name` with a prefix of `body`, and in the row `ns/name`, which gets `id`;
    the upload directory exists once `ns` does.
  */
  ghost predicate OnlyOwnChanged(s: State, t: State, ns: string, name: string, body: Bytes, id: Option<int>) {
    && t.objects.Keys <= s.objects.Keys + {ns}
    && (forall other :: other in s.objects ==> other in t.objects && t.objects[other] == s.objects[other])
    && (ns in t.objects ==> t.objects[ns].Keys <= {name})
    && (ns in t.objects && name in t.objects[ns] ==> t.objects[ns][name] <= body)
    && (t.uploads == s.uploads || t.uploads == s.uploads[DisplayPath(ns, name) := id])
    && t.users == s.users && t.purged == s.purged
    && t.rootExists == (s.rootExists || ns in t.objects)
  }

  /** Once the row is inserted, the store effects of an upload are the row and the written prefix of the body. */
  lemma RecordUploadEffects(cfg: Config, s: State, authorization: Header, ns: string, name: string, chunks: seq<Bytes>, fault: Fault)
    requires fault != FailAt(Database) && authorization.Text?
    ensures RecordUpload(cfg, s, authorization, ns, name, chunks, fault).state ==
            s.(uploads := s.uploads[DisplayPath(ns, name) := LookupId(s.users, authorization.value)],
               objects := s.objects[ns := map[name := Concat(chunks[..Written(chunks, fault)])]])
  {
  }

  /** Each state an upload can stop in changes only its own namespace and row. */
  lemma UploadShapes(s: State, t: State, ns: string, name: string, content: Bytes, body: Bytes, id: Option<int>)
    requires ns !in s.objects && t.users == s.users && t.purged == s.purged && content <= body
    requires t.uploads == s.uploads || t.uploads == s.uploads[DisplayPath(ns, name) := id]
    requires || (t.objects == s.objects && t.rootExists == s.rootExists)
             || (t.rootExists && (t.objects == s.objects[ns := map[]] || t.objects == s.objects[ns := map[name := content]]))
    ensures OnlyOwnChanged(s, t, ns, name, body, id)
  {
  }

  /**
    The states an upload can stop in: before or after the row, with no, an
    empty or a partly written file; once the directory is made, the upload
    directory exists too.
  */
  lemma UploadEndStates(cfg: Config, s: State, authorization: Header, ns: string, name: string, chunks: seq<Bytes>, fault: Fault)
    ensures var t := UploadNamed(cfg, s, authorization, ns, name, chunks, fault).state;
            var content := if fault == FailAt(Database) || !authorization.Text? then [] else Concat(chunks[..Written(chunks, fault)]);
            && t.users == s.users && t.purged == s.purged
            && (t.uploads == s.uploads || (authorization.Text? && t.uploads == s.uploads[DisplayPath(ns, name) := LookupId(s.users, authorization.value)]))
            && if fault == FailAt(CreateDir) then t.objects == s.objects && t.rootExists == s.rootExists
               else t.rootExists && (t.objects == s.objects[ns := map[]] || t.objects == s.objects[ns := map[name := content]])
  {
    if fault != FailAt(CreateDir) && fault != FailAt(CreateFile) && fault != FailAt(Database) && authorization.Text? {
      var created := s.(rootExists := true, objects := s.objects[ns := map[name := []]]);
      var file := map[name := Concat(chunks[..Written(chunks, fault)])];
      RecordUploadEffects(cfg, created, authorization, ns, name, chunks, fault);
      assert created.objects[ns := file] == s.objects[ns := file];
    }
  }

  /**
    Whatever step fails, storing an upload touches only its own namespace and
    its own row, which names the key's user, and the file holds a prefix of the body.
  */
  lemma UploadTouchesOnlyItsOwn(cfg: Config, s: State, authorization: Header, ns: string, name: string, chunks: seq<Bytes>, fault: Fault)
    requires FreshNamespace(s, ns)
    ensures DisplayPath(ns, name) !in s.uploads
    ensures var t := UploadNamed(cfg, s, authorization, ns, name, chunks, fault).state;
            var id := if authorization.Text? then LookupId(s.users, authorization.value) else None;
            OnlyOwnChanged(s, t, ns, name, Concat(chunks), id)
  {
    var t := UploadNamed(cfg, s, authorization, ns, name, chunks, fault).state;
    var id := if authorization.Text? then LookupId(s.users, authorization.value) else None;
    var content := if fault == FailAt(Database) || !authorization.Text? then [] else Concat(chunks[..Written(chunks, fault)]);
    UploadEndStates(cfg, s, authorization, ns, name, chunks, fault);
    assert [] <= Concat(chunks);
    ConcatPrefix(chunks, Written(chunks, fault));
    UploadShapes(s, t, ns, name, content, Concat(chunks), id);
  }

  /** Adding a fresh namespace with one file and the row for it keeps every row with its file. */
  lemma AddUploadKeepsRowsWithFiles(s: State, ns: string, name: string, t: State)
    requires RowsHaveFiles(s) && FreshNamespace(s, ns) && PlainName(name)
    requires t.uploads.Keys == s.uploads.Keys + {DisplayPath(ns, name)} && t.objects.Keys == s.objects.Keys + {ns}
    requires t.objects[ns].Keys == {name} && forall other :: other in s.objects ==> t.objects[other] == s.objects[other]
    ensures RowsHaveFiles(t)
  {
    DisplayPathSplits(ns, name);
    forall p | p in t.uploads
      ensures |Split(p)| == 2 && Split(p)[0] in t.objects && t.objects[Split(p)[0]].Keys == {Split(p)[1]}
    {
      if p != DisplayPath(ns, name) {
        assert p in s.uploads && Split(p)[0] in s.objects;
      }
    }
  }

  /** Adding a fresh namespace with one file and the row for it keeps every file with its row. */
  lemma AddUploadKeepsFilesWithRows(s: State, ns: string, name: string, t: State)
    requires FilesHaveRows(s) && WellNamed(s.objects) && FreshNamespace(s, ns) && PlainName(name)
    requires t.uploads.Keys == s.uploads.Keys + {DisplayPath(ns, name)} && t.objects.Keys == s.objects.Keys + {ns}
    requires t.objects[ns].Keys == {name} && forall other :: other in s.objects ==> t.objects[other] == s.objects[other]
    ensures FilesHaveRows(t) && WellNamed(t.objects)
  {
  }

  /** Adding a fresh namespace with one file and the row for it keeps the stores in step. */
  lemma AddUploadKeepsConsistency(s: State, ns: string, name: string, content: Bytes, id: Option<int>)
    requires Consistent(s) && WellNamed(s.objects) && FreshNamespace(s, ns) && PlainName(name)
    ensures var t := s.(uploads := s.uploads[DisplayPath(ns, name) := id], rootExists := true, objects := s.objects[ns := map[name := content]]);
            Consistent(t) && WellNamed(t.objects)
  {
    var t := s.(uploads := s.uploads[DisplayPath(ns, name) := id], rootExists := true, objects := s.objects[ns := map[name := content]]);
    AddUploadKeepsRowsWithFiles(s, ns, name, t);
    AddUploadKeepsFilesWithRows(s, ns, name, t);
  }

  /** A fresh namespace directory with no file in it keeps the stores in step. */
  lemma AddEmptyNamespaceKeepsConsistency(s: State, ns: string)
    requires Consistent(s) && WellNamed(s.objects) && FreshNamespace(s, ns)
    ensures var t := s.(rootExists := true, objects := s.objects[ns := map[]]);
            Consistent(t) && WellNamed(t.objects)
  {
    var t := s.(rootExists := true, objects := s.objects[ns := map[]]);
    forall p | p in t.uploads
      ensures |Split(p)| == 2 && Split(p)[0] in t.objects && t.objects[Split(p)[0]].Keys == {Split(p)[1]}
    {
      assert Split(p)[0] in s.objects;
    }
  }

  /**
    An upload with a usable key keeps every row matched with its file unless
    its row insert fails: a failure before the file exists leaves at most an
    empty directory, and a failure in the body leaves the row and a shorter file.
  */
  lemma UploadKeepsConsistency(cfg: Config, s: State, req: Request, ns: string, chunks: seq<Bytes>, fault: Fault)
    requires Consistent(s) && WellNamed(s.objects) && FreshNamespace(s, ns) && req.authorization.Text?
    requires fault != FailAt(Database)
    ensures Consistent(Upload(cfg, s, req, ns, chunks, fault).state)
    ensures WellNamed(Upload(cfg, s, req, ns, chunks, fault).state.objects)
  {
    match UploadName(cfg.naming, req)
    case None =>
    case Some(name) =>
      UploadNamedKeepsConsistency(cfg, s, req.authorization, ns, name, chunks, fault);
  }

  /** The store effects of an upload with a usable key keep the stores in step unless the row insert fails. */
  lemma UploadNamedKeepsConsistency(cfg: Config, s: State, authorization: Header, ns: string, name: string, chunks: seq<Bytes>, fault: Fault)
    requires Consistent(s) && WellNamed(s.objects) && FreshNamespace(s, ns) && PlainName(name) && authorization.Text?
    requires fault != FailAt(Database)
    ensures var t := UploadNamed(cfg, s, authorization, ns, name, chunks, fault).state;
            Consistent(t) && WellNamed(t.objects)
  {
    if fault == FailAt(CreateFile) {
      AddEmptyNamespaceKeepsConsistency(s, ns);
    } else if fault != FailAt(CreateDir) {
      var created := s.(rootExists := true, objects := s.objects[ns := map[name := []]]);
      var content := Concat(chunks[..Written(chunks, fault)]);
      RecordUploadEffects(cfg, created, authorization, ns, name, chunks, fault);
      assert created.objects[ns := map[name := content]] == s.objects[ns := map[name := content]];
      AddUploadKeepsConsistency(s, ns, name, content, LookupId(s.users, authorization.value));
    }
  }

  // Overwrite

  /** Overwriting a file that is not there fails on opening and changes nothing: there is no `create(true)`. */
  lemma OverwriteOfMissingFileFails(cfg: Config, s: State, req: Request, chunks: seq<Bytes>, fault: Fault)
    requires |req.path| > 0 && StaysInUploadRoot(Target(req))
    requires match Locate(Target(req))
             case None => true
             case Some((ns, f)) => ns !in s.objects || f !in s.objects[ns]
    ensures Overwrite(cfg, s, req, chunks, fault) == Outcome(s, Aborted(OpeningFile))
  {
  }

  /**
    A successful overwrite replaces the content of the existing file with the
    body, leaves the rows and every other file alone, purges the file's URL and
    answers with it.
  */
  lemma OverwriteSucceeds(cfg: Config, s: State, req: Request, chunks: seq<Bytes>, ns: string, f: string)
    requires |req.path| > 0 && StaysInUploadRoot(Target(req))
    requires Locate(Target(req)) == Some((ns, f)) && ns in s.objects && f in s.objects[ns]
    ensures var url := Url(cfg.baseUrl, Target(req));
            var o := Overwrite(cfg, s, req, chunks, NoFault);
            && o.response == Body(url)
            && o.state.objects == s.objects[ns := s.objects[ns][f := Concat(chunks)]]
            && o.state.uploads == s.uploads && o.state.users == s.users && o.state.rootExists == s.rootExists
            && o.state.purged == s.purged + (if cfg.enableCf then [url] else [])
  {
    assert chunks[..|chunks|] == chunks;
  }

  /** Rewriting the content of an existing file, whatever else changes outside the stores, keeps them in step. */
  lemma RewriteKeepsConsistency(s: State, ns: string, f: string, content: Bytes, t: State)
    requires Consistent(s) && WellNamed(s.objects) && ns in s.objects && f in s.objects[ns]
    requires t.uploads == s.uploads && t.rootExists == s.rootExists && t.objects == s.objects[ns := s.objects[ns][f := content]]
    ensures Consistent(t) && WellNamed(t.objects)
  {
    assert forall other :: other in t.objects <==> other in s.objects;
    assert forall other :: other in t.objects ==> t.objects[other].Keys == s.objects[other].Keys;
  }

  /**
    Whatever step fails, the store effects of an overwrite leave the rows alone
    and at most rewrite the content of file `f` of namespace `ns`, which must exist.
  */
  lemma OverwriteFileEffects(cfg: Config, s: State, target: string, ns: string, f: string, chunks: seq<Bytes>, fault: Fault)
    ensures var t := OverwriteFile(cfg, s, target, ns, f, chunks, fault).state;
            && t.uploads == s.uploads && t.users == s.users && t.rootExists == s.rootExists
            && (t.objects == s.objects ||
                (ns in s.objects && f in s.objects[ns] &&
                 t.objects == s.objects[ns := s.objects[ns][f := Concat(chunks[..Written(chunks, fault)])]]))
  {
  }

  /** Whatever step fails, the store effects of an overwrite add and remove no file and no row. */
  lemma OverwriteFileKeepsConsistency(cfg: Config, s: State, target: string, ns: string, f: string, chunks: seq<Bytes>, fault: Fault)
    requires Consistent(s) && WellNamed(s.objects)
    ensures var t := OverwriteFile(cfg, s, target, ns, f, chunks, fault).state;
            Consistent(t) && WellNamed(t.objects)
  {
    var t := OverwriteFile(cfg, s, target, ns, f, chunks, fault).state;
    OverwriteFileEffects(cfg, s, target, ns, f, chunks, fault);
    if t.objects != s.objects {
      RewriteKeepsConsistency(s, ns, f, Concat(chunks[..Written(chunks, fault)]), t);
    } else {
      assert RowsHaveFiles(t) == RowsHaveFiles(s);
      assert FilesHaveRows(t) == FilesHaveRows(s);
      assert RootHoldsObjects(t) == RootHoldsObjects(s);
    }
  }

  /** Whatever step fails, an overwrite keeps every row matched with its file. */
  lemma OverwriteKeepsConsistency(cfg: Config, s: State, req: Request, chunks: seq<Bytes>, fault: Fault)
    requires |req.path| > 0 && StaysInUploadRoot(Target(req))
    requires Consistent(s) && WellNamed(s.objects)
    ensures Consistent(Overwrite(cfg, s, req, chunks, fault).state)
    ensures WellNamed(Overwrite(cfg, s, req, chunks, fault).state.objects)
  {
    match Locate(Target(req))
    case None =>
    case Some((ns, f)) =>
      OverwriteFileKeepsConsistency(cfg, s, Target(req), ns, f, chunks, fault);
  }

  // Delete

  /**
    A successful delete removes exactly the row with the stripped path and the
    whole namespace of its first segment, purges the URL and answers "OK".
  */
  lemma DeleteSucceeds(cfg: Config, s: State, req: Request)
    requires |req.path| > 0 && PlainName(FirstSegment(Target(req))) && FirstSegment(Target(req)) in s.objects
    ensures var url := Url(cfg.baseUrl, Target(req));
            var o := Delete(cfg, s, req, NoFault);
            && o.response == Body("OK")
            && o.state.uploads == s.uploads - {Target(req)}
            && o.state.objects == s.objects - {FirstSegment(Target(req))}
            && o.state.users == s.users && o.state.rootExists == s.rootExists
            && o.state.purged == s.purged + (if cfg.enableCf then [url] else [])
  {
  }

  /**
    A delete whose first segment is empty (`DELETE /`, `DELETE //x`) removes the
    upload directory itself; repeating it panics on removing the directory,
    after deleting the row, and purges nothing.
  */
  lemma RootDeleteRemovesUploadDirectory(cfg: Config, s: State, req: Request)
    requires |req.path| > 0 && FirstSegment(Target(req)) == "" && s.rootExists
    ensures var first := Delete(cfg, s, req, NoFault);
            && first.response == Body("OK")
            && !first.state.rootExists && first.state.objects == map[]
            && first.state.uploads == s.uploads - {Target(req)}
            && Delete(cfg, first.state, req, NoFault) == Outcome(first.state, Aborted(RemovingDirectory))
  {
  }

  /**
    A delete whose first segment is `.` (`DELETE /./x`) names the upload
    directory as `UPLOAD_DIRECTORY/.`: every namespace is removed, and then removing
    `.` itself panics, after the row delete and before any purge.
  */
  lemma DotDeleteEmptiesUploadDirectory(cfg: Config, s: State, req: Request)
    requires |req.path| > 0 && FirstSegment(Target(req)) == "." && s.rootExists
    ensures Delete(cfg, s, req, NoFault) ==
            Outcome(s.(uploads := s.uploads - {Target(req)}, objects := map[]), Aborted(RemovingDirectory))
  {
  }

  /**
    Apart from a failing row delete or directory removal, a fault does not
    change what a delete leaves in the stores: only the purge can still fail.
  */
  lemma DeleteStateIgnoresOtherFaults(cfg: Config, s: State, req: Request, fault: Fault)
    requires |req.path| > 0 && FirstSegment(Target(req)) != ".."
    requires fault != FailAt(Database) && fault != FailAt(RemoveDir)
    ensures Delete(cfg, s, req, fault).state == Delete(cfg, s, req, NoFault).state
  {
  }

  /** A failing directory removal after the row delete leaves the namespace's file without its row. */
  lemma FailedRemovalLeavesFileWithoutRow(cfg: Config, s: State, req: Request)
    requires |req.path| > 0 && Consistent(s) && WellNamed(s.objects) && Target(req) in s.uploads
    ensures var t := Delete(cfg, s, req, FailAt(RemoveDir)).state;
            var ns, f := Split(Target(req))[0], Split(Target(req))[1];
            ns in t.objects && f in t.objects[ns] && DisplayPath(ns, f) !in t.uploads && !FilesHaveRows(t)
  {
    RowNamespace(s, Target(req));
    var ns, f := Split(Target(req))[0], Split(Target(req))[1];
    DisplayPathSplits(ns, f);
    assert f in s.objects[ns];
  }

  /** Removing a row and the namespace of its first segment keeps every other row with its file. */
  lemma RemoveUploadKeepsRowsWithFiles(s: State, target: string, t: State)
    requires Consistent(s) && target in s.uploads
    requires t.uploads == s.uploads - {target} && t.objects == s.objects - {FirstSegment(target)}
    ensures RowsHaveFiles(t)
  {
    RowNamespace(s, target);
    forall p | p in t.uploads
      ensures |Split(p)| == 2 && Split(p)[0] in t.objects && t.objects[Split(p)[0]].Keys == {Split(p)[1]}
    {
      RowNamespace(s, p);
      assert p != target;
      assert Split(p)[0] != Split(target)[0];
    }
  }

  /** Removing a row and the namespace of its first segment keeps every other file with its row. */
  lemma RemoveUploadKeepsFilesWithRows(s: State, target: string, t: State)
    requires Consistent(s) && WellNamed(s.objects) && target in s.uploads
    requires t.uploads == s.uploads - {target} && t.objects == s.objects - {FirstSegment(target)}
    ensures FilesHaveRows(t) && WellNamed(t.objects)
  {
    RowNamespace(s, target);
    forall other, g | other in t.objects && g in t.objects[other]
      ensures DisplayPath(other, g) in t.uploads
    {
      DisplayPathSplits(other, g);
    }
  }

  /** Deleting an existing row with no fault keeps every remaining row matched with its file. */
  lemma DeleteKeepsConsistency(cfg: Config, s: State, req: Request)
    requires |req.path| > 0 && Consistent(s) && WellNamed(s.objects) && Target(req) in s.uploads
    ensures FirstSegment(Target(req)) != "." && FirstSegment(Target(req)) != ".."
    ensures Consistent(Delete(cfg, s, req, NoFault).state)
    ensures WellNamed(Delete(cfg, s, req, NoFault).state.objects)
  {
    RowNamespace(s, Target(req));
    DeleteSucceeds(cfg, s, req);
    var t := Delete(cfg, s, req, NoFault).state;
    RemoveUploadKeepsRowsWithFiles(s, Target(req), t);
    RemoveUploadKeepsFilesWithRows(s, Target(req), t);
  }

  // Move

  /** A move without `X-Rename-To` answers "X-Rename-To not set" and changes nothing. */
  lemma MoveWithoutHeader(cfg: Config, s: State, req: Request, fault: Fault)
    requires |req.path| > 0 && MoveInScope(req) && req.renameTo == Absent
    ensures Move(cfg, s, req, fault) == Outcome(s, Body(RenameNotSet))
  {
  }

  /** A move whose `X-Rename-To` has no file name answers "No valid path given" and changes nothing. */
  lemma MoveToUnusableName(cfg: Config, s: State, req: Request, fault: Fault)
    requires |req.path| > 0 && MoveInScope(req)
    requires req.renameTo.Text? && ParseFilename(req.renameTo.value).None?
    ensures Move(cfg, s, req, fault) == Outcome(s, Body(NoValidPath))
  {
  }

  /** A move request with a usable name runs the store effects on the first two segments of the path. */
  lemma MoveReachesStore(cfg: Config, s: State, req: Request, fault: Fault)
    requires |req.path| > 0 && MoveInScope(req)
    requires req.renameTo.Text? && ParseFilename(req.renameTo.value).Some? && |Split(Target(req))| >= 2
    ensures var segs := Split(Target(req));
            Move(cfg, s, req, fault) == MoveFile(cfg, s, Target(req), segs[0], segs[1], ParseFilename(req.renameTo.value).value, fault)
  {
  }

  /**
    A successful move of an existing row: the row now has path `ns/name` and the
    same uploader, the file has the new name in the same namespace with the same
    content, nothing else changes, the old URL is purged (the new one is not), and
    the answer is the new URL.
  */
  lemma MoveSucceeds(cfg: Config, s: State, target: string, ns: string, current: string, name: string)
    requires target in s.uploads && ns in s.objects && current in s.objects[ns]
    requires DisplayPath(ns, name) in s.uploads ==> DisplayPath(ns, name) == target
    ensures var o := MoveFile(cfg, s, target, ns, current, name, NoFault);
            var newShort := DisplayPath(ns, name);
            && o.response == Body(Url(cfg.baseUrl, newShort))
            && o.state.uploads == RenameKey(s.uploads, target, newShort)
            && newShort in o.state.uploads && o.state.uploads[newShort] == s.uploads[target]
            && o.state.objects == s.objects[ns := RenameKey(s.objects[ns], current, name)]
            && name in o.state.objects[ns] && o.state.objects[ns][name] == s.objects[ns][current]
            && o.state.users == s.users && o.state.rootExists == s.rootExists
            && o.state.purged == s.purged + (if cfg.enableCf then [Url(cfg.baseUrl, target)] else [])
  {
  }

  /** Renaming the only file of a namespace leaves a namespace holding only the new name. */
  lemma RenameSoleFile(m: map<string, Bytes>, current: string, name: string)
    requires m.Keys == {current}
    ensures RenameKey(m, current, name) == map[name := m[current]]
  {
  }

  /** Renaming a row to `ns/name` and its file to `name` leaves every row with its file. */
  lemma RenameKeepsRowsWithFiles(s: State, target: string, name: string, t: State)
    requires Consistent(s) && target in s.uploads && PlainName(name)
    requires var ns := Split(target)[0];
             t.uploads == RenameKey(s.uploads, target, DisplayPath(ns, name)) &&
             t.objects == s.objects[ns := map[name := s.objects[ns][Split(target)[1]]]]
    ensures RowsHaveFiles(t)
  {
    RowNamespace(s, target);
    var ns := Split(target)[0];
    var newShort := DisplayPath(ns, name);
    DisplayPathSplits(ns, name);
    forall p | p in t.uploads
      ensures |Split(p)| == 2 && Split(p)[0] in t.objects && t.objects[Split(p)[0]].Keys == {Split(p)[1]}
    {
      if p != newShort {
        assert p in s.uploads && p != target;
        RowNamespace(s, p);
        assert Split(p)[0] != ns;
      }
    }
  }

  /** Renaming a row to `ns/name` and its file to `name` leaves every file with its row. */
  lemma RenameKeepsFilesWithRows(s: State, target: string, name: string, t: State)
    requires Consistent(s) && WellNamed(s.objects) && target in s.uploads && PlainName(name)
    requires var ns := Split(target)[0];
             t.uploads == RenameKey(s.uploads, target, DisplayPath(ns, name)) &&
             t.objects == s.objects[ns := map[name := s.objects[ns][Split(target)[1]]]]
    ensures FilesHaveRows(t) && WellNamed(t.objects)
  {
    RowNamespace(s, target);
    var ns := Split(target)[0];
    forall other, g | other in t.objects && g in t.objects[other]
      ensures DisplayPath(other, g) in t.uploads
    {
      if other != ns {
        DisplayPathSplits(other, g);
        assert DisplayPath(other, g) in s.uploads;
      }
    }
  }

  /** Moving an existing row with no fault keeps every row matched with its file. */
  lemma MoveFileKeepsConsistency(cfg: Config, s: State, target: string, name: string)
    requires Consistent(s) && WellNamed(s.objects) && target in s.uploads && PlainName(name)
    ensures |Split(target)| == 2
    ensures var t := MoveFile(cfg, s, target, Split(target)[0], Split(target)[1], name, NoFault).state;
            Consistent(t) && WellNamed(t.objects)
  {
    RowNamespace(s, target);
    var ns, current := Split(target)[0], Split(target)[1];
    DisplayPathSplits(ns, name);
    if DisplayPath(ns, name) in s.uploads {
      RowNamespace(s, DisplayPath(ns, name));
      assert name == current;
    }
    MoveSucceeds(cfg, s, target, ns, current, name);
    var t := MoveFile(cfg, s, target, ns, current, name, NoFault).state;
    RenameSoleFile(s.objects[ns], current, name);
    RenameKeepsRowsWithFiles(s, target, name, t);
    RenameKeepsFilesWithRows(s, target, name, t);
  }

  /** A move request on an existing row with no fault keeps every row matched with its file. */
  lemma MoveKeepsConsistency(cfg: Config, s: State, req: Request)
    requires |req.path| > 0 && Consistent(s) && WellNamed(s.objects) && Target(req) in s.uploads
    ensures MoveInScope(req)
    ensures Consistent(Move(cfg, s, req, NoFault).state)
    ensures WellNamed(Move(cfg, s, req, NoFault).state.objects)
  {
    RowNamespace(s, Target(req));
    if req.renameTo.Text? && ParseFilename(req.renameTo.value).Some? {
      MoveReachesStore(cfg, s, req, NoFault);
      MoveFileKeepsConsistency(cfg, s, Target(req), ParseFilename(req.renameTo.value).value);
    }
  }

  /**
    Apart from a failing row update or rename, a fault does not change what
    the store steps of a move leave: only the purge can still fail.
  */
  lemma MoveFileStateIgnoresOtherFaults(cfg: Config, s: State, target: string, ns: string, current: string, name: string, fault: Fault)
    requires fault != FailAt(Database) && fault != FailAt(Rename)
    ensures MoveFile(cfg, s, target, ns, current, name, fault).state == MoveFile(cfg, s, target, ns, current, name, NoFault).state
  {
  }

  /** A failing rename after the row update leaves the file without its row, for a real change of name. */
  lemma FailedRenameLeavesFileWithoutRow(cfg: Config, s: State, target: string, name: string)
    requires Consistent(s) && WellNamed(s.objects) && target in s.uploads && PlainName(name)
    requires name != Split(target)[1]
    ensures var t := MoveFile(cfg, s, target, Split(target)[0], Split(target)[1], name, FailAt(Rename)).state;
            var ns, f := Split(target)[0], Split(target)[1];
            ns in t.objects && f in t.objects[ns] && DisplayPath(ns, f) !in t.uploads && !FilesHaveRows(t)
  {
    RowNamespace(s, target);
    var ns, f := Split(target)[0], Split(target)[1];
    DisplayPathSplits(ns, f);
    DisplayPathSplits(ns, name);
    if DisplayPath(ns, name) in s.uploads {
      RowNamespace(s, DisplayPath(ns, name));
    }
    assert f in s.objects[ns];
    assert DisplayPath(ns, name) != target;
  }

  // The handlers behind their gates

  /** A missing or unreadable `Authorization` header is refused by every gate, and nothing changes. */
  lemma UnusableHeaderIsRefusedEverywhere(cfg: Config, s: State, req: Request, ns: string, chunks: seq<Bytes>, fault: Fault)
    requires |req.path| > 0 && FreshNamespace(s, ns) && !req.authorization.Text?
    ensures HandlePost(cfg, s, req, ns, chunks, fault) == Outcome(s, Forbidden)
    ensures HandlePut(cfg, s, req, chunks, fault) == Outcome(s, Forbidden)
    ensures HandleDelete(cfg, s, req, fault) == Outcome(s, Forbidden)
    ensures HandlePatch(cfg, s, req, fault) == Outcome(s, Forbidden)
  {
    UnusableHeaderIsForbidden(cfg.gates, req, s.users, s.uploads);
  }

  /**
    The gates write nothing: a request they refuse leaves the state as it was,
    and one they admit reaches its handler unchanged, on the same state.
  */
  lemma GatesAreReadOnly(cfg: Config, s: State, req: Request, ns: string, chunks: seq<Bytes>, fault: Fault)
    requires |req.path| > 0 && FreshNamespace(s, ns) && !GateFails(req.authorization, fault)
    requires RequiresOwnership(cfg.gates, req, s.users, s.uploads) ==>
               StaysInUploadRoot(Target(req)) && FirstSegment(Target(req)) != ".." && MoveInScope(req)
    ensures HandlePost(cfg, s, req, ns, chunks, fault) ==
            if RequiresAuth(cfg.gates, req.authorization, s.users) then Upload(cfg, s, req, ns, chunks, fault) else Outcome(s, Forbidden)
    ensures RequiresOwnership(cfg.gates, req, s.users, s.uploads) ==>
              && HandlePut(cfg, s, req, chunks, fault) == Overwrite(cfg, s, req, chunks, fault)
              && HandleDelete(cfg, s, req, fault) == Delete(cfg, s, req, fault)
              && HandlePatch(cfg, s, req, fault) == Move(cfg, s, req, fault)
    ensures !RequiresOwnership(cfg.gates, req, s.users, s.uploads) ==>
              && HandlePut(cfg, s, req, chunks, fault) == Outcome(s, Forbidden)
              && HandleDelete(cfg, s, req, fault) == Outcome(s, Forbidden)
              && HandlePatch(cfg, s, req, fault) == Outcome(s, Forbidden)
  {
  }

  /**
    The ownership gate and the handlers behind it use the same stripped path:
    the row the intended gate finds owned is the row a delete removes, and the
    file an overwrite writes is the one that row records.
  */
  lemma OwnershipGateChecksHandlerTarget(cfg: Config, s: State, req: Request, chunks: seq<Bytes>)
    requires cfg.gates == Intended && |req.path| > 0 && Consistent(s) && WellNamed(s.objects)
    requires RequiresOwnership(cfg.gates, req, s.users, s.uploads)
    ensures Target(req) in s.uploads && Owns(s.users, s.uploads, Target(req), req.authorization.value)
    ensures |Split(Target(req))| == 2 && StaysInUploadRoot(Target(req))
    ensures FirstSegment(Target(req)) != "." && FirstSegment(Target(req)) != ".."
    ensures var ns, f := Split(Target(req))[0], Split(Target(req))[1];
            && Locate(Target(req)) == Some((ns, f))
            && HandlePut(cfg, s, req, chunks, NoFault).state.objects == s.objects[ns := s.objects[ns][f := Concat(chunks)]]
            && HandleDelete(cfg, s, req, NoFault).state.uploads == s.uploads - {Target(req)}
    ensures req.renameTo.Text? && ParseFilename(req.renameTo.value).Some? ==>
              var ns, f, name := Split(Target(req))[0], Split(Target(req))[1], ParseFilename(req.renameTo.value).value;
              && MoveInScope(req)
              && HandlePatch(cfg, s, req, NoFault).state.uploads == RenameKey(s.uploads, Target(req), DisplayPath(ns, name))
              && HandlePatch(cfg, s, req, NoFault).state.objects == s.objects[ns := RenameKey(s.objects[ns], f, name)]
  {
    IntendedOwnershipTargetsOwnedRow(req, s.users, s.uploads);
    RowNamespace(s, Target(req));
    var ns, f := Split(Target(req))[0], Split(Target(req))[1];
    assert f in s.objects[ns];
    LocateDisplayPath(ns, f);
    OverwriteSucceeds(cfg, s, req, chunks, ns, f);
    DeleteSucceeds(cfg, s, req);
    if req.renameTo.Text? && ParseFilename(req.renameTo.value).Some? {
      PatchRenamesOwnedRow(cfg, s, req);
    }
  }

  /** The PATCH half of the lemma above: the intended gate admits a move of exactly the row it renames. */
  lemma PatchRenamesOwnedRow(cfg: Config, s: State, req: Request)
    requires cfg.gates == Intended && |req.path| > 0 && Consistent(s) && WellNamed(s.objects)
    requires RequiresOwnership(cfg.gates, req, s.users, s.uploads)
    requires req.renameTo.Text? && ParseFilename(req.renameTo.value).Some?
    ensures |Split(Target(req))| == 2 && MoveInScope(req)
    ensures var ns, f, name := Split(Target(req))[0], Split(Target(req))[1], ParseFilename(req.renameTo.value).value;
            && ns in s.objects
            && HandlePatch(cfg, s, req, NoFault).state.uploads == RenameKey(s.uploads, Target(req), DisplayPath(ns, name))
            && HandlePatch(cfg, s, req, NoFault).state.objects == s.objects[ns := RenameKey(s.objects[ns], f, name)]
  {
    IntendedOwnershipTargetsOwnedRow(req, s.users, s.uploads);
    RowNamespace(s, Target(req));
    var ns, f, name := Split(Target(req))[0], Split(Target(req))[1], ParseFilename(req.renameTo.value).value;
    DisplayPathSplits(ns, name);
    if DisplayPath(ns, name) in s.uploads {
      RowNamespace(s, DisplayPath(ns, name));
    }
    MoveReachesStore(cfg, s, req, NoFault);
    MoveSucceeds(cfg, s, Target(req), ns, f, name);
  }

  /**
    As written, an unregistered key gets past the ownership gate with paths that
    leave the upload directory: `PUT //etc/x` names the absolute path `/etc/x`,
    and `DELETE /../x` names the upload directory's parent.
  */
  lemma AsWrittenGateAdmitsEscapingPaths(users: map<string, int>, uploads: map<string, Option<int>>, key: string)
    requires key !in users
    ensures var put := Request("//etc/x", None, Text(key), Absent);
            RequiresOwnership(AsWritten, put, users, uploads) && !StaysInUploadRoot(Target(put))
    ensures var delete := Request("/../x", None, Text(key), Absent);
            RequiresOwnership(AsWritten, delete, users, uploads) && FirstSegment(Target(delete)) == ".."
  {
    var put := Request("//etc/x", None, Text(key), Absent);
    assert Target(put) == "/etc/x";
    var delete := Request("/../x", None, Text(key), Absent);
    assert Target(delete) == "../x" == ".." + "/" + "x";
    SplitConcat("..", "x");
    SplitPlain("..");
  }

  /** Unless the row insert fails, an upload request keeps the stores in step behind either gate. */
  lemma PostKeepsConsistency(cfg: Config, s: State, req: Request, ns: string, chunks: seq<Bytes>, fault: Fault)
    requires Consistent(s) && WellNamed(s.objects) && FreshNamespace(s, ns) && fault != FailAt(Database)
    ensures Consistent(HandlePost(cfg, s, req, ns, chunks, fault).state)
    ensures WellNamed(HandlePost(cfg, s, req, ns, chunks, fault).state.objects)
  {
    if !GateFails(req.authorization, fault) && RequiresAuth(cfg.gates, req.authorization, s.users) {
      UploadKeepsConsistency(cfg, s, req, ns, chunks, fault);
    }
  }

  /**
    A failing row insert is the one upload failure that breaks the stores: it
    leaves the new file without its row.
  */
  lemma FailedInsertLeavesFileWithoutRow(cfg: Config, s: State, req: Request, ns: string, chunks: seq<Bytes>)
    requires FreshNamespace(s, ns) && UploadName(cfg.naming, req).Some?
    ensures var t := Upload(cfg, s, req, ns, chunks, FailAt(Database)).state;
            var name := UploadName(cfg.naming, req).value;
            ns in t.objects && name in t.objects[ns] && DisplayPath(ns, name) !in t.uploads && !FilesHaveRows(t)
  {
  }

  /** Whatever fails, an overwrite request keeps the stores in step behind either gate. */
  lemma PutKeepsConsistency(cfg: Config, s: State, req: Request, chunks: seq<Bytes>, fault: Fault)
    requires |req.path| > 0 && StaysInUploadRoot(Target(req)) && Consistent(s) && WellNamed(s.objects)
    ensures Consistent(HandlePut(cfg, s, req, chunks, fault).state)
    ensures WellNamed(HandlePut(cfg, s, req, chunks, fault).state.objects)
  {
    OverwriteKeepsConsistency(cfg, s, req, chunks, fault);
  }

  /**
    Behind the intended gate a delete request reaches only a recorded row, and
    keeps the stores in step unless removing the directory fails.
  */
  lemma IntendedDeleteKeepsConsistency(cfg: Config, s: State, req: Request, fault: Fault)
    requires cfg.gates == Intended && |req.path| > 0 && Consistent(s) && WellNamed(s.objects)
    requires fault != FailAt(RemoveDir)
    ensures RequiresOwnership(cfg.gates, req, s.users, s.uploads) ==>
              FirstSegment(Target(req)) != "." && FirstSegment(Target(req)) != ".."
    ensures Consistent(HandleDelete(cfg, s, req, fault).state)
    ensures WellNamed(HandleDelete(cfg, s, req, fault).state.objects)
  {
    if !GateFails(req.authorization, fault) && RequiresOwnership(cfg.gates, req, s.users, s.uploads) {
      IntendedOwnershipTargetsOwnedRow(req, s.users, s.uploads);
      DeleteKeepsConsistency(cfg, s, req);
      if fault != FailAt(Database) {
        DeleteStateIgnoresOtherFaults(cfg, s, req, fault);
      }
    } else if RequiresOwnership(cfg.gates, req, s.users, s.uploads) {
      IntendedOwnershipTargetsOwnedRow(req, s.users, s.uploads);
      DeleteKeepsConsistency(cfg, s, req);
    }
  }

  /**
    Behind the intended gate a move request reaches only a recorded row, and
    keeps the stores in step unless the rename fails.
  */
  lemma IntendedPatchKeepsConsistency(cfg: Config, s: State, req: Request, fault: Fault)
    requires cfg.gates == Intended && |req.path| > 0 && Consistent(s) && WellNamed(s.objects)
    requires fault != FailAt(Rename)
    ensures RequiresOwnership(cfg.gates, req, s.users, s.uploads) ==> MoveInScope(req)
    ensures Consistent(HandlePatch(cfg, s, req, fault).state)
    ensures WellNamed(HandlePatch(cfg, s, req, fault).state.objects)
  {
    if RequiresOwnership(cfg.gates, req, s.users, s.uploads) {
      IntendedOwnershipTargetsOwnedRow(req, s.users, s.uploads);
      MoveKeepsConsistency(cfg, s, req);
      if !GateFails(req.authorization, fault) && req.renameTo.Text? && ParseFilename(req.renameTo.value).Some? {
        RowNamespace(s, Target(req));
        MoveReachesStore(cfg, s, req, fault);
        MoveReachesStore(cfg, s, req, NoFault);
        if fault != FailAt(Database) {
          var segs := Split(Target(req));
          MoveFileStateIgnoresOtherFaults(cfg, s, Target(req), segs[0], segs[1], ParseFilename(req.renameTo.value).value, fault);
        }
      }
    }
  }

  /**
    Behind the intended gate, a successful upload by a registered key makes that
    key the owner of the new path, so the ownership gate admits it there. As
    written this holds for URIs without a query; with the name taken from the
    path it holds for every URI.
  */
  lemma IntendedUploaderOwnsUpload(cfg: Config, s: State, req: Request, ns: string, chunks: seq<Bytes>, later: Request)
    requires cfg.gates == Intended && FreshNamespace(s, ns) && (cfg.naming == PathName || req.query.None?)
    requires req.authorization.Text? && req.authorization.value in s.users && UploadName(cfg.naming, req).Some?
    requires later.path == "/" + DisplayPath(ns, UploadName(cfg.naming, req).value) && later.authorization == req.authorization
    ensures var t := HandlePost(cfg, s, req, ns, chunks, NoFault).state;
            RequiresOwnership(cfg.gates, later, t.users, t.uploads)
  {
    UploadSucceeds(cfg, s, req, ns, chunks);
    assert Target(later) == DisplayPath(ns, UploadName(cfg.naming, req).value);
  }

  /**
    As written, an upload whose URI has a query records a path that holds a `?`,
    which no later request's stripped path can equal, so no overwrite, delete or
    move ever reaches it.
  */
  lemma AsWrittenQueryUploadIsUnreachable(cfg: Config, s: State, req: Request, ns: string, chunks: seq<Bytes>)
    requires cfg.naming == UriName && FreshNamespace(s, ns) && req.authorization.Text?
    requires NameAsWritten(req).Some? && '?' in NameAsWritten(req).value
    ensures var row := DisplayPath(ns, NameAsWritten(req).value);
            var t := Upload(cfg, s, req, ns, chunks, NoFault).state;
            && row !in s.uploads && row in t.uploads
            && forall later: Request | |later.path| > 0 :: Target(later) != row
  {
    UploadSucceeds(cfg, s, req, ns, chunks);
    forall later: Request | |later.path| > 0
      ensures Target(later) != DisplayPath(ns, NameAsWritten(req).value)
    {
      TargetHasNoQuery(later);
    }
  }

  /** As written, `POST /a.txt?v=1` names its upload `a.txt?v=1`. */
  lemma AsWrittenQueryEndsUpInName(authorization: Header)
    ensures NameAsWritten(Request("/a.txt", Some("v=1"), authorization, Absent)) == Some("a.txt?v=1")
  {
    var example := Request("/a.txt", Some("v=1"), authorization, Absent);
    assert Uri(example) == "" + "/" + "a.txt?v=1";
    LastPlainNameIsFileName("", "a.txt?v=1");
  }

  /**
    With the name taken from the request path, every upload of a registered
    key (to a namespace without `?`, as a uuid is) is reached by a later
    request, whose path is `/ns/name`, and its owner is admitted there.
  */
  lemma PathNamedUploadIsReachable(cfg: Config, s: State, req: Request, ns: string, chunks: seq<Bytes>)
    requires cfg.gates == Intended && cfg.naming == PathName && FreshNamespace(s, ns) && '?' !in ns
    requires req.authorization.Text? && req.authorization.value in s.users && NameIntended(req).Some?
    ensures '?' !in "/" + DisplayPath(ns, NameIntended(req).value)
    ensures var later := Request("/" + DisplayPath(ns, NameIntended(req).value), None, req.authorization, Absent);
            var t := HandlePost(cfg, s, req, ns, chunks, NoFault).state;
            && Target(later) == DisplayPath(ns, NameIntended(req).value) && Target(later) in t.uploads
            && RequiresOwnership(cfg.gates, later, t.users, t.uploads)
  {
    var later := Request("/" + DisplayPath(ns, NameIntended(req).value), None, req.authorization, Absent);
    IntendedUploaderOwnsUpload(cfg, s, req, ns, chunks, later);
  }

  /** Behind the intended gate, once a delete has removed the row, repeating it is refused. */
  lemma IntendedSecondDeleteIsForbidden(cfg: Config, s: State, req: Request, fault: Fault)
    requires cfg.gates == Intended && |req.path| > 0 && Consistent(s) && WellNamed(s.objects)
    requires RequiresOwnership(cfg.gates, req, s.users, s.uploads)
    ensures FirstSegment(Target(req)) != "." && FirstSegment(Target(req)) != ".."
    ensures var t := Delete(cfg, s, req, NoFault).state;
            !RequiresOwnership(cfg.gates, req, t.users, t.uploads) &&
            HandleDelete(cfg, t, req, fault) == Outcome(t, if GateFails(req.authorization, fault) then Aborted(GateDatabase) else Forbidden)
  {
    IntendedOwnershipTargetsOwnedRow(req, s.users, s.uploads);
    RowNamespace(s, Target(req));
    DeleteSucceeds(cfg, s, req);
  }

  /**
    As written, a key that belongs to no user gets `DELETE /./x` past the
    ownership gate, and it empties the whole upload directory before panicking.
  */
  lemma AsWrittenStrangerEmptiesUploadDirectory(cfg: Config, s: State, key: string)
    requires cfg.gates == AsWritten && key !in s.users && s.rootExists
    ensures var req := Request("/./x", None, Text(key), Absent);
            && FirstSegment(Target(req)) == "."
            && RequiresOwnership(cfg.gates, req, s.users, s.uploads)
            && HandleDelete(cfg, s, req, NoFault) ==
               Outcome(s.(uploads := s.uploads - {"./x"}, objects := map[]), Aborted(RemovingDirectory))
  {
    var req := Request("/./x", None, Text(key), Absent);
    assert Target(req) == "./x" == "." + "/" + "x";
    SplitConcat(".", "x");
    SplitPlain(".");
    DotDeleteEmptiesUploadDirectory(cfg, s, req);
  }

  /** As written, the upload gate refuses every registered key, whatever the request. */
  lemma AsWrittenRegisteredKeyCannotUpload(cfg: Config, s: State, req: Request, ns: string, chunks: seq<Bytes>)
    requires cfg.gates == AsWritten && FreshNamespace(s, ns)
    requires req.authorization.Text? && req.authorization.value in s.users
    ensures HandlePost(cfg, s, req, ns, chunks, NoFault) == Outcome(s, Forbidden)
  {
  }

  /** As written, every row an upload adds has no uploader: only unregistered keys get through. */
  lemma AsWrittenUploadsHaveNoUploader(cfg: Config, s: State, req: Request, ns: string, chunks: seq<Bytes>, fault: Fault)
    requires cfg.gates == AsWritten && FreshNamespace(s, ns)
    ensures var t := HandlePost(cfg, s, req, ns, chunks, fault).state;
            forall p :: p in t.uploads && p !in s.uploads ==> t.uploads[p] == None
  {
    var o := HandlePost(cfg, s, req, ns, chunks, fault);
    if !GateFails(req.authorization, fault) && RequiresAuth(cfg.gates, req.authorization, s.users) {
      match UploadName(cfg.naming, req)
      case None =>
      case Some(name) =>
        UploadTouchesOnlyItsOwn(cfg, s, req.authorization, ns, name, chunks, fault);
        assert LookupId(s.users, req.authorization.value) == None;
    }
  }

  /**
    As written, a key that belongs to no user gets past the ownership gate on
    any recorded path and deletes the row and its whole namespace.
  */
  lemma AsWrittenStrangerDeletesAnyUpload(cfg: Config, s: State, req: Request)
    requires cfg.gates == AsWritten && |req.path| > 0 && Consistent(s) && WellNamed(s.objects)
    requires Target(req) in s.uploads && req.authorization.Text? && req.authorization.value !in s.users
    ensures FirstSegment(Target(req)) != "." && FirstSegment(Target(req)) != ".."
    ensures var t := HandleDelete(cfg, s, req, NoFault).state;
            t.uploads == s.uploads - {Target(req)} && t.objects == s.objects - {FirstSegment(Target(req))}
  {
    RowNamespace(s, Target(req));
    DeleteSucceeds(cfg, s, req);
  }

  /** As written, the recorded owner of a path is refused by the ownership gate on it. */
  lemma AsWrittenOwnerIsLockedOut(cfg: Config, s: State, req: Request, chunks: seq<Bytes>)
    requires cfg.gates == AsWritten && |req.path| > 0
    requires req.authorization.Text? && Owns(s.users, s.uploads, Target(req), req.authorization.value)
    ensures HandlePut(cfg, s, req, chunks, NoFault) == Outcome(s, Forbidden)
    ensures HandleDelete(cfg, s, req, NoFault) == Outcome(s, Forbidden)
    ensures HandlePatch(cfg, s, req, NoFault) == Outcome(s, Forbidden)
  {
  }

  /**
    As written, a delete that gets past the gate can break the stores: asking
    for `/u/g` when only `u/f` is recorded removes no row but the whole `u`
    directory, leaving the row `u/f` without its file.
  */
  lemma AsWrittenDeleteBreaksConsistency()
    ensures var s := State(map["k" := 1], map["u/f" := Some(1)], true, map["u" := map["f" := []]], []);
            var req := Request("/u/g", None, Text("k"), Absent);
            var cfg := Config("https://cdn", false, AsWritten, UriName);
            && Consistent(s) && WellNamed(s.objects)
            && RequiresOwnership(cfg.gates, req, s.users, s.uploads)
            && FirstSegment(Target(req)) == "u"
            && !Consistent(HandleDelete(cfg, s, req, NoFault).state)
  {
    var s := State(map["k" := 1], map["u/f" := Some(1)], true, map["u" := map["f" := []]], []);
    var req := Request("/u/g", None, Text("k"), Absent);
    var cfg := Config("https://cdn", false, AsWritten, UriName);
    assert "u/f" == DisplayPath("u", "f") && "u/g" == DisplayPath("u", "g");
    OneUploadIsConsistent(s, "u", "f");
    DisplayPathSplits("u", "g");
    assert Target(req) == "u/g";
    var t := HandleDelete(cfg, s, req, NoFault).state;
    assert t.objects == map[] && "u/f" in t.uploads;
  }

  /** A state holding exactly one upload, `ns/f` with its file, is consistent. */
  lemma OneUploadIsConsistent(s: State, ns: string, f: string)
    requires PlainName(ns) && PlainName(f) && s.rootExists
    requires s.uploads.Keys == {DisplayPath(ns, f)} && s.objects.Keys == {ns} && s.objects[ns].Keys == {f}
    ensures Consistent(s) && WellNamed(s.objects)
  {
    DisplayPathSplits(ns, f);
  }
}

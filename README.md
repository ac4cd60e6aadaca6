# cdnup, modelled in Dafny

cdnup is a small file-hosting service. A client with a capability key uploads a
file with `POST`. The service stores the file under a fresh uuid directory, records
the upload in a Postgres `uploads` table and answers with the public URL
`BASE_URL/<uuid>/<name>`. The uploader can then overwrite the file (`PUT`), delete
it (`DELETE`) or rename it inside its directory (`PATCH`). Each change is followed by
a Cloudflare cache purge of the old URL when `CF_ID` is configured. Two gates sit in
front of the handlers. `RequiresAuth` guards uploads and runs a query for the user
holding the key. `RequiresOwnership` guards the other three and runs a query for a
row of the path whose uploader holds the key. As written, each gate admits when its
query finds nothing (see Findings).

The model has these parts:

- `Paths` (paths.dfy): `split("/")`, the file-name rule of Rust's `Path::file_name`
  behind `parse_filename_from_uri`, display paths, URLs, and which file opening a
  path under the upload directory reaches.
- `Requests` (requests.dfy): the parts of an HTTP request the core reads. The URI
  is a path, which holds no `?`, and an optional query. `req.uri().to_string()`
  is the path followed by `?query`, and `req.path()[1..]` is the stripped path.
- `Auth` (auth.dfy): both gates as pure decisions over the `users` and `uploads`
  tables. Each comes in two versions: as written and as intended (see Findings).
- `Stores` (stores.dfy): the two stores are the metadata tables and the upload
  directory. The directory is whether it exists, plus namespace ↦ file ↦ bytes.
  The module also holds the injected fault that stands for a panicking
  `.expect`/`.unwrap`. It also holds the consistency invariant: every row `ns/f`
  has file `f` as the only file of `ns`, every file has its row, and no
  namespace exists without the upload directory.
- `Lifecycle` (lifecycle.dfy): each handler, alone and behind its gate, as a
  transition of the stores. Where the upload takes its file name from is a
  configuration choice, as written and as intended (see Findings). The store calls happen in the source's order. A failing
  step ends the request and keeps the earlier effects, because the source rolls
  nothing back.
- `Server` (server.dfy): the service as a class whose fields are the stores. Its
  handler methods update those fields step by step and append the body chunk by
  chunk in a loop. Each method is proved to reach exactly the state and the answer
  of the matching `Lifecycle` transition.
- `Properties` (properties.dfy): the exact effects of each handler, the early exits
  that change nothing, and preservation of the invariant. It also has what the
  inverted gates let through.

Three behaviours of the code are kept as written:

- Upload creates the directory and the file before it inserts the row.
- Nothing is rolled back after a failure.
- A failed cache purge panics after the store changes are made.

## Model

| member | source | states |
|---|---|---|
| Paths.SplitKeepsOut | src/main.rs:139 | a character missing from a string is missing from every piece of its `split("/")` |
| Paths.FirstSegment | src/main.rs:139 | `split("/").next().unwrap()`: the first piece; it is what the delete lemmas (`Properties.DeleteSucceeds`, `Properties.RootDeleteRemovesUploadDirectory`) remove |
| Paths.DisplayPath | src/main.rs:95 | `format!("{}/{}", uuid, name)`; `Paths.DisplayPathSplits` and `Paths.TwoPiecesAreDisplayPath` state how it splits |
| Paths.Split | src/main.rs:139 | `split("/")` yields at least one piece and no piece holds a `/` |
| Paths.SplitConcat | src/main.rs:139 | splitting `a/b` gives the pieces of `a` followed by the pieces of `b` |
| Paths.JoinSplit | src/main.rs:165-167 | joining the pieces of a path with `/` gives the path back |
| Paths.SplitJoin | src/main.rs:165-167 | splitting a `/`-join of slash-free pieces gives the pieces back |
| Paths.Keep | src/main.rs:65-70 | the components kept are non-empty, not `.`, and come from the input pieces |
| Paths.Components | src/main.rs:65-70 | every component is non-empty, not `.`, and free of `/` |
| Paths.KeepConcat | src/main.rs:65-70 | dropping empty and `.` pieces distributes over concatenation |
| Paths.ComponentsConcat | src/main.rs:65-70 | the components of `a/b` are those of `a` followed by those of `b` |
| Paths.ParseFilename | src/main.rs:65-72 | a returned file name is plain (non-empty, not `.` or `..`, no `/`) and is one piece of the input |
| Paths.SlashesOnlyHaveNoName | src/main.rs:65-72 | the empty string, `/` and every slash-only input have no file name |
| Paths.ParentLastHasNoName | src/main.rs:68-71 | a path whose last component is `..` has no file name |
| Paths.TrailingSlashIgnored | src/main.rs:66-70 | appending `/` does not change the file name |
| Paths.TrailingDotIgnored | src/main.rs:66-70 | appending `/.` does not change the file name |
| Paths.PlainNameParsesToItself | src/main.rs:65-72 | a plain name is its own only component and its own file name |
| Paths.LastPlainNameIsFileName | src/main.rs:65-72 | the file name of `prefix/n` is `n` for every plain `n` and every prefix |
| Paths.ParseIdempotent | src/main.rs:65-72 | parsing a parsed file name gives it back |
| Paths.DisplayPathSplits | src/main.rs:95 | `uuid/name` splits into `[uuid, name]`, so its first segment is the uuid |
| Paths.TwoPiecesAreDisplayPath | src/main.rs:165-175 | a path of two pieces is the display path of its namespace and file |
| Paths.UrlInjective | src/main.rs:109 | under one base URL, two paths have the same URL exactly when they are the same path |
| Paths.Locate | src/main.rs:114-122 | a file reached under the upload directory has a plain namespace and a plain file name |
| Paths.LocateDisplayPath | src/main.rs:114-122 | opening `uuid/name` reaches file `name` of namespace `uuid` |
| Requests.UriSplitsBack | src/main.rs:76 | reading path and query back out of `req.uri().to_string()` (everything before the first `?`, and everything after it if there is one) gives the request's own path and query, so the URI string carries both |
| Requests.QueryStartAfterPath | src/main.rs:76 | in a string made of a `?`-free path followed by nothing or by `?`, the query begins right after the path |
| Requests.TargetHasNoQuery | src/auth.rs:137 | no stripped request path holds a `?` |
| Auth.KeyLookup | src/auth.rs:68-71 | the key query returns no id when no user has the key, and otherwise exactly that user's id |
| Auth.OwnershipJoin | src/auth.rs:143-146 | the join returns no row unless the key's user is the recorded uploader of the exact path, and then that user's id |
| Auth.RequiresAuthAsWritten | src/auth.rs:62-77 | admits exactly a usable key that no user holds |
| Auth.RequiresAuthIntended | src/auth.rs:62-77 | admits exactly a usable key that a user holds |
| Auth.RequiresOwnershipAsWritten | src/auth.rs:136-152 | admits exactly a usable key that does not own the stripped path |
| Auth.RequiresOwnershipIntended | src/auth.rs:136-152 | admits exactly a usable key that owns the stripped path |
| Auth.UnusableHeaderIsForbidden | src/auth.rs:63-76 | a missing or non-string `Authorization` header is refused by both gates in both versions |
| Auth.RegisteredKeyIsForbidden | src/auth.rs:72 | as written, a key is admitted if and only if no user holds it, the opposite of the intended gate |
| Auth.OwnerIsForbidden | src/auth.rs:147 | as written, the ownership gate decides the opposite of the intended one for every usable key |
| Auth.IntendedOwnershipTargetsOwnedRow | src/auth.rs:137-147 | the intended ownership gate admits only when the stripped path is a row whose uploader is the key's user |
| Stores.Written | src/main.rs:105-108 | the number of chunks written is at most the body length, no earlier chunk fails, and it stops exactly at the first failing chunk |
| Stores.ConcatAppend | src/main.rs:105-108 | appending a chunk appends its bytes to the file |
| Stores.ConcatSpans | src/main.rs:105-108 | each chunk's bytes sit in the file in order, after the bytes of the chunks before it |
| Stores.ConcatPrefix | src/main.rs:105-108 | a body cut short leaves a prefix of the whole body in the file |
| Stores.RenameKey | src/main.rs:176-186 | the value moves from the old key to the new one, every other entry is kept, and nothing changes when the old key is absent |
| Lifecycle.LookupId | src/main.rs:98 | the insert's sub-select is NULL exactly when the gate's key query finds no user, and otherwise is the single id that query finds |
| Lifecycle.Purge | src/main.rs:45-63 | `purge_cache` as a transition; `Server.FileHost.PurgeCache` and the `Properties.*Succeeds` lemmas state its effect |
| Lifecycle.NameAsWritten | src/main.rs:65-79 | the name taken from the whole URI is plain and a piece of the URI, and is the name of the path when there is no query |
| Lifecycle.NameIntended | src/main.rs:65-79 | the name taken from the request path is plain and holds no `?` |
| Lifecycle.UploadName | src/main.rs:76-79 | picks the configured name source; the `Properties.*Query*` and `Properties.PathNamedUploadIsReachable` lemmas compare the two |
| Lifecycle.Upload | src/main.rs:74-110 | `upload_file` as a transition; its properties are stated in `Properties.UploadWithoutFileName`, `Properties.UploadSucceeds` and `Properties.UploadKeepsConsistency` |
| Lifecycle.UploadNamed | src/main.rs:80-95 | the directory and empty-file steps of `upload_file`; its properties are stated in `Properties.UploadEndStates`, `Properties.UploadTouchesOnlyItsOwn` and `Properties.UploadNamedKeepsConsistency` |
| Lifecycle.RecordUpload | src/main.rs:95-109 | the insert and body steps of `upload_file`; its properties are stated in `Properties.RecordUploadEffects` |
| Lifecycle.Overwrite | src/main.rs:112-132 | `overwrite_file` as a transition; its properties are stated in `Properties.OverwriteOfMissingFileFails`, `Properties.OverwriteSucceeds` and `Properties.OverwriteKeepsConsistency` |
| Lifecycle.OverwriteFile | src/main.rs:118-131 | the store steps of `overwrite_file`; its properties are stated in `Properties.OverwriteFileEffects` and `Properties.OverwriteFileKeepsConsistency` |
| Lifecycle.Delete | src/main.rs:134-153 | `delete_file` as a transition; its properties are stated in `Properties.DeleteSucceeds`, `Properties.RootDeleteRemovesUploadDirectory`, `Properties.DotDeleteEmptiesUploadDirectory`, `Properties.FailedRemovalLeavesFileWithoutRow` and `Properties.DeleteKeepsConsistency` |
| Lifecycle.Move | src/main.rs:155-189 | `move_file` as a transition; its properties are stated in `Properties.MoveWithoutHeader`, `Properties.MoveToUnusableName`, `Properties.MoveReachesStore` and `Properties.MoveKeepsConsistency` |
| Lifecycle.MoveFile | src/main.rs:170-188 | the store steps of `move_file`; its properties are stated in `Properties.MoveSucceeds`, `Properties.FailedRenameLeavesFileWithoutRow` and `Properties.MoveFileKeepsConsistency` |
| Lifecycle.HandlePost | src/auth.rs:58-85 | the upload behind `RequiresAuth`; its properties are stated in `Properties.GatesAreReadOnly` and `Properties.PostKeepsConsistency` |
| Lifecycle.HandlePut | src/auth.rs:132-160 | the overwrite behind `RequiresOwnership`; its properties are stated in `Properties.GatesAreReadOnly` and `Properties.PutKeepsConsistency` |
| Lifecycle.HandleDelete | src/auth.rs:132-160 | the delete behind `RequiresOwnership`; its properties are stated in `Properties.GatesAreReadOnly` and `Properties.IntendedDeleteKeepsConsistency` |
| Lifecycle.HandlePatch | src/auth.rs:132-160 | the move behind `RequiresOwnership`; its properties are stated in `Properties.GatesAreReadOnly` and `Properties.IntendedPatchKeepsConsistency` |
| Properties.UploadWithoutFileName | src/main.rs:76-79 | an upload without a file name answers "No valid path given" and changes nothing |
| Properties.UploadSucceeds | src/main.rs:80-109 | a successful upload adds exactly one new namespace holding exactly one file with the whole body, adds exactly one row `uuid/name ↦ users[key]`, leaves the upload directory in place, and answers `BASE_URL/uuid/name` |
| Properties.RecordUploadEffects | src/main.rs:96-108 | after the file is created, the upload inserts its row and writes the body prefix that reached the file |
| Properties.UploadShapes | src/main.rs:87-108 | a state that differs from a fresh-namespace state only by the row `ns/name` and by no, an empty or a one-file namespace `ns` (with a prefix of the body), with the upload directory present once `ns` is, changes only that namespace, that row and the upload directory's presence |
| Properties.UploadEndStates | src/main.rs:87-108 | an upload stops before or after its row insert, with no file, an empty file or a written prefix, and the upload directory exists once the namespace does |
| Properties.UploadTouchesOnlyItsOwn | src/main.rs:87-108 | whatever step fails, an upload touches only its own new namespace and row (and makes the upload directory exist once the namespace does), and its file holds a prefix of the body |
| Properties.AddUploadKeepsRowsWithFiles | src/main.rs:87-104 | adding a fresh namespace with one file and its row keeps every row with its file |
| Properties.AddUploadKeepsFilesWithRows | src/main.rs:87-104 | adding a fresh namespace with one file and its row keeps every file with its row |
| Properties.AddUploadKeepsConsistency | src/main.rs:87-104 | adding a fresh namespace with one file and its row keeps the two stores consistent |
| Properties.AddEmptyNamespaceKeepsConsistency | src/main.rs:87-94 | a fresh empty namespace directory keeps the two stores consistent |
| Properties.UploadNamedKeepsConsistency | src/main.rs:87-108 | unless the row insert fails, the store steps of an upload with a usable key keep the two stores consistent |
| Properties.UploadKeepsConsistency | src/main.rs:74-110 | unless the row insert fails, an upload with a usable key keeps the two stores consistent |
| Properties.FailedInsertLeavesFileWithoutRow | src/main.rs:92-103 | a failed row insert leaves the new file without its row, so the stores are no longer consistent |
| Properties.OverwriteOfMissingFileFails | src/main.rs:118-124 | overwriting a file that does not exist fails on opening and changes nothing |
| Properties.OverwriteSucceeds | src/main.rs:112-132 | a successful overwrite replaces the file's content with the body, leaves the rows and other files alone, purges the URL and answers `BASE_URL/target_path` |
| Properties.RewriteKeepsConsistency | src/main.rs:118-129 | rewriting the content of an existing file keeps the stores consistent |
| Properties.OverwriteFileEffects | src/main.rs:118-131 | whatever step fails, an overwrite leaves the rows alone and at most rewrites the content of an existing file |
| Properties.OverwriteFileKeepsConsistency | src/main.rs:118-131 | whatever step fails, the store effects of an overwrite keep the stores consistent |
| Properties.OverwriteKeepsConsistency | src/main.rs:112-132 | whatever step fails, an overwrite keeps the stores consistent |
| Properties.DeleteSucceeds | src/main.rs:134-153 | a successful delete removes exactly the row equal to the stripped path and the whole namespace of its first segment, purges the URL and answers "OK" |
| Properties.RootDeleteRemovesUploadDirectory | src/main.rs:139-149 | a delete with an empty first segment removes the upload directory and answers "OK"; repeating it panics on removing the directory |
| Properties.DotDeleteEmptiesUploadDirectory | src/main.rs:139-149 | a delete whose first segment is `.` deletes the row, removes every namespace in the upload directory, then panics on removing `.` itself, with nothing purged |
| Properties.DeleteStateIgnoresOtherFaults | src/main.rs:134-153 | apart from a failing row delete or directory removal, a fault leaves a delete's stores exactly as a fault-free delete does |
| Properties.FailedRemovalLeavesFileWithoutRow | src/main.rs:137-150 | a directory removal that fails after the row delete leaves the namespace's file without its row, so the stores are no longer consistent |
| Properties.MoveFileStateIgnoresOtherFaults | src/main.rs:170-188 | apart from a failing row update or rename, a fault leaves a move's stores exactly as a fault-free move does |
| Properties.FailedRenameLeavesFileWithoutRow | src/main.rs:176-185 | a rename that fails after the row update leaves the file without its row, so the stores are no longer consistent |
| Properties.RemoveUploadKeepsRowsWithFiles | src/main.rs:140-149 | removing a row and its namespace keeps every other row with its file |
| Properties.RemoveUploadKeepsFilesWithRows | src/main.rs:140-149 | removing a row and its namespace keeps every other file with its row |
| Properties.DeleteKeepsConsistency | src/main.rs:134-153 | deleting an existing row with no fault keeps the stores consistent |
| Properties.MoveWithoutHeader | src/main.rs:157-160 | a move without `X-Rename-To` answers "X-Rename-To not set" and changes nothing |
| Properties.MoveToUnusableName | src/main.rs:161-164 | a move whose `X-Rename-To` has no file name answers "No valid path given" and changes nothing |
| Properties.MoveReachesStore | src/main.rs:165-168 | a usable move acts on the first two segments of the stripped path |
| Properties.MoveSucceeds | src/main.rs:170-188 | a successful move renames the row to `uuid/name` with the same uploader, renames the file in its namespace with its content kept, purges the old URL and not the new one, and answers `BASE_URL/uuid/name` |
| Properties.RenameSoleFile | src/main.rs:184-186 | renaming the only file of a namespace leaves only the new name, with the same content |
| Properties.RenameKeepsRowsWithFiles | src/main.rs:176-186 | renaming a row and its file together keeps every row with its file |
| Properties.RenameKeepsFilesWithRows | src/main.rs:176-186 | renaming a row and its file together keeps every file with its row |
| Properties.MoveFileKeepsConsistency | src/main.rs:170-188 | the store effects of a move with no fault keep the stores consistent |
| Properties.MoveKeepsConsistency | src/main.rs:155-189 | a move of an existing row with no fault keeps the stores consistent |
| Properties.RowNamespace | src/main.rs:95-104 | in a consistent state, a row `ns/f` has namespace `ns`, which holds only `f` |
| Properties.UnusableHeaderIsRefusedEverywhere | src/auth.rs:74-83 | a missing or non-string header gets a 403 from all four handlers, with nothing changed |
| Properties.OwnershipGateChecksHandlerTarget | src/auth.rs:137 | the intended ownership gate checks the same stripped path the handlers use: the owned row is the one a delete removes and a move renames, and the file it records is the one an overwrite writes and a move renames |
| Properties.PatchRenamesOwnedRow | src/main.rs:165-186 | behind the intended gate, a move with a usable name renames exactly the owned row and its file |
| Properties.AsWrittenGateAdmitsEscapingPaths | src/auth.rs:137-147 | as written, an unregistered key is admitted for `PUT //etc/x`, whose path leaves the upload directory, and for `DELETE /../x`, whose first segment is `..` |
| Properties.GatesAreReadOnly | src/auth.rs:79-83 | a gate that refuses changes nothing, and a gate that admits passes the same request and state to its handler |
| Properties.PostKeepsConsistency | src/main.rs:74-110 | unless the row insert fails, an upload request keeps the stores consistent behind either gate |
| Properties.PutKeepsConsistency | src/main.rs:112-132 | whatever step fails, an overwrite request keeps the stores consistent behind either gate |
| Properties.IntendedDeleteKeepsConsistency | src/auth.rs:136-158 | behind the intended gate, a delete request keeps the stores consistent under every fault except a failing directory removal |
| Properties.IntendedPatchKeepsConsistency | src/auth.rs:136-158 | behind the intended gate, a move request keeps the stores consistent under every fault except a failing rename |
| Properties.IntendedUploaderOwnsUpload | src/main.rs:96-104 | behind the intended gates, a registered uploader owns the new path and the ownership gate admits it there, for a URI without a query or with the name taken from the path |
| Properties.AsWrittenQueryUploadIsUnreachable | src/main.rs:76 | as written, an upload whose name holds a `?` records a row that no request's stripped path equals |
| Properties.AsWrittenQueryEndsUpInName | src/main.rs:76 | as written, `POST /a.txt?v=1` is named `a.txt?v=1` |
| Properties.PathNamedUploadIsReachable | src/main.rs:76 | with the name taken from the path, the uploader's request on `/uuid/name` targets the new row and is admitted by the intended gate |
| Properties.IntendedSecondDeleteIsForbidden | src/main.rs:140-146 | behind the intended gate, repeating a delete after it succeeded is refused |
| Properties.AsWrittenRegisteredKeyCannotUpload | src/auth.rs:72 | as written, every upload with a registered key gets a 403 and changes nothing |
| Properties.AsWrittenUploadsHaveNoUploader | src/main.rs:98 | as written, every row an upload adds has a NULL uploader |
| Properties.AsWrittenStrangerDeletesAnyUpload | src/auth.rs:147 | as written, a key that belongs to no user deletes any recorded upload and its whole namespace |
| Properties.AsWrittenStrangerEmptiesUploadDirectory | src/auth.rs:147 | as written, a key that belongs to no user gets `DELETE /./x` past the gate, and it empties the whole upload directory before panicking |
| Properties.AsWrittenOwnerIsLockedOut | src/auth.rs:147 | as written, the recorded owner gets a 403 on overwrite, delete and move of their upload |
| Properties.OneUploadIsConsistent | src/main.rs:95-104 | a state holding exactly one upload and its file is consistent |
| Properties.AsWrittenDeleteBreaksConsistency | src/main.rs:136-149 | as written, a consistent state and an admitted delete of a path that has no row remove a directory whose file still has its row |
| Server.FileHost.constructor | src/main.rs:196-208 | the service starts on the configuration and on the stores as they already are |
| Server.FileHost.PurgeCache | src/main.rs:45-63 | records the purged URL exactly when `CF_ID` is set, and ends in a panic when the CDN request fails |
| Server.FileHost.WriteBody | src/main.rs:105-108 | the loop stops at the first failing chunk and leaves the in-order concatenation of the chunks before it in the file, with nothing else changed |
| Server.FileHost.Upload | src/main.rs:74-110 | the state and answer are exactly those of `Lifecycle.Upload` |
| Server.FileHost.StoreUpload | src/main.rs:87-95 | creates the directory, then the empty file, then records, as `Lifecycle.UploadNamed` does |
| Server.FileHost.Record | src/main.rs:96-109 | inserts the row, then writes the body, as `Lifecycle.RecordUpload` does |
| Server.FileHost.Overwrite | src/main.rs:112-132 | the state and answer are exactly those of `Lifecycle.Overwrite` |
| Server.FileHost.StoreOverwrite | src/main.rs:118-131 | truncates, writes the body and purges, as `Lifecycle.OverwriteFile` does |
| Server.FileHost.Delete | src/main.rs:134-153 | the state and answer are exactly those of `Lifecycle.Delete` |
| Server.FileHost.Move | src/main.rs:155-189 | the state and answer are exactly those of `Lifecycle.Move` |
| Server.FileHost.StoreMove | src/main.rs:170-188 | updates the row, renames the file and purges the old URL, as `Lifecycle.MoveFile` does |
| Server.FileHost.HandlePost | src/auth.rs:62-83 | exactly `Lifecycle.HandlePost`; unless the row insert fails, a consistent state stays consistent |
| Server.FileHost.HandlePut | src/auth.rs:136-158 | exactly `Lifecycle.HandlePut`; whatever fails, a consistent state stays consistent |
| Server.FileHost.HandleDelete | src/auth.rs:136-158 | exactly `Lifecycle.HandleDelete`; behind the intended gate, unless removing the directory fails, a consistent state stays consistent |
| Server.FileHost.HandlePatch | src/auth.rs:136-158 | exactly `Lifecycle.HandlePatch`; behind the intended gate, unless the rename fails, a consistent state stays consistent |

## Left out

- actix-web wiring is not modelled: `Transform`, `Service`, `poll_ready`, the routing macros and `main`. The only part kept is that a gate either answers 403 or calls its handler once.
- The Postgres pool and the SQL text are not modelled. Each query becomes the map operation with the same meaning. `users` is a map, so a key belongs to at most one user.
- `uploads` is a map keyed by `file_path`, which assumes the column is unique. An `UPDATE` onto another existing row is modelled as a failing database call.
- The Cloudflare request is not modelled. Only the purged URL is recorded, and a failure becomes one injected fault (`PurgeRequest`). The JSON body, the headers and the HTTP client are left out.
- Environment configuration is not modelled. `BASE_URL`, whether `CF_ID` is set, and `UPLOAD_DIRECTORY` are parameters. The upload directory is the root of `objects`, and `rootExists` records whether it is on disk.
- `Uuid::new_v4` is not modelled. The namespace is a parameter with a freshness precondition.
- Only origin-form request targets are modelled: the URI is a path and an optional query. An absolute-form target, whose `req.uri()` also holds a scheme and a host, is not modelled, and neither is percent-decoding.
- Panics are modelled as an `Aborted` answer. Everything after a panic is left out: actix turning it into an error response, and the worker itself.
- Concurrency, async suspension and pool exhaustion are not modelled. Each call is one whole request on its own.
- A single fault per request is modelled. A chunk that fails is modelled as writing none of its bytes. A `write_all` that fails partway through a chunk is not modelled.
- I/O faults are named steps. The exact OS error behind each step is not modelled.
- The model's `/`-split stands for `Path` resolution under the upload directory. It is exact for the paths a client can reach without `..` and without a leading `/`, and for a move with a plain first segment. Only `..` and a leading `/` leave the upload directory. Symbolic links and OS normalisation are not modelled.
- Lifecycle.Upload: requires the namespace to be fresh, which stands for a new uuid never colliding with an existing directory or row.
- The ownership join at src/auth.rs:145 selects an unqualified `"id"` from `users JOIN uploads`. The model assumes the query resolves. If `uploads` also has an `id` column, PostgreSQL rejects the query as ambiguous and the `.unwrap()` panics for every usable key. That case is only the `GateQuery` fault, and then no PUT, DELETE or PATCH reaches a handler. The Findings row for src/auth.rs:147 holds only when the join resolves.
- Requests whose paths leave the upload directory are not modelled past the gate. Behind the gate as written, any unregistered key is admitted for them (`Properties.AsWrittenGateAdmitsEscapingPaths`). `PUT //etc/x` would truncate and write `/etc/x`, because `PathBuf::push` of an absolute path replaces the upload directory. `DELETE /../x` would run `remove_dir_all` on the upload directory's parent. The requires of the handlers below exclude these requests, so the model says nothing about their effects.
- Lifecycle.Overwrite: requires the stripped path to stay inside the upload directory (no `..` piece, no leading `/`), because the model does not resolve paths that leave it.
- Lifecycle.Delete: requires the first segment not to be `..`, because removing the upload directory's parent is not modelled. An empty first segment is modelled: it removes the upload directory itself, as `PathBuf::push("")` does, and a repeat panics once the directory is gone. The next upload recreates it, because the directory is created recursively. A `.` first segment is modelled too: `remove_dir_all` on `UPLOAD_DIRECTORY/.` removes every namespace and then fails on `.` itself, so the row is gone, the directory is empty and the handler panics before any purge.
- Lifecycle.Move: requires the namespace segment to be a plain name whenever the handler gets that far. An empty or `.` namespace stays inside the upload directory, but `rename` then acts on directories, not on a file: `PATCH //x` with `X-Rename-To: y` renames namespace `x` to `y`, which leaves the rows `x/...` without their files. Renaming directories is not modelled, so these requests are excluded.
- Lifecycle.HandlePut: requires the overwrite scope above only when the gate admits.
- Lifecycle.HandleDelete: requires the delete scope above only when the gate admits.
- Lifecycle.HandlePatch: requires the move scope above only when the gate admits.
- Server.FileHost.HandleDelete: preserves consistency only behind the intended gate, and not when removing the directory fails after the row delete (`Properties.FailedRemovalLeavesFileWithoutRow`). Behind the gate as written, a delete of a path without a row can remove another row's directory (see Findings).
- Server.FileHost.HandlePatch: preserves consistency only behind the intended gate, and not when the rename fails after the row update (`Properties.FailedRenameLeavesFileWithoutRow`). As written, the gate admits moves of paths that have no row.
- Server.FileHost.HandlePost: preserves consistency only when the row insert does not fail. A failed insert after `File::create` leaves an empty file without a row (`Properties.FailedInsertLeavesFileWithoutRow`), because the source creates the file before the row and rolls nothing back.

## Findings

| source | as written | input that shows it | evidently intended | confidence | as-written member | corrected member |
|---|---|---|---|---|---|---|
| src/auth.rs:72 | `is_valid = results.is_empty()` admits a key that no user holds and refuses every registered key (`Auth.RegisteredKeyIsForbidden`, `Properties.AsWrittenRegisteredKeyCannotUpload`) | users `{"k" ↦ 1}`, `POST /a.txt` with `Authorization: k`: 403; the same request with key `x`: admitted, and the row gets a NULL uploader | admit exactly when the key lookup finds a user | high, not executed | Auth.RequiresAuthAsWritten | Auth.RequiresAuthIntended |
| src/auth.rs:147 | `is_valid = results.is_empty()` refuses the owner and admits every other usable key on every path (`Auth.OwnerIsForbidden`, `Properties.AsWrittenStrangerDeletesAnyUpload`, `Properties.AsWrittenDeleteBreaksConsistency`) | users `{"k" ↦ 1}`, uploads `{"u/f" ↦ 1}`, directory `u` holding `f`; `DELETE /u/g` with key `k` is admitted, removes no row and removes directory `u`, leaving row `u/f` without its file | admit exactly when the key's user is the recorded uploader of the path | high, not executed | Auth.RequiresOwnershipAsWritten | Auth.RequiresOwnershipIntended |
| src/main.rs:76 | the upload's file name comes from `req.uri().to_string()`, which keeps the query, while the gate and the other handlers use `req.path()`, which never holds one (`Properties.AsWrittenQueryUploadIsUnreachable`) | `POST /a.txt?v=1` records the row `uuid/a.txt?v=1` (`Properties.AsWrittenQueryEndsUpInName`); no later request's stripped path is that row, so even behind the intended gates its owner can never overwrite, delete or move it | take the name from `req.path()`, so an upload is reached at `/uuid/name` | medium, not executed | Lifecycle.NameAsWritten | Lifecycle.NameIntended |

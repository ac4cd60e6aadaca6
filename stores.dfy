/**
  The two stores the handlers of src/main.rs keep in step: the metadata
  database (the `users` and `uploads` tables) and the upload directory on disk,
  plus the URLs handed to the CDN purge. Also the injected faults that stand for
  the `.expect`/`.unwrap` calls that can panic partway through a handler.
*/
module Stores {
  import opened Wrappers
  import opened Paths

  type Bytes = seq<bv8>

  /**
    `users`: capability key to user id. `uploads`: `file_path` to the uploader
    (NULL when the insert's sub-select found no user). `rootExists`: whether
    `UPLOAD_DIRECTORY` itself is on disk. `objects`: namespace directory under it
    to file name to content. `purged`: the URLs sent to the CDN, in order.
  */
  datatype State = State(
    users: map<string, int>,
    uploads: map<string, Option<int>>,
    rootExists: bool,
    objects: map<string, map<string, Bytes>>,
    purged: seq<string>)

  /** The step of a handler or gate at which an I/O or database call fails. */
  datatype Step =
    | GateQuery       // the gate's pool.get() or query
    | CreateDir       // DirBuilder::create
    | CreateFile      // File::create
    | OpenFile        // OpenOptions::open
    | Database        // the handler's pool.get() or execute
    | ReadChunk(i: nat)   // payload chunk i is an error
    | WriteChunk(i: nat)  // write_all of chunk i fails
    | RemoveDir       // remove_dir_all
    | Rename          // rename
    | PurgeRequest    // the CDN request fails or does not answer 200

  datatype Fault = NoFault | FailAt(step: Step)

  /** The fault is in reading or writing a chunk of the body. */
  predicate ChunkFault(fault: Fault) {
    fault.FailAt? && (fault.step.ReadChunk? || fault.step.WriteChunk?)
  }

  predicate ChunkFails(fault: Fault, i: nat) {
    fault == FailAt(ReadChunk(i)) || fault == FailAt(WriteChunk(i))
  }

  /** How many chunks of the body reach the file before the first chunk that fails. */
  function Written(chunks: seq<Bytes>, fault: Fault): (n: nat)
    ensures n <= |chunks|
    ensures forall j: nat :: j < n ==> !ChunkFails(fault, j)
    ensures n < |chunks| ==> ChunkFails(fault, n)
  {
    if ChunkFault(fault) && fault.step.i < |chunks| then fault.step.i else |chunks|
  }

  /** The bytes of the chunks one after another. */
  function Concat(chunks: seq<Bytes>): Bytes {
    if chunks == [] then [] else Concat(chunks[..|chunks| - 1]) + chunks[|chunks| - 1]
  }

  lemma ConcatAppend(chunks: seq<Bytes>, c: Bytes)
    ensures Concat(chunks + [c]) == Concat(chunks) + c
  {
    assert (chunks + [c])[..|chunks|] == chunks;
  }

  /** Every chunk's bytes sit in the concatenation, at the offset of the chunks before it. */
  lemma {:induction false} ConcatSpans(chunks: seq<Bytes>, i: nat)
    requires i < |chunks|
    ensures |Concat(chunks[..i])| + |chunks[i]| <= |Concat(chunks)|
    ensures Concat(chunks)[|Concat(chunks[..i])|..|Concat(chunks[..i])| + |chunks[i]|] == chunks[i]
    decreases |chunks|
  {
    var init := chunks[..|chunks| - 1];
    if i == |chunks| - 1 {
      assert chunks[..i] == init;
    } else {
      ConcatSpans(init, i);
      assert init[..i] == chunks[..i] && init[i] == chunks[i];
      assert Concat(chunks) == Concat(init) + chunks[|chunks| - 1];
    }
  }

  /** What a body cut short at chunk `i` leaves in the file is a prefix of the whole body. */
  lemma {:induction false} ConcatPrefix(chunks: seq<Bytes>, i: nat)
    requires i <= |chunks|
    ensures Concat(chunks[..i]) <= Concat(chunks)
    decreases |chunks|
  {
    if i < |chunks| {
      var init := chunks[..|chunks| - 1];
      assert init[..i] == chunks[..i];
      ConcatPrefix(init, i);
    } else {
      assert chunks[..i] == chunks;
    }
  }

  /** Every namespace and file name in the upload directory is a plain name. */
  ghost predicate WellNamed(objects: map<string, map<string, Bytes>>) {
    forall ns :: ns in objects ==> PlainName(ns) && forall f :: f in objects[ns] ==> PlainName(f)
  }

  /** Every row `ns/f` has its namespace `ns`, holding the file `f` and nothing else. */
  ghost predicate RowsHaveFiles(s: State) {
    forall p :: p in s.uploads ==>
      |Split(p)| == 2 && Split(p)[0] in s.objects && s.objects[Split(p)[0]].Keys == {Split(p)[1]}
  }

  /** Every file `f` in namespace `ns` has the row `ns/f`. */
  ghost predicate FilesHaveRows(s: State) {
    forall ns, f {:trigger DisplayPath(ns, f)} :: ns in s.objects && f in s.objects[ns] ==> DisplayPath(ns, f) in s.uploads
  }

  /** Without the upload directory there is no namespace directory either. */
  predicate RootHoldsObjects(s: State) {
    !s.rootExists ==> s.objects == map[]
  }

  /** The two stores agree (together, a namespace holds at most one file). */
  ghost predicate Consistent(s: State) {
    RowsHaveFiles(s) && FilesHaveRows(s) && RootHoldsObjects(s)
  }

  /** A namespace a fresh v4 uuid can name: plain, with no directory and no row `ns/...` yet. */
  ghost predicate FreshNamespace(s: State, ns: string) {
    PlainName(ns) && ns !in s.objects && forall f :: DisplayPath(ns, f) !in s.uploads
  }

  /** Moves the value of one key to another key (`UPDATE ... SET` and `rename`); no-op without the key. */
  function RenameKey<V>(m: map<string, V>, from: string, to: string): (r: map<string, V>)
    ensures from in m ==> to in r && r[to] == m[from]
    ensures from in m ==> r.Keys == m.Keys - {from} + {to}
    ensures forall k :: k in m && k != from && k != to ==> k in r && r[k] == m[k]
    ensures from !in m ==> r == m
  {
    if from in m then (m - {from})[to := m[from]] else m
  }
}

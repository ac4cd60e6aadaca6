/**
  Path rules of the handlers in src/main.rs: splitting a path on `/`, the final
  path component that Rust's `Path::file_name` returns (`parse_filename_from_uri`),
  and the display paths and public URLs that the handlers compose.
*/
module Paths {
  import opened Wrappers

  /** A name `Path::file_name` can return: not empty, not `.` or `..`, no `/`. */
  predicate PlainName(s: string) {
    s != "" && s != "." && s != ".." && '/' !in s
  }

  /** `s.split("/")`: the pieces between slashes, empty pieces included. */
  function Split(s: string): (segs: seq<string>)
    ensures |segs| > 0
    ensures forall i :: 0 <= i < |segs| ==> '/' !in segs[i]
    decreases |s|
  {
    if s == "" then [""]
    else
      var tail := Split(s[1..]);
      if s[0] == '/' then [""] + tail
      else [[s[0]] + tail[0]] + tail[1..]
  }

  /** Puts the pieces back together with `/` between them. */
  function Join(segs: seq<string>): string
    requires |segs| > 0
  {
    if |segs| == 1 then segs[0] else segs[0] + "/" + Join(segs[1..])
  }

  /** `s.split("/").next()`: everything before the first `/`. */
  function FirstSegment(s: string): string {
    Split(s)[0]
  }

  /** Drops the pieces Rust's `Path::components` skips: empty ones and `.`. */
  function Keep(segs: seq<string>): (kept: seq<string>)
    ensures forall i :: 0 <= i < |kept| ==> kept[i] != "" && kept[i] != "." && kept[i] in segs
  {
    if segs == [] then []
    else (if segs[0] == "" || segs[0] == "." then [] else [segs[0]]) + Keep(segs[1..])
  }

  /** The normal and `..` components of a relative or absolute path. */
  function Components(s: string): (cs: seq<string>)
    ensures forall i :: 0 <= i < |cs| ==> cs[i] != "" && cs[i] != "." && '/' !in cs[i]
  {
    Keep(Split(s))
  }

  /**
    `parse_filename_from_uri`: pushes the string onto an empty `PathBuf` (which
    leaves it as it is) and takes `file_name`, the last component unless there is
    none or it is `..`.
  */
  function ParseFilename(uri: string): (name: Option<string>)
    ensures name.Some? ==> PlainName(name.value) && name.value in Split(uri)
  {
    var cs := Components(uri);
    if cs == [] || cs[|cs| - 1] == ".." then None else Some(cs[|cs| - 1])
  }

  /** `format!("{}/{}", uuid, name)`: the path a row records and a URL ends with. */
  function DisplayPath(ns: string, name: string): string {
    ns + "/" + name
  }

  /** `format!("{}/{}", *BASE_URL, path)`: the public URL of a path. */
  function Url(baseUrl: string, path: string): (url: string)
    ensures |url| == |baseUrl| + 1 + |path|
    ensures url[..|baseUrl|] == baseUrl && url[|baseUrl|] == '/' && url[|baseUrl| + 1..] == path
  {
    baseUrl + "/" + path
  }

  /** Two paths under the same base URL have the same URL exactly when they are the same path. */
  lemma UrlInjective(baseUrl: string, p: string, q: string)
    ensures Url(baseUrl, p) == Url(baseUrl, q) <==> p == q
  {
    if Url(baseUrl, p) == Url(baseUrl, q) {
      assert p == Url(baseUrl, p)[|baseUrl| + 1..];
    }
  }

  /**
    Whether `UPLOAD_DIRECTORY` pushed with `target` stays inside the upload
    directory: a leading `/` would make the pushed path absolute, and a `..`
    piece could climb out of it.
  */
  predicate StaysInUploadRoot(target: string) {
    (target == "" || target[0] != '/') && ".." !in Split(target)
  }

  /**
    The namespace and file that opening `UPLOAD_DIRECTORY/target` reaches, for a
    target that stays inside the upload directory: exactly one directory piece
    (empty and `.` pieces resolve to the same directory) and a final piece that
    names a file (a trailing `/` or `/.` demands a directory).
  */
  function Locate(target: string): (loc: Option<(string, string)>)
    ensures StaysInUploadRoot(target) && loc.Some? ==> PlainName(loc.value.0) && PlainName(loc.value.1)
  {
    var segs := Split(target);
    var last := segs[|segs| - 1];
    var dirs := Keep(segs[..|segs| - 1]);
    if last == "" || last == "." || |dirs| != 1 then None else Some((dirs[0], last))
  }

  // Splitting

  lemma {:induction false} SplitPlain(a: string)
    requires '/' !in a
    ensures Split(a) == [a]
    decreases |a|
  {
    if a != "" {
      SplitPlain(a[1..]);
      assert [a[0]] + a[1..] == a;
    }
  }

  /** A character missing from a string is missing from each of its pieces. */
  lemma {:induction false} SplitKeepsOut(s: string, c: char)
    requires c !in s
    ensures forall i :: 0 <= i < |Split(s)| ==> c !in Split(s)[i]
    decreases |s|
  {
    if s != "" {
      assert c !in s[1..] by {
        assert forall k :: 0 <= k < |s[1..]| ==> s[1..][k] == s[k + 1];
      }
      SplitKeepsOut(s[1..], c);
    }
  }

  /** Splitting distributes over a join with `/`, the property every other path lemma rests on. */
  lemma {:induction false} SplitConcat(a: string, b: string)
    ensures Split(a + "/" + b) == Split(a) + Split(b)
    decreases |a|
  {
    var s := a + "/" + b;
    if a == "" {
      assert s == "/" + b && s[1..] == b;
    } else {
      assert s[0] == a[0] && s[1..] == a[1..] + "/" + b;
      SplitConcat(a[1..], b);
    }
  }

  /** Join undoes Split. */
  lemma {:induction false} JoinSplit(s: string)
    ensures Join(Split(s)) == s
    decreases |s|
  {
    if s != "" {
      var tail := Split(s[1..]);
      JoinSplit(s[1..]);
      if s[0] == '/' {
        assert Split(s)[1..] == tail;
      } else if |tail| == 1 {
        assert Split(s) == [[s[0]] + s[1..]];
      } else {
        assert Split(s)[1..] == tail[1..];
        assert Join(tail) == tail[0] + "/" + Join(tail[1..]);
      }
    }
  }

  /** Split undoes Join, for pieces that hold no `/`. */
  lemma {:induction false} SplitJoin(segs: seq<string>)
    requires |segs| > 0
    requires forall i :: 0 <= i < |segs| ==> '/' !in segs[i]
    ensures Split(Join(segs)) == segs
  {
    if |segs| == 1 {
      SplitPlain(segs[0]);
    } else {
      SplitPlain(segs[0]);
      SplitJoin(segs[1..]);
      SplitConcat(segs[0], Join(segs[1..]));
      assert segs == [segs[0]] + segs[1..];
    }
  }

  /** A display path splits back into its namespace and its file name. */
  lemma DisplayPathSplits(ns: string, name: string)
    requires '/' !in ns && '/' !in name
    ensures Split(DisplayPath(ns, name)) == [ns, name]
    ensures FirstSegment(DisplayPath(ns, name)) == ns
  {
    SplitConcat(ns, name);
    SplitPlain(ns);
    SplitPlain(name);
  }

  /** A path that splits into two pieces is the display path of those pieces. */
  lemma TwoPiecesAreDisplayPath(p: string)
    requires |Split(p)| == 2
    ensures p == DisplayPath(Split(p)[0], Split(p)[1])
  {
    JoinSplit(p);
    assert Join(Split(p)[1..]) == Split(p)[1];
  }

  /** Opening a display path of two plain names reaches that namespace and file. */
  lemma LocateDisplayPath(ns: string, name: string)
    requires PlainName(ns) && PlainName(name)
    ensures StaysInUploadRoot(DisplayPath(ns, name))
    ensures Locate(DisplayPath(ns, name)) == Some((ns, name))
  {
    DisplayPathSplits(ns, name);
    var segs := Split(DisplayPath(ns, name));
    assert segs[..1] == [ns];
    assert Keep([ns]) == [ns];
  }

  // Components and file names

  lemma {:induction false} KeepConcat(x: seq<string>, y: seq<string>)
    ensures Keep(x + y) == Keep(x) + Keep(y)
  {
    if x != [] {
      assert (x + y)[0] == x[0] && (x + y)[1..] == x[1..] + y;
      KeepConcat(x[1..], y);
    } else {
      assert x + y == y;
    }
  }

  lemma ComponentsConcat(a: string, b: string)
    ensures Components(a + "/" + b) == Components(a) + Components(b)
  {
    SplitConcat(a, b);
    KeepConcat(Split(a), Split(b));
  }

  /** The empty input, `/`, `//` and every other slash-only input have no file name. */
  lemma {:induction false} SlashesOnlyHaveNoName(u: string)
    requires forall i :: 0 <= i < |u| ==> u[i] == '/'
    ensures Components(u) == []
    ensures ParseFilename(u) == None
    decreases |u|
  {
    if u != "" {
      SlashesOnlyHaveNoName(u[1..]);
      assert Split(u) == [""] + Split(u[1..]);
      KeepConcat([""], Split(u[1..]));
    }
  }

  /** A path whose last component is `..` has no file name. */
  lemma ParentLastHasNoName(p: string)
    ensures ParseFilename(p + "/..") == None
  {
    ComponentsConcat(p, "..");
    SplitPlain("..");
    assert Keep([".."]) == [".."] + Keep([]);
    assert Components("..") == Keep(Split("..")) == [".."];
    assert p + "/.." == p + "/" + "..";
    var cs := Components(p + "/..");
    assert cs == Components(p) + [".."] && cs[|cs| - 1] == "..";
  }

  /** A trailing `/` does not change the file name. */
  lemma TrailingSlashIgnored(u: string)
    ensures ParseFilename(u + "/") == ParseFilename(u)
  {
    assert u + "/" == u + "/" + "";
    ComponentsConcat(u, "");
    assert Components("") == [];
    assert Components(u + "/") == Components(u) + [] == Components(u);
  }

  /** A trailing `/.` does not change the file name. */
  lemma TrailingDotIgnored(u: string)
    ensures ParseFilename(u + "/.") == ParseFilename(u)
  {
    assert u + "/." == u + "/" + ".";
    ComponentsConcat(u, ".");
    SplitPlain(".");
    assert Components(".") == [];
    assert Components(u + "/.") == Components(u) + [] == Components(u);
  }

  /** A plain name is its own file name. */
  lemma PlainNameParsesToItself(n: string)
    requires PlainName(n)
    ensures Components(n) == [n]
    ensures ParseFilename(n) == Some(n)
  {
    SplitPlain(n);
    assert Keep([n]) == [n] + Keep([]);
  }

  /** The file name of `prefix/n` is `n` for every plain name `n`, whatever precedes it. */
  lemma LastPlainNameIsFileName(prefix: string, n: string)
    requires PlainName(n)
    ensures ParseFilename(prefix + "/" + n) == Some(n)
  {
    ComponentsConcat(prefix, n);
    PlainNameParsesToItself(n);
  }

  /** Parsing a parsed file name gives it back. */
  lemma ParseIdempotent(u: string)
    requires ParseFilename(u).Some?
    ensures ParseFilename(ParseFilename(u).value) == ParseFilename(u)
  {
    PlainNameParsesToItself(ParseFilename(u).value);
  }
}

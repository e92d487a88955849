/**
 * The generated files of one entrypoint and where they go: every file is
 * written to `<internalDirectory>/<entryName>/<file name>`.
 *
 * The file-name constants are not part of this model, so they are a
 * record of abstract strings; the facts that need them to be distinct, or
 * free of path separators, say so in their requires.
 */
module Paths {

  /** The seven generated files, in the order they are written. */
  datatype FileKind =
    | Index                 // ENTRY_POINT_FILE_NAME
    | Bootstrap             // ENTRY_BOOTSTRAP_FILE_NAME
    | ServerBootstrap       // ENTRY_SERVER_BOOTSTRAP_FILE_NAME
    | ServerIndex           // SERVER_ENTRY_POINT_FILE_NAME
    | Register              // ENTRY_POINT_REGISTER_FILE_NAME
    | RuntimeRegister       // ENTRY_POINT_RUNTIME_REGISTER_FILE_NAME
    | RuntimeGlobalContext  // ENTRY_POINT_RUNTIME_GLOBAL_CONTEXT_FILE_NAME

  /** Position of a file kind in the per-entrypoint write order. */
  function Rank(k: FileKind): nat {
    match k
    case Index => 0
    case Bootstrap => 1
    case ServerBootstrap => 2
    case ServerIndex => 3
    case Register => 4
    case RuntimeRegister => 5
    case RuntimeGlobalContext => 6
  }

  /** The file-name constants; `index` is INDEX_FILE_NAME, the module the
      asynchronous bootstrap imports. */
  datatype FileNames = FileNames(
    entryPoint: string,
    entryBootstrap: string,
    entryServerBootstrap: string,
    serverEntryPoint: string,
    register: string,
    runtimeRegister: string,
    runtimeGlobalContext: string,
    index: string)

  function FileNameOf(names: FileNames, k: FileKind): string {
    match k
    case Index => names.entryPoint
    case Bootstrap => names.entryBootstrap
    case ServerBootstrap => names.entryServerBootstrap
    case ServerIndex => names.serverEntryPoint
    case Register => names.register
    case RuntimeRegister => names.runtimeRegister
    case RuntimeGlobalContext => names.runtimeGlobalContext
  }

  /** No two file kinds share a file name. */
  predicate DistinctFileNames(names: FileNames) {
    forall k1: FileKind, k2: FileKind :: FileNameOf(names, k1) == FileNameOf(names, k2) ==> k1 == k2
  }

  /** A single path segment that `path.resolve` keeps as it is on POSIX and
      on win32: it holds neither separator, `/` nor `\`, and is neither empty
      nor `.` nor `..`. */
  predicate Segment(s: string) {
    s != "" && s != "." && s != ".." && '/' !in s && '\\' !in s
  }

  /** `path.resolve(dir, "./<entryName>/<file>")` as a triple. */
  datatype Path = Path(dir: string, entryName: string, file: string)

  /** Where the generated file of kind `k` of entry `entryName` goes. */
  function PathOf(dir: string, entryName: string, names: FileNames, k: FileKind): Path {
    Path(dir, entryName, FileNameOf(names, k))
  }

  /** The path as a string, without `path.resolve`'s normalisation. */
  function Render(p: Path): string {
    p.dir + "/" + p.entryName + "/" + p.file
  }

  /** The separator placed before a segment is the last one in the string. */
  lemma NoSeparatorAfter(a: string, f: string)
    requires Segment(f)
    ensures (a + "/" + f)[|a|] == '/'
    ensures forall i :: |a| < i < |a + "/" + f| ==> (a + "/" + f)[i] != '/'
  {
  }

  /** Splitting a string at its last separator is unique. */
  lemma SplitAtLastSeparator(a1: string, f1: string, a2: string, f2: string)
    requires Segment(f1) && Segment(f2)
    requires a1 + "/" + f1 == a2 + "/" + f2
    ensures a1 == a2 && f1 == f2
  {
    var s := a1 + "/" + f1;
    NoSeparatorAfter(a1, f1);
    NoSeparatorAfter(a2, f2);
    assert |a1| == |a2|;
    assert a1 == s[..|a1|];
    assert a2 == s[..|a2|];
    assert f1 == s[|a1| + 1..];
    assert f2 == s[|a2| + 1..];
  }

  /** Within one directory, a rendered path determines its entry name and
      file name when both are single segments. */
  lemma RenderInjective(p: Path, q: Path)
    requires p.dir == q.dir
    requires Segment(p.entryName) && Segment(p.file)
    requires Segment(q.entryName) && Segment(q.file)
    requires Render(p) == Render(q)
    ensures p == q
  {
    SplitAtLastSeparator(p.dir + "/" + p.entryName, p.file, q.dir + "/" + q.entryName, q.file);
    var d := p.dir + "/";
    assert d + p.entryName == d + q.entryName;
    assert p.entryName == (d + p.entryName)[|d|..];
    assert q.entryName == (d + q.entryName)[|d|..];
  }
}

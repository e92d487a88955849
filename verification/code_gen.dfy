/**
 * The per-entrypoint code generation of the runtime plugin (`generateCode`):
 * for each entrypoint, which files are written, under which path and with
 * what content.
 *
 * File I/O becomes a returned list of writes. The templates are opaque
 * tokens carrying exactly the arguments they are given; the two bootstrap
 * files are literal strings. The `_internalRuntimePlugins` hook is a
 * function parameter: the plan records the call made to it and passes its
 * result on to the runtime-register template.
 */
module CodeGen {
  import opened Wrappers
  import opened SsrMode
  import opened Paths

  /** The fields of the application context the generator reads. */
  datatype AppContext = AppContext(
    internalDirectory: string,
    srcDirectory: string,
    internalSrcAlias: string,
    metaName: string,
    runtimeConfigFile: string)

  /** The fields of an entrypoint the generator reads. */
  datatype Entrypoint = Entrypoint(
    entryName: string,
    isAutoMount: bool,
    entry: string,
    customEntry: bool,
    customBootstrap: Option<string>,
    customServerEntry: Option<string>)

  /** The normalized configuration the generator reads: the SSR settings,
      `source.enableAsyncEntry` and `html.mountId`. */
  datatype Config = Config(ssr: SsrConfig, enableAsyncEntry: bool, mountId: string)

  /** A runtime plugin, opaque here: it is only passed through. */
  type RuntimePlugin = string

  /** A template invocation and the arguments it receives. */
  datatype Template =
    | IndexTemplate(
        srcDirectory: string, internalSrcAlias: string, metaName: string, entry: string,
        entryName: string, customEntry: bool, customBootstrap: Option<string>, mountId: string)
    | ServerIndexTemplate(
        entry: string, entryName: string, internalSrcAlias: string, metaName: string,
        mode: Mode, customServerEntry: Option<string>, srcDirectory: string)
    | RegisterTemplate
    | RuntimeRegisterTemplate(
        entryName: string, srcDirectory: string, internalSrcAlias: string, metaName: string,
        runtimeConfigFile: string, runtimePlugins: seq<RuntimePlugin>)
    | RuntimeGlobalContextTemplate(
        srcDirectory: string, internalSrcAlias: string, metaName: string, entry: string,
        customEntry: bool)

  /** File content: a literal string, or the output of a template. */
  datatype Content = Literal(text: string) | Rendered(template: Template)

  /** One `fs.outputFileSync` call. */
  datatype Write = Write(kind: FileKind, path: Path, content: Content)

  /** One call of the `_internalRuntimePlugins` hook: the entrypoint and the
      initial plugin list. */
  datatype HookCall = HookCall(entrypoint: Entrypoint, plugins: seq<RuntimePlugin>)

  /** What one entrypoint causes: the hook call and the file writes, in order. */
  datatype EntryPlan = EntryPlan(hookCall: HookCall, writes: seq<Write>)

  /** What `generateCode` causes for a list of entrypoints. */
  datatype Generated = Generated(hookCalls: seq<HookCall>, writes: seq<Write>)

  /** The asynchronous bootstrap: a dynamic import of the index module in a
      chunk named after the entry. */
  function BootstrapSource(entryName: string, indexFileName: string): string {
    "import(/* webpackChunkName: \"async-" + entryName + "\" */ './" + indexFileName + "');"
  }

  /** The server bootstrap: re-exports the request handler of the server
      entry-point module. */
  function ServerBootstrapSource(serverEntryPointFileName: string): string {
    "export const requestHandler = import('./" + serverEntryPointFileName + "').then((m) => m.requestHandler)"
  }

  /** Whether `ws` writes a file of kind `k`. */
  predicate Writes(ws: seq<Write>, k: FileKind) {
    exists i :: 0 <= i < |ws| && ws[i].kind == k
  }

  /** The files an entrypoint must get, as a table independent of the order
      in which the generator writes them. */
  predicate Expected(k: FileKind, isAutoMount: bool, enableAsyncEntry: bool, mode: Mode) {
    isAutoMount &&
    match k
    case Bootstrap => enableAsyncEntry
    case ServerBootstrap => enableAsyncEntry && mode != Off
    case ServerIndex => mode != Off
    case _ => true
  }

  /** The writes are in strictly increasing file-kind order, hence each kind
      at most once. */
  predicate InWriteOrder(ws: seq<Write>) {
    forall i, j :: 0 <= i < j < |ws| ==> Rank(ws[i].kind) < Rank(ws[j].kind)
  }

  /** Every write's kind has a rank in `[lo, hi)`. */
  predicate RanksIn(ws: seq<Write>, lo: nat, hi: nat) {
    forall i :: 0 <= i < |ws| ==> lo <= Rank(ws[i].kind) < hi
  }

  /** What a single write of an entrypoint must look like, kind by kind: it
      goes to `<internalDirectory>/<entryName>/<file name of its kind>` and
      holds the content the generator gives that kind. The bootstraps hold
      their literal sources; every other file holds the output of its
      template for this entry, the server index rendered for `mode` and the
      runtime register for `plugins`. */
  predicate Fits(w: Write, ep: Entrypoint, ctx: AppContext, cfg: Config, names: FileNames,
                 mode: Mode, plugins: seq<RuntimePlugin>) {
    w.path == PathOf(ctx.internalDirectory, ep.entryName, names, w.kind) &&
    match w.kind
    case Index =>
      w.content == Rendered(IndexTemplate(ctx.srcDirectory, ctx.internalSrcAlias, ctx.metaName,
        ep.entry, ep.entryName, ep.customEntry, ep.customBootstrap, cfg.mountId))
    case Bootstrap => w.content == Literal(BootstrapSource(ep.entryName, names.index))
    case ServerBootstrap => w.content == Literal(ServerBootstrapSource(names.serverEntryPoint))
    case ServerIndex =>
      w.content == Rendered(ServerIndexTemplate(ep.entry, ep.entryName, ctx.internalSrcAlias,
        ctx.metaName, mode, ep.customServerEntry, ctx.srcDirectory))
    case Register => w.content == Rendered(RegisterTemplate)
    case RuntimeRegister =>
      w.content == Rendered(RuntimeRegisterTemplate(ep.entryName, ctx.srcDirectory,
        ctx.internalSrcAlias, ctx.metaName, ctx.runtimeConfigFile, plugins))
    case RuntimeGlobalContext =>
      w.content == Rendered(RuntimeGlobalContextTemplate(ctx.srcDirectory, ctx.internalSrcAlias,
        ctx.metaName, ep.entry, ep.customEntry))
  }

  predicate AllFit(ws: seq<Write>, ep: Entrypoint, ctx: AppContext, cfg: Config, names: FileNames,
                   mode: Mode, plugins: seq<RuntimePlugin>) {
    forall i :: 0 <= i < |ws| ==> Fits(ws[i], ep, ctx, cfg, names, mode, plugins)
  }

  /** Joining two blocks of writes whose ranks are separated at `mid`. */
  lemma Join(a: seq<Write>, b: seq<Write>, lo: nat, mid: nat, hi: nat,
             ep: Entrypoint, ctx: AppContext, cfg: Config, names: FileNames, mode: Mode,
             plugins: seq<RuntimePlugin>)
    requires lo <= mid <= hi
    requires InWriteOrder(a) && RanksIn(a, lo, mid) && AllFit(a, ep, ctx, cfg, names, mode, plugins)
    requires InWriteOrder(b) && RanksIn(b, mid, hi) && AllFit(b, ep, ctx, cfg, names, mode, plugins)
    ensures InWriteOrder(a + b) && RanksIn(a + b, lo, hi)
    ensures AllFit(a + b, ep, ctx, cfg, names, mode, plugins)
    ensures forall k :: Writes(a + b, k) <==> Writes(a, k) || Writes(b, k)
  {
    var ab := a + b;
    forall i, j | 0 <= i < j < |ab|
      ensures Rank(ab[i].kind) < Rank(ab[j].kind)
    {
      if j < |a| {
        assert ab[i] == a[i] && ab[j] == a[j];
      } else if i >= |a| {
        assert ab[i] == b[i - |a|] && ab[j] == b[j - |a|];
      } else {
        assert ab[i] == a[i] && ab[j] == b[j - |a|];
      }
    }
    forall i | 0 <= i < |ab|
      ensures lo <= Rank(ab[i].kind) < hi
      ensures Fits(ab[i], ep, ctx, cfg, names, mode, plugins)
    {
      if i < |a| {
        assert ab[i] == a[i];
      } else {
        assert ab[i] == b[i - |a|];
      }
    }
    forall k
      ensures Writes(ab, k) <==> Writes(a, k) || Writes(b, k)
    {
      if Writes(ab, k) {
        var i :| 0 <= i < |ab| && ab[i].kind == k;
        if i < |a| {
          assert a[i] == ab[i];
        } else {
          assert b[i - |a|] == ab[i];
        }
      }
      if Writes(a, k) {
        var i :| 0 <= i < |a| && a[i].kind == k;
        assert ab[i] == a[i];
      }
      if Writes(b, k) {
        var i :| 0 <= i < |b| && b[i].kind == k;
        assert ab[|a| + i] == b[i];
      }
    }
  }

  function IndexWrite(ep: Entrypoint, ctx: AppContext, cfg: Config, names: FileNames): Write {
    Write(Index, PathOf(ctx.internalDirectory, ep.entryName, names, Index),
      Rendered(IndexTemplate(ctx.srcDirectory, ctx.internalSrcAlias, ctx.metaName, ep.entry,
        ep.entryName, ep.customEntry, ep.customBootstrap, cfg.mountId)))
  }

  function BootstrapWrite(ep: Entrypoint, ctx: AppContext, names: FileNames): Write {
    Write(Bootstrap, PathOf(ctx.internalDirectory, ep.entryName, names, Bootstrap),
      Literal(BootstrapSource(ep.entryName, names.index)))
  }

  function ServerBootstrapWrite(ep: Entrypoint, ctx: AppContext, names: FileNames): Write {
    Write(ServerBootstrap, PathOf(ctx.internalDirectory, ep.entryName, names, ServerBootstrap),
      Literal(ServerBootstrapSource(names.serverEntryPoint)))
  }

  function ServerIndexWrite(ep: Entrypoint, ctx: AppContext, names: FileNames, mode: Mode): Write {
    Write(ServerIndex, PathOf(ctx.internalDirectory, ep.entryName, names, ServerIndex),
      Rendered(ServerIndexTemplate(ep.entry, ep.entryName, ctx.internalSrcAlias, ctx.metaName,
        mode, ep.customServerEntry, ctx.srcDirectory)))
  }

  function RegisterWrite(ep: Entrypoint, ctx: AppContext, names: FileNames): Write {
    Write(Register, PathOf(ctx.internalDirectory, ep.entryName, names, Register),
      Rendered(RegisterTemplate))
  }

  function RuntimeRegisterWrite(ep: Entrypoint, ctx: AppContext, names: FileNames, plugins: seq<RuntimePlugin>): Write {
    Write(RuntimeRegister, PathOf(ctx.internalDirectory, ep.entryName, names, RuntimeRegister),
      Rendered(RuntimeRegisterTemplate(ep.entryName, ctx.srcDirectory, ctx.internalSrcAlias,
        ctx.metaName, ctx.runtimeConfigFile, plugins)))
  }

  function RuntimeGlobalContextWrite(ep: Entrypoint, ctx: AppContext, names: FileNames): Write {
    Write(RuntimeGlobalContext, PathOf(ctx.internalDirectory, ep.entryName, names, RuntimeGlobalContext),
      Rendered(RuntimeGlobalContextTemplate(ctx.srcDirectory, ctx.internalSrcAlias, ctx.metaName,
        ep.entry, ep.customEntry)))
  }

  /** The `enableAsyncEntry` block: the bootstrap and, under SSR, the server
      bootstrap. */
  function AsyncEntryWrites(ep: Entrypoint, ctx: AppContext, cfg: Config, names: FileNames,
                            mode: Mode, plugins: seq<RuntimePlugin>): (ws: seq<Write>)
    ensures InWriteOrder(ws) && RanksIn(ws, 1, 3)
    ensures AllFit(ws, ep, ctx, cfg, names, mode, plugins)
    ensures forall k :: Writes(ws, k) <==>
      cfg.enableAsyncEntry && (k == Bootstrap || (k == ServerBootstrap && mode != Off))
  {
    if cfg.enableAsyncEntry then
      var ws := [BootstrapWrite(ep, ctx, names)]
        + (if mode != Off then [ServerBootstrapWrite(ep, ctx, names)] else []);
      assert ws[0].kind == Bootstrap;
      assert mode != Off ==> ws[1].kind == ServerBootstrap;
      ws
    else
      []
  }

  /** The SSR block: the server index, rendered for the entry's mode. */
  function ServerIndexWrites(ep: Entrypoint, ctx: AppContext, cfg: Config, names: FileNames,
                             mode: Mode, plugins: seq<RuntimePlugin>): (ws: seq<Write>)
    ensures InWriteOrder(ws) && RanksIn(ws, 3, 4)
    ensures AllFit(ws, ep, ctx, cfg, names, mode, plugins)
    ensures forall k :: Writes(ws, k) <==> mode != Off && k == ServerIndex
  {
    if mode != Off then
      var ws := [ServerIndexWrite(ep, ctx, names, mode)];
      assert ws[0].kind == ServerIndex;
      ws
    else
      []
  }

  /** The closing block: register, runtime register, runtime global context. */
  function RegisterWrites(ep: Entrypoint, ctx: AppContext, cfg: Config, names: FileNames,
                          mode: Mode, plugins: seq<RuntimePlugin>): (ws: seq<Write>)
    ensures InWriteOrder(ws) && RanksIn(ws, 4, 7)
    ensures AllFit(ws, ep, ctx, cfg, names, mode, plugins)
    ensures forall k :: Writes(ws, k) <==> k == Register || k == RuntimeRegister || k == RuntimeGlobalContext
  {
    var ws := [RegisterWrite(ep, ctx, names),
               RuntimeRegisterWrite(ep, ctx, names, plugins),
               RuntimeGlobalContextWrite(ep, ctx, names)];
    assert ws[0].kind == Register;
    assert ws[1].kind == RuntimeRegister;
    assert ws[2].kind == RuntimeGlobalContext;
    ws
  }

  /** The writes of an auto-mounted entrypoint, in the generator's order:
      the index; with asynchronous entries the bootstrap and, under SSR, the
      server bootstrap; under SSR the server index; then the register, the
      runtime register and the runtime global context. */
  function AutoMountWrites(ep: Entrypoint, ctx: AppContext, cfg: Config, names: FileNames,
                           plugins: seq<RuntimePlugin>): (ws: seq<Write>)
    ensures InWriteOrder(ws)
    ensures AllFit(ws, ep, ctx, cfg, names, GetSsrMode(ep.entryName, cfg.ssr), plugins)
    ensures forall k :: Writes(ws, k) <==>
      Expected(k, true, cfg.enableAsyncEntry, GetSsrMode(ep.entryName, cfg.ssr))
  {
    var mode := GetSsrMode(ep.entryName, cfg.ssr);
    var index := [IndexWrite(ep, ctx, cfg, names)];
    var async := AsyncEntryWrites(ep, ctx, cfg, names, mode, plugins);
    var server := ServerIndexWrites(ep, ctx, cfg, names, mode, plugins);
    var registers := RegisterWrites(ep, ctx, cfg, names, mode, plugins);
    assert index[0].kind == Index;
    Join(index, async, 0, 1, 3, ep, ctx, cfg, names, mode, plugins);
    Join(index + async, server, 0, 3, 4, ep, ctx, cfg, names, mode, plugins);
    Join(index + async + server, registers, 0, 4, 7, ep, ctx, cfg, names, mode, plugins);
    index + async + server + registers
  }

  /** One entrypoint: the hook is always called, with an empty initial plugin
      list; only an auto-mounted entrypoint gets files, each of them in its
      own directory, in write order, and exactly the expected ones. */
  function PlanEntry(ep: Entrypoint, ctx: AppContext, cfg: Config, names: FileNames,
                     hook: HookCall -> seq<RuntimePlugin>): (p: EntryPlan)
    ensures p.hookCall == HookCall(ep, [])
    ensures !ep.isAutoMount ==> p.writes == []
    ensures InWriteOrder(p.writes)
    ensures forall k :: Writes(p.writes, k) <==>
      Expected(k, ep.isAutoMount, cfg.enableAsyncEntry, GetSsrMode(ep.entryName, cfg.ssr))
    ensures AllFit(p.writes, ep, ctx, cfg, names, GetSsrMode(ep.entryName, cfg.ssr), hook(HookCall(ep, [])))
  {
    var call := HookCall(ep, []);
    var plugins := hook(call);
    EntryPlan(call, if ep.isAutoMount then AutoMountWrites(ep, ctx, cfg, names, plugins) else [])
  }

  /** `generateCode` over a list of entrypoints: one hook call per entrypoint
      in list order, and the writes of every entrypoint's plan. Each
      entrypoint's writes form one uninterrupted block; the blocks are laid
      out in list order, one of the orders `Promise.all` allows. */
  function GenerateCode(eps: seq<Entrypoint>, ctx: AppContext, cfg: Config, names: FileNames,
                        hook: HookCall -> seq<RuntimePlugin>): (g: Generated)
    ensures |g.hookCalls| == |eps|
    ensures forall i :: 0 <= i < |eps| ==> g.hookCalls[i] == HookCall(eps[i], [])
    ensures forall w :: w in g.writes <==>
      exists i :: 0 <= i < |eps| && w in PlanEntry(eps[i], ctx, cfg, names, hook).writes
    decreases |eps|
  {
    if eps == [] then
      Generated([], [])
    else
      var p := PlanEntry(eps[0], ctx, cfg, names, hook);
      var rest := GenerateCode(eps[1..], ctx, cfg, names, hook);
      assert forall i :: 1 <= i < |eps| ==> eps[1..][i - 1] == eps[i];
      Generated([p.hookCall] + rest.hookCalls, p.writes + rest.writes)
  }

  /** Entry names are pairwise distinct. */
  predicate DistinctEntryNames(eps: seq<Entrypoint>) {
    forall i, j :: 0 <= i < j < |eps| ==> eps[i].entryName != eps[j].entryName
  }

  /** Every write of an entrypoint's plan is in that entrypoint's directory. */
  lemma WriteInPlanIsUnder(ep: Entrypoint, ctx: AppContext, cfg: Config, names: FileNames,
                           hook: HookCall -> seq<RuntimePlugin>, w: Write)
    requires w in PlanEntry(ep, ctx, cfg, names, hook).writes
    ensures w.path == PathOf(ctx.internalDirectory, ep.entryName, names, w.kind)
  {
  }

  /** No two writes go to the same path. */
  predicate PathsDistinct(ws: seq<Write>) {
    forall i, j :: 0 <= i < j < |ws| ==> ws[i].path != ws[j].path
  }

  /** Within one entrypoint no two writes share a path, provided the
      file-name constants are distinct. */
  lemma PlanPathsDistinct(ep: Entrypoint, ctx: AppContext, cfg: Config, names: FileNames,
                          hook: HookCall -> seq<RuntimePlugin>)
    requires DistinctFileNames(names)
    ensures PathsDistinct(PlanEntry(ep, ctx, cfg, names, hook).writes)
  {
  }

  /** Two blocks of writes whose directories differ do not collide. */
  lemma JoinPathsDistinct(a: seq<Write>, b: seq<Write>)
    requires PathsDistinct(a) && PathsDistinct(b)
    requires forall v, w :: v in a && w in b ==> v.path != w.path
    ensures PathsDistinct(a + b)
  {
  }

  /** No two writes of the whole run go to the same path, provided the entry
      names and the file-name constants are distinct. */
  lemma {:induction false} NoPathCollision(eps: seq<Entrypoint>, ctx: AppContext, cfg: Config,
                                           names: FileNames, hook: HookCall -> seq<RuntimePlugin>)
    requires DistinctEntryNames(eps)
    requires DistinctFileNames(names)
    ensures PathsDistinct(GenerateCode(eps, ctx, cfg, names, hook).writes)
    decreases |eps|
  {
    if eps != [] {
      var p := PlanEntry(eps[0], ctx, cfg, names, hook);
      var rest := GenerateCode(eps[1..], ctx, cfg, names, hook);
      assert DistinctEntryNames(eps[1..]) by {
        forall i, j | 0 <= i < j < |eps[1..]|
          ensures eps[1..][i].entryName != eps[1..][j].entryName
        {
          assert eps[1..][i] == eps[i + 1] && eps[1..][j] == eps[j + 1];
        }
      }
      NoPathCollision(eps[1..], ctx, cfg, names, hook);
      PlanPathsDistinct(eps[0], ctx, cfg, names, hook);
      forall v, w | v in p.writes && w in rest.writes
        ensures v.path != w.path
      {
        WriteInPlanIsUnder(eps[0], ctx, cfg, names, hook, v);
        var k :| 0 <= k < |eps[1..]| && w in PlanEntry(eps[1..][k], ctx, cfg, names, hook).writes;
        WriteInPlanIsUnder(eps[1..][k], ctx, cfg, names, hook, w);
        assert eps[1..][k] == eps[k + 1];
      }
      JoinPathsDistinct(p.writes, rest.writes);
    }
  }

  /** Every entry name and every file-name constant is a single path segment. */
  predicate SegmentNames(eps: seq<Entrypoint>, names: FileNames) {
    (forall i :: 0 <= i < |eps| ==> Segment(eps[i].entryName))
    && (forall k :: Segment(FileNameOf(names, k)))
  }

  /** The same holds of the rendered `/`-joined path strings when names are
      single segments: no two writes of a run render to the same string.
      File systems that compare names case-insensitively are not modelled. */
  lemma RenderedPathsDistinct(eps: seq<Entrypoint>, ctx: AppContext, cfg: Config,
                              names: FileNames, hook: HookCall -> seq<RuntimePlugin>, ws: seq<Write>)
    requires ws == GenerateCode(eps, ctx, cfg, names, hook).writes
    requires DistinctEntryNames(eps)
    requires DistinctFileNames(names)
    requires SegmentNames(eps, names)
    ensures forall i, j :: 0 <= i < j < |ws| ==> Render(ws[i].path) != Render(ws[j].path)
  {
    NoPathCollision(eps, ctx, cfg, names, hook);
    forall i, j | 0 <= i < j < |ws|
      ensures Render(ws[i].path) != Render(ws[j].path)
    {
      SegmentPath(eps, ctx, cfg, names, hook, ws[i]);
      SegmentPath(eps, ctx, cfg, names, hook, ws[j]);
      if Render(ws[i].path) == Render(ws[j].path) {
        RenderInjective(ws[i].path, ws[j].path);
      }
    }
  }

  /** A write of the run lies in the internal directory and its entry name
      and file name are single segments. */
  lemma SegmentPath(eps: seq<Entrypoint>, ctx: AppContext, cfg: Config,
                    names: FileNames, hook: HookCall -> seq<RuntimePlugin>, w: Write)
    requires SegmentNames(eps, names)
    requires w in GenerateCode(eps, ctx, cfg, names, hook).writes
    ensures w.path.dir == ctx.internalDirectory
    ensures Segment(w.path.entryName) && Segment(w.path.file)
  {
  }

  /** The chunk name in the asynchronous bootstrap identifies the entry:
      distinct entries get distinct bootstrap sources. */
  lemma BootstrapSourceInjective(e1: string, e2: string, indexFileName: string)
    requires BootstrapSource(e1, indexFileName) == BootstrapSource(e2, indexFileName)
    ensures e1 == e2
  {
    var pre := "import(/* webpackChunkName: \"async-";
    var post := "\" */ './" + indexFileName + "');";
    assert BootstrapSource(e1, indexFileName) == pre + e1 + post;
    assert BootstrapSource(e2, indexFileName) == pre + e2 + post;
    var s := pre + e1 + post;
    assert |e1| == |e2|;
    assert e1 == s[|pre|..|pre| + |e1|];
    assert e2 == s[|pre|..|pre| + |e2|];
  }

  /** The server bootstrap source names the module it imports: distinct
      server entry-point file names give distinct sources. */
  lemma ServerBootstrapSourceInjective(f1: string, f2: string)
    requires ServerBootstrapSource(f1) == ServerBootstrapSource(f2)
    ensures f1 == f2
  {
    var pre := "export const requestHandler = import('./";
    var post := "').then((m) => m.requestHandler)";
    assert ServerBootstrapSource(f1) == pre + f1 + post;
    assert ServerBootstrapSource(f2) == pre + f2 + post;
    var s := pre + f1 + post;
    assert |f1| == |f2|;
    assert f1 == s[|pre|..|pre| + |f1|];
    assert f2 == s[|pre|..|pre| + |f2|];
  }

  /** Whenever the server bootstrap is written, the module it imports, the
      server entry point, is written beside it in the same directory. */
  lemma ServerBootstrapImportsServerIndex(ep: Entrypoint, ctx: AppContext, cfg: Config,
                                          names: FileNames, hook: HookCall -> seq<RuntimePlugin>,
                                          ws: seq<Write>)
    requires ws == PlanEntry(ep, ctx, cfg, names, hook).writes
    requires Writes(ws, ServerBootstrap)
    ensures exists i :: (0 <= i < |ws| && ws[i].kind == ServerIndex
                         && ws[i].path == Path(ctx.internalDirectory, ep.entryName, names.serverEntryPoint))
  {
    var mode := GetSsrMode(ep.entryName, cfg.ssr);
    var plugins := hook(HookCall(ep, []));
    assert Writes(ws, ServerIndex);
    var i :| 0 <= i < |ws| && ws[i].kind == ServerIndex;
    assert Fits(ws[i], ep, ctx, cfg, names, mode, plugins);
  }
}

# Entry code generation of the modern.js runtime plugin, in Dafny

This project models the code-generation step of the modern.js runtime plugin's
CLI (`generateCode` in `packages/runtime/plugin-runtime/src/cli/code.ts`). For
every entrypoint of an application the step asks the `_internalRuntimePlugins`
hook for the entry's runtime plugins. For an auto-mounted entrypoint it then
writes up to seven generated source files into
`<internalDirectory>/<entryName>/`:

- the index;
- the asynchronous bootstrap;
- the server bootstrap;
- the server index;
- the register file;
- the runtime register;
- the runtime global context.

Which of these files are written depends on `source.enableAsyncEntry` and on
the entry's server-side-rendering mode. That mode is computed by
`getSSRMode`: from `output.ssg`, the entry's own `server.ssrByEntries` setting
and the global `server.ssr`, it yields `'string'`, `'stream'` or `false`.

The model is functional:

- `SsrMode` (`ssr_mode.dfy`) holds the settings as a datatype, JavaScript
  truthiness and `||` written out, and the mode decision.
- `Paths` (`paths.dfy`) holds the file kinds, the file-name constants (as an
  abstract record) and the path of each generated file.
- `CodeGen` (`code_gen.dfy`) turns one entrypoint into an `EntryPlan`: the hook
  call it makes and the ordered list of writes. It turns a list of entrypoints
  into a `Generated`: all hook calls and all writes.
- `Wrappers` (`wrappers.dfy`) holds `Option`, for properties that may be
  `undefined`.

Template outputs are opaque tokens. Each token carries exactly the arguments
the source passes to its template. The two bootstrap files are real strings
built by concatenation.

The per-entry `false` quirk is modelled as written. The source combines the
settings with `ssrByEntries?.[entry] || ssr`. A per-entry `false` is falsy, so
it falls back to the global setting. While `server.ssr` is truthy, an entry
therefore cannot switch SSR off with `false`. `SsrMode.PerEntryFalseFallsBack`
states this.

The source runs entrypoints under `Promise.all`. Each entry's writes are
synchronous calls made after its single `await`, so in any run each entry's
writes form one uninterrupted block. Only the order of the blocks is left open.
The model lays the blocks out in entrypoint order. Every property across
entries is stated by membership, so it holds for every block order.

## Model

| member | source | states |
|---|---|---|
| SsrMode.CheckSsrMode | packages/runtime/plugin-runtime/src/cli/code.ts:35-45 | The mode is off exactly when the setting is falsy. It streams exactly when the setting is an options object whose mode is `'stream'`. It renders to a string exactly for `true` or any other options object. |
| SsrMode.OtherEntrySettingIrrelevant | packages/runtime/plugin-runtime/src/cli/code.ts:27-33 | The lookup `ssrByEntries?.[entry]` reads only the entry's own key. Changing or adding the setting of any other entry leaves this entry's mode unchanged. |
| SsrMode.MissingEntryUsesGlobal | packages/runtime/plugin-runtime/src/cli/code.ts:27-33 | An entry missing from `ssrByEntries` is decided as if there were no per-entry map. Without SSG, its mode is the classification of the global `server.ssr`. |
| SsrMode.FallbackIsFirstTruthy | packages/runtime/plugin-runtime/src/cli/code.ts:33 | The `||` fallback yields one of its two operands. The result is truthy exactly when one of them is, and it is the per-entry setting whenever that one is truthy. |
| SsrMode.GetSsrMode | packages/runtime/plugin-runtime/src/cli/code.ts:23-34 | SSG forces string mode. Otherwise the mode is off exactly when both the per-entry and the global setting are falsy. It streams exactly when the deciding setting (the per-entry one if truthy, else the global one) asks for streaming. |
| SsrMode.SsgIgnoresServerSettings | packages/runtime/plugin-runtime/src/cli/code.ts:29-31 | With SSG on, any two configurations give the same mode, `'string'`, whatever their server settings. |
| SsrMode.TruthyPerEntryOverridesGlobal | packages/runtime/plugin-runtime/src/cli/code.ts:33 | When the per-entry setting is truthy, replacing the global `server.ssr` does not change the entry's mode. Without SSG, the mode is the per-entry setting's classification. |
| SsrMode.PerEntryFalseFallsBack | packages/runtime/plugin-runtime/src/cli/code.ts:33 | A per-entry `false` behaves as if there were no per-entry settings at all. So it never turns SSR off while `server.ssr` is truthy. |
| Paths.RenderInjective | packages/runtime/plugin-runtime/src/cli/code.ts:90-93 | Within one directory, the path string `<dir>/<entryName>/<file>` determines both the entry name and the file name when each is a single segment: not empty, not `.` or `..`, and holding neither `/` nor `\`. |
| CodeGen.AsyncEntryWrites | packages/runtime/plugin-runtime/src/cli/code.ts:99-124 | The async block writes the bootstrap exactly when `enableAsyncEntry` is set. It writes the server bootstrap exactly when, in addition, the mode is on. The bootstrap comes first, each file goes to its own path, and each holds its literal source. |
| CodeGen.ServerIndexWrites | packages/runtime/plugin-runtime/src/cli/code.ts:126-143 | The server index is written exactly when the mode is on, to its own path. Its content is the server-index template for this entry (`entry`, `entryName`, `customServerEntry`, the context fields), rendered with that very mode. |
| CodeGen.RegisterWrites | packages/runtime/plugin-runtime/src/cli/code.ts:145-180 | The register, runtime-register and runtime-global-context files are always written, in that order, to their own paths. Each holds its own template for this entry. The runtime register receives the entry name, the runtime config file and the hook's plugin list. |
| CodeGen.AutoMountWrites | packages/runtime/plugin-runtime/src/cli/code.ts:78-181 | An auto-mounted entrypoint gets exactly the files of the expected-files table. They come in the fixed order index, bootstrap, server bootstrap, server index, register, runtime register, runtime global context. Each goes to `<internalDirectory>/<entryName>/<its file name>`. Each holds the content of its kind for this entry: the index template with the entry's fields and `mountId`, a bootstrap's literal source, or its own template. |
| CodeGen.PlanEntry | packages/runtime/plugin-runtime/src/cli/code.ts:64-181 | The hook is called once with the entrypoint and an empty plugin list, auto-mounted or not. An entrypoint that is not auto-mounted gets no writes. Otherwise the kinds written are exactly the expected ones, in write order, each under the entry's directory. Each write holds the full content of its kind for this entry. The server index gets the computed mode, and the runtime register gets the hook's result. |
| CodeGen.GenerateCode | packages/runtime/plugin-runtime/src/cli/code.ts:48-184 | There is one hook call per entrypoint, in entrypoint order, each with an empty initial plugin list. A write is in the run exactly when it is in the plan of some entrypoint. |
| CodeGen.PlanPathsDistinct | packages/runtime/plugin-runtime/src/cli/code.ts:90-180 | Within one entrypoint no two writes share a path, provided the file-name constants are distinct. |
| CodeGen.NoPathCollision | packages/runtime/plugin-runtime/src/cli/code.ts:63-184 | Across the whole run no two writes share a path, provided entry names and file-name constants are distinct. Distinct entries thus have disjoint sets of paths. |
| CodeGen.RenderedPathsDistinct | packages/runtime/plugin-runtime/src/cli/code.ts:90-180 | The rendered `/`-joined path strings of a run are also pairwise distinct when every entry name and file name is a single segment: not empty, not `.` or `..`, and holding neither `/` nor `\`. |
| CodeGen.BootstrapSourceInjective | packages/runtime/plugin-runtime/src/cli/code.ts:105-109 | The asynchronous bootstrap source determines the entry name: distinct entries get distinct `async-<entryName>` chunk names. |
| CodeGen.ServerBootstrapSourceInjective | packages/runtime/plugin-runtime/src/cli/code.ts:117-122 | The server bootstrap source determines the module it imports: distinct server entry-point file names give distinct sources. |
| CodeGen.ServerBootstrapImportsServerIndex | packages/runtime/plugin-runtime/src/cli/code.ts:111-143 | Whenever the server bootstrap is written, the server entry point it imports is written beside it, in the same directory. |

## Left out

- RenderedPathsDistinct: `Paths.Render` joins the directory, entry name and file name with `/`. It does not apply `path.resolve`'s normalisation of the internal directory itself, such as a trailing separator or a relative directory. That normalisation rewrites the same prefix of every path alike, so it cannot make two distinct paths collide. The lemma's segment hypothesis excludes the entry names that `path.resolve` would merge: empty, `.`, `..`, and names holding `/` or, on win32, `\`. File systems that compare names case-insensitively (merging `Home` and `home`) are not modelled, so the lemma says nothing about whether files overwrite one another there.
- The templates (`./template`, `./template.server`) are not part of this model. Their output is an opaque token recording the template and its arguments.
- The file-name constants (`./constants`) are not part of this model. They are a record of abstract strings. Distinctness and the segment shape are hypotheses of the lemmas that need them.
- The types of `customEntry`, `customBootstrap` and `customServerEntry` come from `@modern-js/types`, which is not part of this model. They are modelled as `bool`, optional string and optional string, and they are only passed through to templates.
- `fs.outputFileSync` is not modelled as I/O. Each call is a `Write` in the returned list, and its `'utf8'` encoding argument is dropped.
- Failures are not modelled. The hook call can reject and any `fs.outputFileSync` can throw. In the source, that entry's block of writes then stops part-way and `Promise.all` rejects, while the other entries' blocks still run. The model describes only runs in which every call succeeds.
- Changes to the configuration made by the hook are not modelled. `enableAsyncEntry` and `mountId` are read before any hook call. `getSSRMode` reads `output.ssg` and `server` after the entry's hook call has resolved. A hook that mutated the shared configuration could therefore change later entries' modes. The model reads one fixed configuration.
- `path.resolve` normalisation is not modelled. A path is the triple (internal directory, entry name, file name).
- The `_internalRuntimePlugins` hook is a function parameter. Its asynchronous execution and the plugin pipeline behind it are not modelled. Only the call (entrypoint, empty plugin list) and the returned list are modelled.
- The scheduling of `Promise.all` is not modelled. The blocks of writes are laid out in entrypoint order, and cross-entry properties hold for any order of blocks.
- `output.ssg` is reduced to its truthiness, a `bool`. SSG option objects are not modelled.
- `ssrByEntries?.[entry]` is a lookup in a Dafny map. JavaScript would also find inherited object properties such as `constructor` for such keys; that lookup is not modelled.

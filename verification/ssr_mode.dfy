/**
 * How the code generator decides whether, and how, an entrypoint is
 * server-side rendered: the `getSSRMode` / `checkSSRMode` pair of the
 * runtime plugin's CLI code generator.
 *
 * The configuration values are JavaScript values, and the decision uses
 * JavaScript truthiness (`!ssr`, `a || b`); both are written out here.
 */
module SsrMode {
  import opened Wrappers

  /** The value of `server.ssr` (or of one `server.ssrByEntries` entry):
      absent, a boolean, or an options object whose `mode` may be absent. */
  datatype SsrSetting = Unset | Flag(enabled: bool) | Options(mode: Option<string>)

  /** The three results `'string' | 'stream' | false`; `Off` is `false`. */
  datatype Mode = Off | StringMode | StreamMode

  /** The part of the normalized configuration the decision reads.
      `ssg` is the truthiness of `output.ssg`. */
  datatype SsrConfig = SsrConfig(
    ssg: bool,
    ssr: SsrSetting,
    ssrByEntries: Option<map<string, SsrSetting>>)

  /** JavaScript truthiness of a setting: every object is truthy. */
  predicate Truthy(s: SsrSetting) {
    match s
    case Unset => false
    case Flag(b) => b
    case Options(_) => true
  }

  /** An options object asking for streaming. */
  predicate AsksForStream(s: SsrSetting) {
    s.Options? && s.mode == Some("stream")
  }

  /** JavaScript `a || b`: the left operand when it is truthy, else the right one. */
  function Or(a: SsrSetting, b: SsrSetting): SsrSetting {
    if Truthy(a) then a else b
  }

  /** `ssrByEntries?.[entry]`: absent when the map or its key is absent. */
  function PerEntry(c: SsrConfig, entry: string): SsrSetting {
    match c.ssrByEntries
    case None => Unset
    case Some(m) => if entry in m then m[entry] else Unset
  }

  /** `checkSSRMode`: a falsy setting is off, `true` renders to a string,
      an options object streams exactly when its mode is `'stream'`. */
  function CheckSsrMode(s: SsrSetting): (m: Mode)
    ensures m == Off <==> !Truthy(s)
    ensures m == StreamMode <==> AsksForStream(s)
    ensures m == StringMode <==> s == Flag(true) || (s.Options? && !AsksForStream(s))
  {
    if !Truthy(s) then Off
    else
      match s
      case Flag(b) => if b then StringMode else Off
      case Options(mode) => if mode == Some("stream") then StreamMode else StringMode
      case Unset => Off
  }

  /** The setting that decides an entry when SSG is off: the per-entry one
      when it is truthy, the global one otherwise. */
  function Effective(c: SsrConfig, entry: string): SsrSetting {
    Or(PerEntry(c, entry), c.ssr)
  }

  /** `getSSRMode`: SSG forces string rendering; otherwise the effective
      setting is classified by `CheckSsrMode`. */
  function GetSsrMode(entry: string, c: SsrConfig): (m: Mode)
    ensures c.ssg ==> m == StringMode
    ensures m == Off <==> !c.ssg && !Truthy(PerEntry(c, entry)) && !Truthy(c.ssr)
    ensures m == StreamMode <==>
      !c.ssg && (if Truthy(PerEntry(c, entry)) then AsksForStream(PerEntry(c, entry)) else AsksForStream(c.ssr))
  {
    if c.ssg then StringMode else CheckSsrMode(Effective(c, entry))
  }

  /** With SSG on, neither `server.ssr` nor `server.ssrByEntries` matters. */
  lemma SsgIgnoresServerSettings(entry: string, c: SsrConfig, d: SsrConfig)
    requires c.ssg && d.ssg
    ensures GetSsrMode(entry, c) == GetSsrMode(entry, d) == StringMode
  {
  }

  /** A truthy per-entry setting overrides the global one: changing
      `server.ssr` does not change the entry's mode. */
  lemma TruthyPerEntryOverridesGlobal(entry: string, c: SsrConfig, global: SsrSetting)
    requires Truthy(PerEntry(c, entry))
    ensures GetSsrMode(entry, c) == GetSsrMode(entry, c.(ssr := global))
    ensures !c.ssg ==> GetSsrMode(entry, c) == CheckSsrMode(PerEntry(c, entry))
  {
  }

  /** A per-entry `false` is falsy, so it falls back to the global setting:
      it cannot switch SSR off for one entry while `server.ssr` is truthy. */
  lemma PerEntryFalseFallsBack(entry: string, c: SsrConfig)
    requires PerEntry(c, entry) == Flag(false)
    ensures GetSsrMode(entry, c) == GetSsrMode(entry, c.(ssrByEntries := None))
    ensures Truthy(c.ssr) ==> GetSsrMode(entry, c) != Off
  {
  }

  /** The `||` fallback picks one of its operands; it is truthy exactly when
      one of them is, and it prefers a truthy per-entry setting. */
  lemma FallbackIsFirstTruthy(c: SsrConfig, entry: string)
    ensures Effective(c, entry) == PerEntry(c, entry) || Effective(c, entry) == c.ssr
    ensures Truthy(Effective(c, entry)) <==> Truthy(PerEntry(c, entry)) || Truthy(c.ssr)
    ensures Truthy(PerEntry(c, entry)) ==> Effective(c, entry) == PerEntry(c, entry)
  {
  }

  /** An entry's mode depends on its own `ssrByEntries` key only: changing
      another entry's setting leaves it unchanged. */
  lemma OtherEntrySettingIrrelevant(entry: string, other: string, c: SsrConfig,
                                    m: map<string, SsrSetting>, s: SsrSetting)
    requires other != entry
    requires c.ssrByEntries == Some(m)
    ensures GetSsrMode(entry, c) == GetSsrMode(entry, c.(ssrByEntries := Some(m[other := s])))
  {
  }

  /** An entry missing from `ssrByEntries` is decided as if the map were absent. */
  lemma MissingEntryUsesGlobal(entry: string, c: SsrConfig)
    requires c.ssrByEntries.Some? && entry !in c.ssrByEntries.value
    ensures GetSsrMode(entry, c) == GetSsrMode(entry, c.(ssrByEntries := None))
    ensures !c.ssg ==> GetSsrMode(entry, c) == CheckSsrMode(c.ssr)
  {
  }
}

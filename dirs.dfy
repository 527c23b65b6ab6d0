/**
 * The descriptor registry: one constant `XdgDir` per XDG base-directory
 * category. The two system-fallback fields are carried as data only; no
 * operation reads them.
 */
module Dirs {
  import opened Wrappers

  /**
   * A base-directory category: its primary environment variable, the
   * home-relative segment used when that variable is unset (if any), and the
   * system-wide variable and default directories (unused).
   */
  datatype XdgDir = XdgDir(
    envVar: string,
    homeFallback: Option<string>,
    systemFallbackVar: Option<string>,
    systemFallbackDirs: Option<seq<string>>)

  const CONFIG: XdgDir := XdgDir("XDG_CONFIG_HOME", Some(".config/"), Some("XDG_CONFIG_DIRS"), Some(["/etc/xdg"]))
  const DATA: XdgDir := XdgDir("XDG_DATA_HOME", Some(".local/share/"), Some("XDG_DATA_DIRS"), Some(["/usr/local/share/", "/usr/share/"]))
  const CACHE: XdgDir := XdgDir("XDG_CACHE_HOME", Some(".cache/"), None, None)
  const STATE: XdgDir := XdgDir("XDG_STATE_HOME", Some(".local/state/"), None, None)
  const RUNTIME: XdgDir := XdgDir("XDG_RUNTIME_DIR", None, None, None)

  /** The five categories, in the order the library declares them. */
  const Registry: seq<XdgDir> := [CONFIG, DATA, CACHE, STATE, RUNTIME]

  /** A relative directory segment: non-empty, not absolute, ending in `/`. */
  predicate RelativeDirSegment(h: string) {
    h != [] && h[0] != '/' && h[|h| - 1] == '/'
  }

  /**
   * Of the five categories only RUNTIME has no home fallback, and every home
   * fallback there is is a relative directory segment.
   */
  lemma HomeFallbacks(d: XdgDir)
    requires d in Registry
    ensures d.homeFallback.None? <==> d == RUNTIME
    ensures d.homeFallback.Some? ==> RelativeDirSegment(d.homeFallback.value)
  {
  }

  /**
   * Each category reads its own primary variable, none of them `HOME`, so
   * distinct categories never consult the same primary variable.
   */
  lemma PrimaryVarsDistinct(d: XdgDir, e: XdgDir)
    requires d in Registry && e in Registry
    ensures d.envVar != "HOME"
    ensures d.envVar == e.envVar <==> d == e
  {
  }

  /**
   * Only CONFIG and DATA carry system-wide fallbacks, and they carry both the
   * variable and a non-empty list of absolute default directories.
   */
  lemma SystemFallbacks(d: XdgDir)
    requires d in Registry
    ensures d.systemFallbackVar.Some? <==> d == CONFIG || d == DATA
    ensures d.systemFallbackVar.Some? <==> d.systemFallbackDirs.Some?
    ensures d.systemFallbackDirs.Some? ==>
      |d.systemFallbackDirs.value| > 0 &&
      forall p :: p in d.systemFallbackDirs.value ==> p != [] && p[0] == '/'
  {
  }
}

/**
 * User-level directory resolution: the primary variable of a category, else
 * its home-relative fallback under `$HOME`, else an error; then the caller's
 * suffix is pushed onto the result. The process environment is passed in as
 * a map, where an absent key means the variable is unset.
 */
module Xdg {
  import opened Wrappers
  import opened Paths
  import opened Dirs
  import opened Errors

  type Env = map<string, string>

  const Home: string := "HOME"

  /** `env::var`: the value of a variable, or nothing when it is unset. */
  function Var(env: Env, name: string): Option<string> {
    if name in env then Some(env[name]) else None
  }

  /**
   * The user path of category `d` with `suffix` pushed onto it, by precedence:
   * the primary variable whenever it is present (even when empty), else the
   * home fallback under `$HOME`, else `EnvVarNotSet` naming the primary
   * variable.
   */
  function UserDir(d: XdgDir, suffix: string, env: Env): (r: Result<string, Error>)
    ensures r.Ok? <==> d.envVar in env || (d.homeFallback.Some? && Home in env)
    ensures r.Ok? ==> |r.value| >= |suffix| && r.value[|r.value| - |suffix|..] == suffix
    ensures r.Err? ==> r.error == if d.homeFallback.Some? then NoHome else EnvVarNotSet(d.envVar)
  {
    if d.envVar in env then
      Ok(Push(env[d.envVar], suffix))
    else if d.homeFallback.None? then
      Err(EnvVarNotSet(d.envVar))
    else if Home in env then
      Ok(Push(Push(env[Home], d.homeFallback.value), suffix))
    else
      Err(NoHome)
  }

  /**
   * `xdg_user_dir` as the library computes it: the primary variable mapped to
   * a path, or else the fallback chosen by matching on the home segment; then,
   * on success only, the suffix pushed onto that path in place.
   */
  method XdgUserDir(d: XdgDir, suffix: string, env: Env) returns (configPath: Result<string, Error>)
    ensures configPath == UserDir(d, suffix, env)
  {
    match Var(env, d.envVar) {
      case Some(p) =>
        configPath := Ok(p);
      case None =>
        match d.homeFallback {
          case Some(homeDir) =>
            match Var(env, Home) {
              case Some(p) =>
                var homePath := p;
                homePath := Push(homePath, homeDir);
                configPath := Ok(homePath);
              case None =>
                configPath := Err(NoHome);
            }
          case None =>
            configPath := Err(EnvVarNotSet(d.envVar));
        }
    }
    if configPath.Ok? {
      var path := configPath.value;
      path := Push(path, suffix);
      configPath := Ok(path);
    }
  }

  /** `xdg_config_dir`: the user path of the CONFIG category. */
  method XdgConfigDir(suffix: string, env: Env) returns (r: Result<string, Error>)
    ensures r == UserDir(CONFIG, suffix, env)
    ensures r.Err? ==> r.error == NoHome
  {
    r := XdgUserDir(CONFIG, suffix, env);
  }

  /**
   * A present primary variable decides the result, whatever its value (the
   * empty string included) and whatever `$HOME` holds.
   */
  lemma PrimaryWins(d: XdgDir, suffix: string, env: Env, home: string)
    requires d.envVar in env && d.envVar != Home
    ensures UserDir(d, suffix, env) == Ok(Push(env[d.envVar], suffix))
    ensures UserDir(d, suffix, env[Home := home]) == UserDir(d, suffix, env)
    ensures UserDir(d, suffix, env - {Home}) == UserDir(d, suffix, env)
  {
  }

  /**
   * A primary variable that is set but empty still counts as set: the result
   * is the bare suffix, not the home fallback.
   */
  lemma EmptyPrimaryGivesSuffix(d: XdgDir, suffix: string, env: Env)
    requires d.envVar in env && env[d.envVar] == ""
    ensures UserDir(d, suffix, env) == Ok(suffix)
  {
  }

  /** With the primary variable unset, a home fallback `h` gives `$HOME/h/suffix`. */
  lemma HomeFallbackUsed(d: XdgDir, suffix: string, env: Env)
    requires d.envVar !in env && d.homeFallback.Some? && Home in env
    ensures UserDir(d, suffix, env) == Ok(Push(Push(env[Home], d.homeFallback.value), suffix))
  {
  }

  /**
   * Under a registry category, a non-empty `$HOME` without a trailing
   * separator gets exactly one separator before the home segment and none
   * after it; an absolute suffix replaces the whole path.
   */
  lemma HomeFallbackLayout(d: XdgDir, suffix: string, env: Env)
    requires d in Registry && d.envVar !in env && d != RUNTIME
    requires Home in env && !EndsInSep(env[Home])
    ensures UserDir(d, suffix, env) ==
      Ok(if Absolute(suffix) then suffix else env[Home] + "/" + d.homeFallback.value + suffix)
  {
    HomeFallbacks(d);
    PushTwice(env[Home], d.homeFallback.value, suffix);
  }

  /** With the primary variable unset, a home fallback but no `$HOME` gives `NoHome`. */
  lemma NoHomeWhenHomeUnset(d: XdgDir, suffix: string, env: Env)
    requires d.envVar !in env && d.homeFallback.Some? && Home !in env
    ensures UserDir(d, suffix, env) == Err(NoHome)
  {
  }

  /**
   * With the primary variable unset and no home fallback, the error names the
   * category's own variable, and `$HOME` is never consulted.
   */
  lemma EnvVarNotSetWithoutFallback(d: XdgDir, suffix: string, env: Env, home: string)
    requires d.envVar !in env && d.homeFallback.None? && d.envVar != Home
    ensures UserDir(d, suffix, env) == Err(EnvVarNotSet(d.envVar))
    ensures UserDir(d, suffix, env[Home := home]) == UserDir(d, suffix, env)
  {
  }

  /**
   * An absolute suffix replaces whatever base was resolved: on success the
   * result is the suffix itself, e.g. `/abs` even with `XDG_CONFIG_HOME=/p`.
   */
  lemma AbsoluteSuffixReplaces(d: XdgDir, suffix: string, env: Env)
    requires Absolute(suffix)
    ensures UserDir(d, suffix, env).Ok? ==> UserDir(d, suffix, env).value == suffix
    ensures UserDir(CONFIG, "/abs", map["XDG_CONFIG_HOME" := "/p"]) == Ok("/abs")
  {
  }

  /**
   * Over the registry, `$HOME` matters only when the primary variable is
   * unset: a set primary variable decides alone, and RUNTIME never reads
   * `$HOME` at all.
   */
  lemma RegistryHomeIndependence(d: XdgDir, suffix: string, env: Env, home: string)
    requires d in Registry && (d.envVar in env || d == RUNTIME)
    ensures UserDir(d, suffix, env[Home := home]) == UserDir(d, suffix, env)
    ensures UserDir(d, suffix, env - {Home}) == UserDir(d, suffix, env)
  {
    PrimaryVarsDistinct(d, d);
    HomeFallbacks(d);
    if d.envVar in env {
      PrimaryWins(d, suffix, env, home);
    } else {
      EnvVarNotSetWithoutFallback(d, suffix, env, home);
      EnvVarNotSetWithoutFallback(d, suffix, env - {Home}, home);
    }
  }

  /**
   * The suffix takes part only on success: an error is the same whatever
   * suffix was asked for, and `Other` is never produced.
   */
  lemma ErrorIgnoresSuffix(d: XdgDir, s: string, t: string, env: Env)
    ensures UserDir(d, s, env).Err? <==> UserDir(d, t, env).Err?
    ensures UserDir(d, s, env).Err? ==> UserDir(d, s, env) == UserDir(d, t, env)
    ensures UserDir(d, s, env) != Err(Other)
  {
  }

  /**
   * Over the registry, `EnvVarNotSet` can come only from RUNTIME (and names
   * `XDG_RUNTIME_DIR`), `NoHome` only from the other four.
   */
  lemma RegistryErrorOrigins(d: XdgDir, suffix: string, env: Env)
    requires d in Registry
    ensures UserDir(d, suffix, env).Err? && UserDir(d, suffix, env).error.EnvVarNotSet? ==>
      d == RUNTIME && UserDir(d, suffix, env).error.name == "XDG_RUNTIME_DIR"
    ensures UserDir(d, suffix, env) == Err(NoHome) ==> d != RUNTIME
    ensures d == RUNTIME ==> UserDir(d, suffix, env).Ok? || UserDir(d, suffix, env) == Err(EnvVarNotSet("XDG_RUNTIME_DIR"))
  {
    HomeFallbacks(d);
  }

  /**
   * Resolving a registry category never introduces `//` when the two
   * variables it may read and the suffix contain none.
   */
  lemma RegistryNoDoubleSep(d: XdgDir, suffix: string, env: Env)
    requires d in Registry
    requires d.envVar in env ==> NoDoubleSep(env[d.envVar])
    requires Home in env ==> NoDoubleSep(env[Home])
    requires NoDoubleSep(suffix)
    ensures UserDir(d, suffix, env).Ok? ==> NoDoubleSep(UserDir(d, suffix, env).value)
  {
    if d.envVar in env {
      PushNoDoubleSep(env[d.envVar], suffix);
    } else if d.homeFallback.Some? && Home in env {
      var h := d.homeFallback.value;
      HomeFallbacks(d);
      assert NoDoubleSep(h) by {
        assert h in {".config/", ".local/share/", ".cache/", ".local/state/"};
      }
      PushNoDoubleSep(env[Home], h);
      PushNoDoubleSep(Push(env[Home], h), suffix);
    }
  }

  /** The CONFIG outcomes the library's tests pin down. */
  lemma ConfigTestOutcomes()
    ensures UserDir(CONFIG, "test", map["XDG_CONFIG_HOME" := "/some/path"]) == Ok("/some/path/test")
    ensures UserDir(CONFIG, "test", map[Home := "/some/home"]) == Ok("/some/home/.config/test")
  {
    assert Push("/some/path", "test") == "/some/path/test";
    assert Push("/some/home", ".config/") == "/some/home/.config/";
    assert Push("/some/home/.config/", "test") == "/some/home/.config/test";
  }

  /** The DATA outcomes the library's tests pin down. */
  lemma DataTestOutcomes()
    ensures UserDir(DATA, "test", map["XDG_DATA_HOME" := "/some/path"]) == Ok("/some/path/test")
    ensures UserDir(DATA, "test", map[Home := "/some/home"]) == Ok("/some/home/.local/share/test")
  {
    assert Push("/some/path", "test") == "/some/path/test";
    assert Push("/some/home", ".local/share/") == "/some/home/.local/share/";
    assert Push("/some/home/.local/share/", "test") == "/some/home/.local/share/test";
  }

  /** The two error outcomes the library's tests pin down. */
  lemma ErrorTestOutcomes()
    ensures UserDir(CONFIG, "test", map[]) == Err(NoHome)
    ensures UserDir(RUNTIME, "test", map[]) == Err(EnvVarNotSet("XDG_RUNTIME_DIR"))
  {
  }
}

/**
 * Where the browser looks for its configuration (config/config.go): the ordered list of
 * candidate paths (`ConfigLocations`), `~` expansion (`expandPath`), and the first
 * candidate that exists (`FindConfigFile`), with a `ConfigError` listing every
 * candidate when none does.
 *
 * What the process environment would answer is a parameter: the operating system, the
 * home directory, the executable's directory, `APPDATA` and `LOCALAPPDATA`, and the set of
 * paths `os.Stat` finds.
 */
module Config {
  import opened Wrappers

  /**
   * The environment `ConfigLocations` and `expandPath` consult. `home` is `None` when
   * `os.UserHomeDir` fails; `execDir` is `filepath.Dir(os.Executable())`, `None` when
   * `os.Executable` fails; the two variables read "" when unset.
   */
  datatype Env = Env(windows: bool, home: Option<string>, execDir: Option<string>,
                     appData: string, localAppData: string)

  /** `filepath.Separator`. */
  function Separator(env: Env): char
  {
    if env.windows then '\\' else '/'
  }

  /**
   * `filepath.Join`: the non-empty elements separated by the separator; "" when there are
   * none. (The final `Clean` of the result is not modelled.)
   */
  function Join(elems: seq<string>, sep: char): string
    decreases |elems|
  {
    if elems == [] then ""
    else if elems[0] == "" then Join(elems[1..], sep)
    else
      var rest := Join(elems[1..], sep);
      if rest == "" then elems[0] else elems[0] + [sep] + rest
  }

  /** A joined path starts with its first element, when that is not empty. */
  lemma JoinStartsWithFirst(elems: seq<string>, sep: char)
    requires elems != [] && elems[0] != ""
    ensures elems[0] <= Join(elems, sep)
  {
    var rest := Join(elems[1..], sep);
    if rest != "" {
      assert (elems[0] + [sep] + rest)[..|elems[0]|] == elems[0];
    }
  }

  /** The fixed candidates of every system other than Windows, in search order. */
  const UnixPaths: seq<string> := [
    "/etc/lds/config.json",
    "/usr/local/etc/lds/config.json",
    "/usr/local/lds/config.json",
    "/usr/lds/config.json",
    "/usr/local/bin/config.json"
  ]

  /** The home directory as `ConfigLocations` uses it: "" when the lookup fails. */
  function HomeDir(env: Env): string
  {
    if env.home.Some? then env.home.value else ""
  }

  /** The Windows candidates, each present only when its source is available. */
  function WindowsPaths(env: Env): seq<string>
  {
    var sep := Separator(env);
    (if env.execDir.Some? then [Join([env.execDir.value, "config.json"], sep)] else []) +
    (if env.appData != "" then [Join([env.appData, "lds", "config.json"], sep)] else []) +
    (if env.localAppData != "" then [Join([env.localAppData, "lds", "config.json"], sep)] else []) +
    (if HomeDir(env) != "" then [Join([HomeDir(env), ".lds", "config.json"], sep)] else [])
  }

  /** The two per-user candidates of other systems. */
  function UnixHomePaths(home: string): seq<string>
  {
    [Join([home, ".config", "lds", "config.json"], '/'), Join([home, ".lds", "config.json"], '/')]
  }

  /** The candidate list: the system's candidates, then "config.json" in the working directory. */
  function CandidatePaths(env: Env): seq<string>
  {
    (if env.windows then WindowsPaths(env)
     else UnixPaths + (if HomeDir(env) != "" then UnixHomePaths(HomeDir(env)) else [])) +
    ["config.json"]
  }

  /** The number of Windows sources that are available. */
  function WindowsSourceCount(env: Env): nat
  {
    (if env.execDir.Some? then 1 else 0) + (if env.appData != "" then 1 else 0) +
    (if env.localAppData != "" then 1 else 0) + (if HomeDir(env) != "" then 1 else 0)
  }

  /**
   * The shape of the list: elsewhere than Windows it starts with the five fixed paths,
   * followed by the two home paths exactly when the home directory is known and not
   * empty; on Windows it holds one path per available source, in the order executable
   * directory, `APPDATA`, `LOCALAPPDATA`, home; on every system it ends with the relative
   * "config.json".
   */
  lemma CandidatePathsShape(env: Env)
    ensures var paths := CandidatePaths(env);
            |paths| >= 1 && paths[|paths| - 1] == "config.json"
    ensures var paths := CandidatePaths(env);
            !env.windows ==> |paths| >= 6 && paths[..5] == UnixPaths
    ensures var paths := CandidatePaths(env);
            !env.windows ==> (|paths| == 8 <==> HomeDir(env) != "") && (|paths| == 6 <==> HomeDir(env) == "")
    ensures var paths := CandidatePaths(env);
            !env.windows && HomeDir(env) != "" ==>
              paths[5] == Join([HomeDir(env), ".config", "lds", "config.json"], '/') &&
              paths[6] == Join([HomeDir(env), ".lds", "config.json"], '/')
    ensures var paths := CandidatePaths(env);
            env.windows ==> |paths| == WindowsSourceCount(env) + 1
    ensures var paths := CandidatePaths(env);
            env.windows && env.execDir.Some? ==> paths[0] == Join([env.execDir.value, "config.json"], '\\')
    ensures var paths := CandidatePaths(env);
            env.windows && HomeDir(env) != "" ==> paths[|paths| - 2] == Join([HomeDir(env), ".lds", "config.json"], '\\')
  {
    var paths := CandidatePaths(env);
    if !env.windows {
      assert paths[..5] == UnixPaths;
    }
  }

  /**
   * `ConfigLocations`: start from the system's list and append the optional candidates,
   * then "config.json".
   */
  method ConfigLocations(env: Env) returns (paths: seq<string>)
    ensures paths == CandidatePaths(env)
  {
    paths := [];
    var homeDir := if env.home.Some? then env.home.value else "";
    var sep := Separator(env);
    if env.windows {
      if env.execDir.Some? {
        paths := paths + [Join([env.execDir.value, "config.json"], sep)];
      }
      if env.appData != "" {
        paths := paths + [Join([env.appData, "lds", "config.json"], sep)];
      }
      if env.localAppData != "" {
        paths := paths + [Join([env.localAppData, "lds", "config.json"], sep)];
      }
      if homeDir != "" {
        paths := paths + [Join([homeDir, ".lds", "config.json"], sep)];
      }
    } else {
      paths := UnixPaths;
      if homeDir != "" {
        paths := paths + [Join([homeDir, ".config", "lds", "config.json"], sep),
                          Join([homeDir, ".lds", "config.json"], sep)];
      }
    }
    paths := paths + ["config.json"];
  }

  /**
   * `expandPath`: a path that is empty or does not start with `~` is returned as it is;
   * otherwise the `~` is replaced by the home directory, which must be known.
   */
  function ExpandPath(path: string, env: Env): (r: Result<string, string>)
    ensures r.Err? <==> |path| > 0 && path[0] == '~' && env.home.None?
    ensures |path| == 0 || path[0] != '~' ==> r == Ok(path)
    ensures r.Ok? && |path| > 0 && path[0] == '~' && env.home.value != "" ==> env.home.value <= r.value
    ensures |path| > 0 && path[0] == '~' && env.home.Some? ==>
              r == Ok(Join([env.home.value, path[1..]], Separator(env)))
  {
    if |path| == 0 || path[0] != '~' then Ok(path)
    else if env.home.None? then Err("home directory unavailable")
    else Ok(Join([env.home.value, path[1..]], Separator(env)))
  }

  /**
   * Expansion fails only for a `~` path without a home directory, changes only `~`
   * paths, and is idempotent when the home directory is not empty and does not itself
   * start with `~`.
   */
  lemma ExpandPathProperties(path: string, env: Env)
    ensures ExpandPath(path, env).Err? <==> |path| > 0 && path[0] == '~' && env.home.None?
    ensures ExpandPath(path, env).Ok? && ExpandPath(path, env).value != path ==> path[0] == '~'
    ensures env.home.Some? && env.home.value != "" && env.home.value[0] != '~' ==>
              ExpandPath(path, env).Ok? && ExpandPath(ExpandPath(path, env).value, env) == ExpandPath(path, env)
  {
    if |path| > 0 && path[0] == '~' && env.home.Some? && env.home.value != "" {
      JoinStartsWithFirst([env.home.value, path[1..]], Separator(env));
      var q := Join([env.home.value, path[1..]], Separator(env));
      assert q[0] == env.home.value[0];
    }
  }

  /**
   * With a known, non-empty home directory, `~rest` becomes the home directory, one
   * separator and `rest`; a bare `~` becomes the home directory itself.
   */
  lemma ExpandTilde(path: string, env: Env)
    requires |path| > 0 && path[0] == '~' && env.home.Some? && env.home.value != ""
    ensures |path| > 1 ==> ExpandPath(path, env) == Ok(env.home.value + [Separator(env)] + path[1..])
    ensures |path| == 1 ==> ExpandPath(path, env) == Ok(env.home.value)
  {
    var sep := Separator(env);
    var elems := [env.home.value, path[1..]];
    assert elems[1..] == [path[1..]];
    assert [path[1..]][1..] == [];
    assert Join([path[1..]], sep) == path[1..];
  }

  /** The expanded form of the first candidate that expands and exists. */
  function FirstExisting(paths: seq<string>, env: Env, existing: set<string>): Option<string>
    decreases |paths|
  {
    if paths == [] then None
    else
      var expanded := ExpandPath(paths[0], env);
      if expanded.Ok? && expanded.value in existing then Some(expanded.value)
      else FirstExisting(paths[1..], env, existing)
  }

  /** A candidate is usable when it expands to a path `os.Stat` finds. */
  predicate Usable(path: string, env: Env, existing: set<string>)
  {
    ExpandPath(path, env).Ok? && ExpandPath(path, env).value in existing
  }

  /**
   * `FirstExisting` finds the first usable candidate: `None` exactly when no candidate is
   * usable, otherwise the expansion of a usable candidate preceded only by unusable ones.
   */
  lemma {:induction false} FirstExistingSpec(paths: seq<string>, env: Env, existing: set<string>)
    ensures FirstExisting(paths, env, existing).None? <==>
      forall i :: 0 <= i < |paths| ==> !Usable(paths[i], env, existing)
    ensures FirstExisting(paths, env, existing).Some? ==>
      exists i :: 0 <= i < |paths| && Usable(paths[i], env, existing) &&
        FirstExisting(paths, env, existing).value == ExpandPath(paths[i], env).value &&
        forall j :: 0 <= j < i ==> !Usable(paths[j], env, existing)
    decreases |paths|
  {
    if paths != [] {
      FirstExistingSpec(paths[1..], env, existing);
      if !Usable(paths[0], env, existing) {
        if FirstExisting(paths[1..], env, existing).Some? {
          var i :| 0 <= i < |paths[1..]| && Usable(paths[1..][i], env, existing) &&
            FirstExisting(paths[1..], env, existing).value == ExpandPath(paths[1..][i], env).value &&
            forall j :: 0 <= j < i ==> !Usable(paths[1..][j], env, existing);
          assert Usable(paths[i + 1], env, existing);
          forall j | 0 <= j < i + 1 ensures !Usable(paths[j], env, existing)
          {
            if j > 0 { assert paths[j] == paths[1..][j - 1]; }
          }
        }
        if forall i :: 0 <= i < |paths[1..]| ==> !Usable(paths[1..][i], env, existing) {
          forall i | 0 <= i < |paths| ensures !Usable(paths[i], env, existing)
          {
            if i > 0 { assert paths[i] == paths[1..][i - 1]; }
          }
        }
      }
    }
  }

  /** The relative "config.json" comes last, so when it exists a configuration is always found. */
  lemma RelativeConfigIsFallback(env: Env, existing: set<string>)
    requires "config.json" in existing
    ensures FirstExisting(CandidatePaths(env), env, existing).Some?
  {
    var paths := CandidatePaths(env);
    CandidatePathsShape(env);
    FirstExistingSpec(paths, env, existing);
    assert Usable(paths[|paths| - 1], env, existing);
  }

  /** `ConfigError`: the message and every path that was tried. */
  datatype ConfigError = ConfigError(message: string, paths: seq<string>)
  {
    /** `Error()` reports the message, whatever paths were tried. */
    function Error(): (r: string)
      ensures r == message
    {
      message
    }
  }

  const NotFoundMessage := "config file not found in any standard location"

  /**
   * `FindConfigFile`: the first candidate, in list order, that expands and exists, in its
   * expanded form; otherwise a `ConfigError` whose `Error()` is the not-found message and
   * whose paths are the whole candidate list.
   */
  method FindConfigFile(env: Env, existing: set<string>) returns (r: Result<string, ConfigError>)
    ensures r.Ok? <==> exists i :: 0 <= i < |CandidatePaths(env)| && Usable(CandidatePaths(env)[i], env, existing)
    ensures r.Ok? ==> Some(r.value) == FirstExisting(CandidatePaths(env), env, existing)
    ensures r.Err? ==> r.error.paths == CandidatePaths(env) && r.error.Error() == NotFoundMessage
  {
    FirstExistingSpec(CandidatePaths(env), env, existing);
    var paths := ConfigLocations(env);
    for i := 0 to |paths|
      invariant FirstExisting(paths[i..], env, existing) == FirstExisting(paths, env, existing)
    {
      assert paths[i..][1..] == paths[i + 1..];
      var expanded := ExpandPath(paths[i], env);
      if expanded.Ok? && expanded.value in existing {
        return Ok(expanded.value);
      }
    }
    var all := ConfigLocations(env);
    r := Err(ConfigError(NotFoundMessage, all));
  }
}

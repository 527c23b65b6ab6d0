# xdg-dirs-rs: user-level XDG base directories

A model of `xdg-dirs-rs`, a small Rust library that resolves user-level base directories (config, data, cache, state, runtime) following the "Environment variables" section of the freedesktop.org XDG Base Directory Specification. For a category and a suffix, the library does the following:

1. If the category's primary variable is set, it uses that variable's value. This holds even when the value is empty.
2. Otherwise, if the category has a home fallback segment, it uses `$HOME` joined with that segment. If `$HOME` is unset, it fails with `NoHome`.
3. Otherwise it fails with `EnvVarNotSet`, naming the primary variable.
4. Only on success, it pushes the suffix onto the path.

The process environment is a parameter of type `map<string, string>`. A key that is absent means the variable is unset.

Modules:
- `Wrappers`: `Option` and `Result`.
- `Paths`: the part of `PathBuf::push` the library uses.
- `Dirs`: the descriptor `XdgDir` and the five constants `CONFIG`, `DATA`, `CACHE`, `STATE` and `RUNTIME`.
- `Errors`: the `Error` enum and its display strings.
- `Xdg`: resolution. `UserDir` states the precedence as a function. `XdgUserDir` follows the library's own code: a combinator chain, then an in-place push of the suffix on the `Ok` branch. Its postcondition ties the two together. `XdgConfigDir` is the CONFIG alias.

A primary variable that is set but empty counts as set, so the result is the bare suffix. The XDG text says to treat an empty variable as unset. The model reproduces the code (`EmptyPrimaryGivesSuffix`).

## Model

| member | source | states |
|---|---|---|
| `Paths.Push` | src/lib.rs:84-86 | The result always ends with the segment. An absolute segment replaces the base. Otherwise the result starts with the base, and a single `/` separates the two exactly when the base is non-empty and does not already end in `/`. An empty base gives the segment itself. |
| `Paths.PushNoDoubleSep` | tests/tests.rs:18-20 | Pushing a segment with no `//` onto a base with no `//` never creates `//`, whether or not the base ends in `/`. |
| `Paths.PushAfterSep` | tests/tests.rs:18-20 | Pushing a relative segment onto a path that ends in `/` is plain concatenation. So `.config/` followed by `test` gives `.config/test`. An absolute segment replaces the path. |
| `Paths.PushTwice` | src/lib.rs:76-86 | Take a non-empty base without a trailing `/` and a relative segment that ends in `/`. Pushing the segment and then a relative suffix gives `base + "/" + segment + suffix`. Pushing an absolute suffix gives the suffix. |
| `Dirs.HomeFallbacks` | src/lib.rs:15-48 | Of the five categories, only RUNTIME has no home fallback. Every home fallback is non-empty and relative, and it ends in `/`. |
| `Dirs.PrimaryVarsDistinct` | src/lib.rs:15-48 | The five primary variables are pairwise distinct, and none of them is `HOME`. |
| `Dirs.SystemFallbacks` | src/lib.rs:6-48 | Only CONFIG and DATA carry a system variable. The same two carry a non-empty list of absolute default directories. |
| `Errors.Message` | src/lib.rs:51-61 | `NoHome` displays as `$HOME is not set`. `EnvVarNotSet(v)` displays as `$`, then `v`, then ` is not set`. `Other` displays as `Some other error`. |
| `Errors.MessageNamesVar` | src/lib.rs:56-57 | Two `EnvVarNotSet` errors with the same message name the same variable. |
| `Errors.NoHomeReadsAsHomeNotSet` | src/lib.rs:53-57 | The `NoHome` message is the same as the message for `EnvVarNotSet("HOME")`. |
| `Errors.MessageExamples` | tests/tests.rs:59-66 | The messages for `NoHome` and for `EnvVarNotSet("SOME_VAR")` are the two strings the tests expect. |
| `Xdg.UserDir` | src/lib.rs:65-89 | Success happens exactly when the primary variable is set, or when a home fallback exists and `HOME` is set. A success ends with the suffix. An error is `NoHome` when there is a home fallback and `EnvVarNotSet` naming the primary variable when there is none. |
| `Xdg.XdgUserDir` | src/lib.rs:65-89 | The library's combinator chain and its in-place suffix push compute exactly the precedence `UserDir` states. |
| `Xdg.XdgConfigDir` | src/lib.rs:91-93 | For every suffix and environment, the result equals `UserDir(CONFIG, ...)`. Its only possible error is `NoHome`. |
| `Xdg.PrimaryWins` | src/lib.rs:66-71 | A set primary variable gives `Ok(push(value, suffix))`. The result stays the same when `HOME` is set to anything or removed. |
| `Xdg.EmptyPrimaryGivesSuffix` | src/lib.rs:66-71 | A primary variable that is set to the empty string gives the bare suffix. |
| `Xdg.HomeFallbackUsed` | src/lib.rs:73-79 | If the primary variable is unset, a home fallback `h` exists and `HOME` is set, the result is `Ok(push(push(HOME, h), suffix))`. |
| `Xdg.HomeFallbackLayout` | src/lib.rs:73-86 | For a registry category, a non-empty `HOME` without a trailing `/` gives `HOME + "/" + h + suffix`, with exactly one separator before `h`. An absolute suffix gives the suffix alone. |
| `Xdg.NoHomeWhenHomeUnset` | src/lib.rs:74-80 | If the primary variable is unset, a home fallback exists and `HOME` is unset, the result is `Err(NoHome)`. |
| `Xdg.EnvVarNotSetWithoutFallback` | src/lib.rs:81 | If the primary variable is unset and there is no home fallback, the result is `Err(EnvVarNotSet(env_var))`, and `HOME` is never consulted. |
| `Xdg.AbsoluteSuffixReplaces` | src/lib.rs:84-86 | An absolute suffix replaces the resolved base. Any success is the suffix itself. With `XDG_CONFIG_HOME=/p`, CONFIG and `/abs` give `/abs`. |
| `Xdg.RegistryHomeIndependence` | src/lib.rs:66-82 | For a registry category, `HOME` cannot change the result when the primary variable is set. For RUNTIME it can never change the result. This holds whether `HOME` is set to anything or removed. |
| `Xdg.ErrorIgnoresSuffix` | src/lib.rs:84-88 | Whether the call fails does not depend on the suffix. An error is returned unchanged whatever the suffix, and it is never `Other`. |
| `Xdg.RegistryErrorOrigins` | src/lib.rs:43-48 | Among the five categories, `EnvVarNotSet` comes only from RUNTIME and names `XDG_RUNTIME_DIR`. `NoHome` comes only from the other four. |
| `Xdg.RegistryNoDoubleSep` | src/lib.rs:73-86 | For a registry category, a resolved path has no `//` when the suffix has none and neither does any of the two variables it may read: the primary variable and `HOME`. Other variables in the environment do not matter. |
| `Xdg.ConfigTestOutcomes` | tests/tests.rs:9-22 | CONFIG gives `/some/path/test` from its own variable and `/some/home/.config/test` from `HOME`. |
| `Xdg.DataTestOutcomes` | tests/tests.rs:26-38 | DATA gives `/some/path/test` from its own variable and `/some/home/.local/share/test` from `HOME`. |
| `Xdg.ErrorTestOutcomes` | tests/tests.rs:41-57 | CONFIG with neither its variable nor `HOME` set gives `NoHome`. RUNTIME with nothing set gives `EnvVarNotSet("XDG_RUNTIME_DIR")`. |

## Left out

- System-wide directory lists and the search for an existing directory among user and system candidates. The library does not implement them. Its `system_fallback_var` and `system_fallback_dirs` fields are never read, and the search exists only as a TODO comment at the end of src/lib.rs. The two fields are kept as inert data in `Dirs.XdgDir`. The error cases for these operations (`SystemDirNotApplicable`, `NotFound`) do not exist in the code either, so they are not modelled.
- Reading the real process environment. The environment is a map parameter instead. An unset variable and a variable whose value is not valid Unicode both appear as an absent key.
- Full `PathBuf::push` semantics. `Paths.Push` follows the Unix rules on strings: an absolute segment replaces the base, and a relative segment is joined with one `/`. This matters because the caller's suffix reaches `push` unchecked. Windows prefixes and verbatim paths are not modelled. Neither is component-wise `Path` equality, so `a/b` and `a//b` count as different results. These belong to the Rust standard library, which is not part of this model.
- The `thiserror` derive machinery, beyond the display strings themselves.
- Concurrent changes to the environment during a call. A call sees one fixed map.

# glide `in`/`into`/`out` and the `go get` backend, in Dafny

This project models two pieces of decision logic in the glide dependency
manager's command line, and proves properties of them.

- **The glide sandbox commands** (`cmd/in_out.go`). There are two guards.
  `AlreadyGliding` stops when the `ALREADY_GLIDING` marker is `"1"`.
  `ReadyToGlide` fails when `./glide.yaml` is missing. `GlideGopath` and `In`
  give the workspace path `<cwd>/_vendor`. `Into` is the enter transition: it
  may change directory, sets seven environment variables, chooses the command
  (`$SHELL`, or the configured `InCommand` split on spaces and resolved on the
  search path) and starts it as a child session. `Out` reports whether a
  session is active.
- **The `go get` fetch backend** (`cmd/goget.go`). This is the VCS capability
  for dependencies that name no repository. `Get` and `Update` run
  `go get -d [-u] <name>`. A success is nil. A failure whose combined output
  contains `no buildable Go source` is also nil. Any other failure returns the
  command's own error. `Version` always fails. `LastCommit` always returns
  `""` with no error.

The OS is made explicit:
- the environment is a `map<string, string>` read through Go's `Getenv`
  rule (a missing key reads as `""`);
- the working directory is what `os.Getwd` reports, a `Result<string>`;
- the file system is the set of paths `os.Stat` succeeds on;
- `os.Chdir`, `exec.LookPath`, the child session's outcome and the fetch
  command (`exec.Command(...).CombinedOutput()`) are oracle parameters.

Starting the child is recorded as a `Launch(executable, argv, env, dir)` in
the `Process` object.

Files:
- `errors.dfy`: the shared `Option`, `Result` and `Error` types.
- `strings.dfy`: Go's `strings.Split`, `strings.Join` and `strings.Contains`, with their round-trip and characterisation lemmas.
- `in_out.dfy`: the sandbox commands and the `Process` class with `Into`.
- `goget.dfy`: the `go get` backend.

Two points about the order of the code:
- `Into` rewrites the environment *before* it resolves a custom command with
  `LookPath`. So a failed lookup leaves the environment rewritten and starts
  nothing.
- `ReadyToGlide` ignores a failure of `os.Getwd`. Its message then names the
  empty string.

## Model

| member | source | states |
|---|---|---|
| `InOut.Getenv` | cmd/in_out.go:17 | `os.Getenv` gives the variable's value when it is set and `""` when it is missing |
| `InOut.AlreadyGliding` | cmd/in_out.go:16-22 | true with a Stop interrupt exactly when the environment maps `ALREADY_GLIDING` to `"1"`; false with no interrupt for any other value or a missing key |
| `InOut.ReadyToGlide` | cmd/in_out.go:28-34 | succeeds with true exactly when `./glide.yaml` can be stat'ed; otherwise false with the error `glide.yaml is missing from <cwd>`, where `<cwd>` is empty when the working directory is unknown |
| `InOut.GlideGopath` | cmd/in_out.go:36-44 | succeeds exactly when the working directory is known; the path then starts with the working directory and continues with `/_vendor`; otherwise it passes the `Getwd` error through |
| `InOut.In` | cmd/in_out.go:47-62 | prints `<cwd>/_vendor` and a newline and returns nil; on an unknown working directory it prints nothing and returns that error |
| `InOut.Out` | cmd/in_out.go:147-154 | returns true exactly when the marker is `"1"`, never interrupts, and prints the "type 'exit'" guidance when active and the "not currently gliding" guidance otherwise |
| `InOut.GuardsAgree` | cmd/in_out.go:147-154 | `Out` and `AlreadyGliding` agree on whether a session is active |
| `InOut.GlideEnv` | cmd/in_out.go:97-105 | the session environment has the old keys plus the seven glide keys; it sets `ALREADY_GLIDING="1"`, `GOPATH` and `GLIDE_GOPATH` to `<cwd>/_vendor`, `GOBIN` to `<cwd>/_vendor/bin`, `PATH` to the old PATH + `:` + `<cwd>/_vendor/bin`, `GLIDE_PROJECT` to cwd and `GLIDE_YAML` to `<cwd>/glide.yaml`; every other key keeps its value |
| `InOut.GlideEnvIsGliding` | cmd/in_out.go:99 | in the session environment, the `AlreadyGliding` guard stops and `Out` reports an active session |
| `InOut.Process.SetWorkspaceEnv` | cmd/in_out.go:99-105 | the seven successive `Setenv` calls produce exactly `GlideEnv` of the old environment; the working directory and launches are unchanged |
| `InOut.SelectCommand` | cmd/in_out.go:83-126 | with an empty `InCommand`, the executable and the only argument are `$SHELL`; otherwise argv is `InCommand` split on spaces, its pieces contain no space and join back to `InCommand`, and the command is resolved exactly when `LookPath(argv[0])` succeeds, its executable being that path; a failed lookup gives the lookup's error |
| `InOut.Banner` | cmd/in_out.go:120-129 | the custom-command line shows `[` + `InCommand` + `]` (the `%v` rendering of the split argv reads back as the command); the default line announces a new shell |
| `InOut.FormatArgs` | cmd/in_out.go:122 | the `%v` rendering of a `[]string` is `[`, then the elements joined by single spaces, then `]` |
| `InOut.ChildReply` | cmd/in_out.go:133-144 | a start or wait failure returns that error; an exited child returns nil and prints `Exited glide shell: <status>` after the banner |
| `InOut.Process.Into` | cmd/in_out.go:71-145 | a refused chdir returns its error and changes nothing; an empty target does not chdir; an unknown working directory returns its error before the environment is touched; otherwise the environment becomes `GlideEnv` of the old one (its GOPATH equal to `GlideGopath`). A failed lookup then returns its error with nothing launched. A resolved command is launched once with the chosen executable, argv, the new environment and the working directory, and the reply follows the child's outcome |
| `Strings.Split` | cmd/in_out.go:121 | Go's `strings.Split` on one separator character gives at least one piece, and no piece contains the separator |
| `Strings.Join` | cmd/in_out.go:122 | `strings.Join` starts with the first piece, followed by the separator when there is a second piece, and has at least one character (a separator) for each piece after the first |
| `Strings.JoinSplit` | cmd/in_out.go:121-122 | joining the pieces of a split with the separator gives the original string |
| `Strings.SplitJoin` | cmd/in_out.go:121 | splitting a join of one or more separator-free pieces gives the pieces back |
| `Strings.Contains` | cmd/goget.go:16 | `strings.Contains` holds whenever `s` starts with `sub`, and only when `sub` is no longer than `s` |
| `Strings.ContainsIffOccurs` | cmd/goget.go:16 | `strings.Contains(s, sub)` holds exactly when `sub` occurs in `s` at some index |
| `GoGet.GetArgs` | cmd/goget.go:13 | `Get` runs `go get -d <name>`; the dependency name is the last argument |
| `GoGet.UpdateArgs` | cmd/goget.go:26 | `Update` runs `go get -d -u <name>`, which is `Get`'s argv with `-u` inserted before the name |
| `GoGet.Get` | cmd/goget.go:12-23 | a successful fetch gives nil; a failed fetch whose output contains `no buildable Go source` gives nil and is logged as information; any other failure gives the command's own, non-nil error and is logged as a warning |
| `GoGet.Update` | cmd/goget.go:25-35 | the same classification as `Get`, applied to the `-u` fetch |
| `GoGet.GetUpdateAgree` | cmd/goget.go:12-35 | whenever the two commands report the same outcome, `Get` and `Update` return the same result |
| `GoGet.NoBuildableSourceIsNotAnError` | cmd/goget.go:16-19 | a fetch whose output has `no buildable Go source` anywhere inside it is not an error, for `Get` and for `Update` each on its own |
| `GoGet.Version` | cmd/goget.go:37-39 | always a non-nil error whose message is the dependency name followed by ` does not have a repository/VCS set. No way to set version.` |
| `GoGet.LastCommit` | cmd/goget.go:41-44 | always the empty revision and no error |

## Left out

- Process control: `os.StartProcess` and `proc.Wait` are not modelled. The
  start request is recorded as a `Launch`. What happens to the child is the
  `ChildOutcome` parameter. The stdin, stdout and stderr inheritance is not
  modelled.
- OS calls are parameters, not models of the OS. This covers `os.Getwd`,
  `os.Chdir`, `os.Stat`, `exec.LookPath` and the fetch command. Resolving a
  relative target directory and searching `PATH` are not modelled.
- `os.Setenv` can reject a value containing a NUL byte. The source ignores
  that error, and the model does not model the rejection.
- Logging through `Warn` and `Info` (the AlreadyGliding warning, the fetch
  logs): these helpers are not part of this model. The model records only which
  fetch branch logged, and with what text. It does not record the warning
  text of `AlreadyGliding`.
- The cookoo framework: `Context`, `Params` and `Interrupt` are not modelled.
  Parameters arrive as plain arguments. A missing `conf` parameter is the
  empty `Config`. A missing `into` parameter is `""`. An interrupt is
  `NoInterrupt | Stop | Failed(error)`.
- The commented-out code is not modelled: the `login` path and the
  shell-export block in `In`.
- Strings are sequences of characters. The fetch output is a byte slice in
  the source, and byte-level matching of a non-ASCII output is not modelled.
- Other VCS backends and the choice of a backend per dependency are not part
  of this model.
- A `Dependency` keeps only its name. This backend reads nothing else.

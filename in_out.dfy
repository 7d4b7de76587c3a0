/** The glide sandbox commands of `cmd/in_out.go`: the two guards, the
    workspace path, `in`, `into` and `out`. The process environment, the
    working directory and the file system are explicit inputs; the OS calls
    `Chdir`, `LookPath` and starting the child shell are oracle parameters. */
module InOut {
  import opened Errors
  import opened Strings

  /** A cookoo interrupt: none, a deliberate stop, or an error. */
  datatype Interrupt = NoInterrupt | Stop | Failed(err: Error)

  /** The value a cookoo command returns. */
  datatype Value = Nil | Bool(b: bool)

  /** What a cookoo command gives back, with the text it writes to standard output. */
  datatype Reply = Reply(value: Value, interrupt: Interrupt, printed: string)

  /** The glide configuration; an empty `inCommand` means "use $SHELL". */
  datatype Config = Config(inCommand: string)

  /** What `os.Chdir(dir)` did: refused with an error, or entered the
      directory, after which `os.Getwd` reports `wd`. */
  datatype Chdir = Entered(wd: Result<string>) | Refused(err: Error)

  /** The executable and argv chosen for the child session. */
  datatype Command = Command(executable: string, argv: seq<string>)

  /** How the child session went: it could not be started, waiting for it
      failed, or it exited with the given status text. */
  datatype ChildOutcome = StartFailed(err: Error) | WaitFailed(err: Error) | Exited(status: string)

  /** A request to start a process, as passed to `os.StartProcess`. */
  datatype Launch = Launch(executable: string, argv: seq<string>, env: map<string, string>, dir: string)

  const MARKER := "ALREADY_GLIDING"
  const MANIFEST := "./glide.yaml"

  /** The seven variables that entering a glide session sets. */
  const GLIDE_KEYS: set<string> :=
    {MARKER, "GOPATH", "GOBIN", "GLIDE_GOPATH", "PATH", "GLIDE_PROJECT", "GLIDE_YAML"}

  /** Go's `os.Getenv`: the value, or "" when the variable is unset. */
  function Getenv(env: map<string, string>, key: string): (r: string)
    ensures key in env ==> r == env[key]
    ensures key !in env ==> r == ""
  {
    if key in env then env[key] else ""
  }

  /** `AlreadyGliding`: stop when the process is already inside a glide session. */
  function AlreadyGliding(env: map<string, string>): (r: Reply)
    ensures r.value == Bool(MARKER in env && env[MARKER] == "1")
    ensures r.interrupt == (if MARKER in env && env[MARKER] == "1" then Stop else NoInterrupt)
    ensures r.printed == ""
  {
    if Getenv(env, MARKER) == "1" then Reply(Bool(true), Stop, "")
    else Reply(Bool(false), NoInterrupt, "")
  }

  /** `ReadyToGlide`: succeed exactly when `./glide.yaml` can be stat'ed; otherwise fail
      naming the working directory, which is "" when it cannot be determined.
      `statable` holds the paths that `os.Stat` succeeds on. */
  function ReadyToGlide(statable: set<string>, wd: Result<string>): (r: Reply)
    ensures r.value == Bool(MANIFEST in statable)
    ensures MANIFEST in statable ==> r.interrupt == NoInterrupt
    ensures MANIFEST !in statable && wd.Ok? ==>
              r.interrupt == Failed(Error("glide.yaml is missing from " + wd.value))
    ensures MANIFEST !in statable && wd.Fail? ==>
              r.interrupt == Failed(Error("glide.yaml is missing from "))
  {
    if MANIFEST !in statable then
      var cwd := if wd.Ok? then wd.value else "";
      assert wd.Fail? ==> "glide.yaml is missing from " + cwd == "glide.yaml is missing from ";
      Reply(Bool(false), Failed(Error("glide.yaml is missing from " + cwd)), "")
    else Reply(Bool(true), NoInterrupt, "")
  }

  /** `GlideGopath`: the `_vendor` directory inside the working directory. */
  function GlideGopath(wd: Result<string>): (r: Result<string>)
    ensures r.Ok? <==> wd.Ok?
    ensures r.Ok? ==> StartsWith(r.value, wd.value) && r.value[|wd.value|..] == "/_vendor"
    ensures r.Fail? ==> r.err == wd.err
  {
    if wd.Fail? then Fail(wd.err) else Ok(wd.value + "/_vendor")
  }

  /** `In`: print the workspace path (and a newline) for editors and tools. */
  function In(wd: Result<string>): (r: Reply)
    ensures r.value == Nil
    ensures wd.Ok? ==> r.interrupt == NoInterrupt && r.printed == wd.value + "/_vendor\n"
    ensures wd.Fail? ==> r.interrupt == Failed(wd.err) && r.printed == ""
  {
    var gopath := GlideGopath(wd);
    if gopath.Fail? then Reply(Nil, Failed(gopath.err), "")
    else Reply(Nil, NoInterrupt, gopath.value + "\n")
  }

  /** `Out`: report whether a glide session is active; it never interrupts. */
  function Out(env: map<string, string>): (r: Reply)
    ensures r.value == Bool(MARKER in env && env[MARKER] == "1")
    ensures r.interrupt == NoInterrupt
    ensures r.printed == if r.value.b then "To exit this glide, type 'exit'\n"
                         else "You are not currently gliding. To begin, try 'glide in'.\n"
  {
    if Getenv(env, MARKER) != "1" then
      Reply(Bool(false), NoInterrupt, "You are not currently gliding. To begin, try 'glide in'.\n")
    else Reply(Bool(true), NoInterrupt, "To exit this glide, type 'exit'\n")
  }

  /** The environment a glide session runs in, for working directory `cwd`:
      seven variables set, every other variable as it was. */
  function GlideEnv(env: map<string, string>, cwd: string): (r: map<string, string>)
    ensures r.Keys == env.Keys + GLIDE_KEYS
    ensures r[MARKER] == "1"
    ensures r["GOPATH"] == cwd + "/_vendor" && r["GLIDE_GOPATH"] == cwd + "/_vendor"
    ensures r["GOBIN"] == cwd + "/_vendor/bin"
    ensures r["PATH"] == Getenv(env, "PATH") + ":" + cwd + "/_vendor/bin"
    ensures r["GLIDE_PROJECT"] == cwd
    ensures r["GLIDE_YAML"] == cwd + "/glide.yaml"
    ensures forall k :: k in env && k !in GLIDE_KEYS ==> r[k] == env[k]
  {
    var gopath := cwd + "/_vendor";
    assert gopath + "/bin" == cwd + "/_vendor/bin";
    env[MARKER := "1"]
       ["GOPATH" := gopath]
       ["GOBIN" := gopath + "/bin"]
       ["GLIDE_GOPATH" := gopath]
       ["PATH" := Getenv(env, "PATH") + ":" + gopath + "/bin"]
       ["GLIDE_PROJECT" := cwd]
       ["GLIDE_YAML" := cwd + "/glide.yaml"]
  }

  /** In the session environment both `AlreadyGliding` and `Out` see the marker:
      the guard stops, and `Out` reports the session as active. */
  lemma GlideEnvIsGliding(env: map<string, string>, cwd: string)
    ensures AlreadyGliding(GlideEnv(env, cwd)).interrupt == Stop
    ensures Out(GlideEnv(env, cwd)).value == Bool(true)
  {
  }

  /** The two readers of the marker agree on whether a session is active. */
  lemma GuardsAgree(env: map<string, string>)
    ensures AlreadyGliding(env).value == Out(env).value
  {
  }

  /** The command that `into` runs: `$SHELL` when no custom command is configured,
      else the custom command split on spaces, its first word resolved by `lookPath`. */
  function SelectCommand(inCommand: string, env: map<string, string>, lookPath: string -> Result<string>): (r: Result<Command>)
    ensures |inCommand| == 0 ==> r == Ok(Command(Getenv(env, "SHELL"), [Getenv(env, "SHELL")]))
    ensures |inCommand| > 0 ==> (r.Ok? <==> lookPath(Split(inCommand, ' ')[0]).Ok?)
    ensures |inCommand| > 0 && r.Fail? ==> r.err == lookPath(Split(inCommand, ' ')[0]).err
    ensures |inCommand| > 0 && r.Ok? ==>
              && r.value.argv == Split(inCommand, ' ')
              && r.value.executable == lookPath(r.value.argv[0]).value
              && Join(r.value.argv, ' ') == inCommand
              && (forall i :: 0 <= i < |r.value.argv| ==> ' ' !in r.value.argv[i])
  {
    if |inCommand| > 0 then
      var argv := Split(inCommand, ' ');
      JoinSplit(inCommand, ' ');
      var found := lookPath(argv[0]);
      if found.Fail? then Fail(found.err) else Ok(Command(found.value, argv))
    else
      var shell := Getenv(env, "SHELL");
      Ok(Command(shell, [shell]))
  }

  /** Go's `%v` rendering of a `[]string`: the elements between brackets, space separated. */
  function FormatArgs(argv: seq<string>): (r: string)
    ensures |r| >= 2 && r[0] == '[' && r[|r| - 1] == ']'
    ensures r[1..|r| - 1] == Join(argv, ' ')
  {
    "[" + Join(argv, ' ') + "]"
  }

  /** The line `into` prints before starting the child session. The custom-command
      line shows the split argv, which reads back exactly as the configured command. */
  function Banner(inCommand: string): (r: string)
    ensures |inCommand| > 0 ==> r == ">> Running custom 'glide in': [" + inCommand + "]\n"
    ensures |inCommand| == 0 ==> r == ">> You are now gliding into a new shell. To exit, type 'exit'\n"
  {
    if |inCommand| > 0 then
      JoinSplit(inCommand, ' ');
      ">> Running custom 'glide in': " + FormatArgs(Split(inCommand, ' ')) + "\n"
    else ">> You are now gliding into a new shell. To exit, type 'exit'\n"
  }

  /** The reply of `into` once the child session has been asked to start. */
  function ChildReply(child: ChildOutcome, banner: string): (r: Reply)
    ensures r.value == Nil
    ensures child.Exited? <==> r.interrupt == NoInterrupt
    ensures !child.Exited? ==> r.interrupt == Failed(child.err) && r.printed == banner
    ensures child.Exited? ==> r.printed == banner + "Exited glide shell: " + child.status
  {
    match child
    case StartFailed(e) => Reply(Nil, Failed(e), banner)
    case WaitFailed(e) => Reply(Nil, Failed(e), banner)
    case Exited(status) => Reply(Nil, NoInterrupt, banner + "Exited glide shell: " + status)
  }

  /** The glide process: its environment, what `os.Getwd` reports, and the
      processes it has asked the OS to start. */
  class Process {
    var env: map<string, string>
    var wd: Result<string>
    var launches: seq<Launch>

    constructor (env0: map<string, string>, wd0: Result<string>)
      ensures env == env0 && wd == wd0 && launches == []
    {
      env := env0;
      wd := wd0;
      launches := [];
    }

    /** The seven `os.Setenv` calls of `into`, for working directory `cwd` and
        the search path `path` read before them. */
    method SetWorkspaceEnv(cwd: string, path: string)
      requires path == Getenv(env, "PATH")
      modifies this
      ensures env == GlideEnv(old(env), cwd)
      ensures wd == old(wd) && launches == old(launches)
    {
      var gopath := cwd + "/_vendor";
      env := env[MARKER := "1"];
      env := env["GOPATH" := gopath];
      env := env["GOBIN" := gopath + "/bin"];
      env := env["GLIDE_GOPATH" := gopath];
      env := env["PATH" := path + ":" + gopath + "/bin"];
      env := env["GLIDE_PROJECT" := cwd];
      env := env["GLIDE_YAML" := cwd + "/glide.yaml"];
    }

    /** `Into`: optionally change into `into`, rewrite the environment for the
        workspace, choose the command and start it as a child session. */
    method Into(cfg: Config, into: string, chdir: string -> Chdir, lookPath: string -> Result<string>, child: ChildOutcome)
      returns (reply: Reply)
      modifies this
      // a refused chdir ends the command before anything else happens
      ensures |into| > 0 && chdir(into).Refused? ==>
                && reply == Reply(Nil, Failed(chdir(into).err), "")
                && env == old(env) && wd == old(wd) && launches == old(launches)
      ensures |into| == 0 ==> wd == old(wd)
      ensures |into| > 0 && chdir(into).Entered? ==> wd == chdir(into).wd
      // an unknown working directory ends it before the environment is touched
      ensures !(|into| > 0 && chdir(into).Refused?) && wd.Fail? ==>
                && reply == Reply(Nil, Failed(wd.err), "")
                && env == old(env) && launches == old(launches)
      // otherwise the environment is rewritten, even when the command cannot be resolved
      ensures !(|into| > 0 && chdir(into).Refused?) && wd.Ok? ==>
                && env == GlideEnv(old(env), wd.value)
                && env["GOPATH"] == GlideGopath(wd).value
      ensures !(|into| > 0 && chdir(into).Refused?) && wd.Ok? ==>
                var selected := SelectCommand(cfg.inCommand, old(env), lookPath);
                && (selected.Fail? ==>
                      && reply == Reply(Nil, Failed(selected.err), Banner(cfg.inCommand))
                      && launches == old(launches))
                && (selected.Ok? ==>
                      && launches == old(launches) + [Launch(selected.value.executable, selected.value.argv, env, wd.value)]
                      && reply == ChildReply(child, Banner(cfg.inCommand)))
    {
      if |into| > 0 {
        var moved := chdir(into);
        if moved.Refused? {
          return Reply(Nil, Failed(moved.err), "");
        }
        wd := moved.wd;
      }

      var shell := Getenv(env, "SHELL");
      var cmdArgs := [shell];
      var path := Getenv(env, "PATH");

      if wd.Fail? {
        return Reply(Nil, Failed(wd.err), "");
      }
      var cwd := wd.value;

      SetWorkspaceEnv(cwd, path);

      var printed;
      if |cfg.inCommand| > 0 {
        cmdArgs := Split(cfg.inCommand, ' ');
        printed := ">> Running custom 'glide in': " + FormatArgs(cmdArgs) + "\n";
        assert printed == Banner(cfg.inCommand);
        var found := lookPath(cmdArgs[0]);
        if found.Fail? {
          return Reply(Nil, Failed(found.err), printed);
        }
        shell := found.value;
      } else {
        printed := ">> You are now gliding into a new shell. To exit, type 'exit'\n";
      }

      launches := launches + [Launch(shell, cmdArgs, env, cwd)];
      match child
      case StartFailed(e) =>
        return Reply(Nil, Failed(e), printed);
      case WaitFailed(e) =>
        return Reply(Nil, Failed(e), printed);
      case Exited(status) =>
        printed := printed + "Exited glide shell: " + status;
        return Reply(Nil, NoInterrupt, printed);
    }
  }

  /** Entering `/home/u/proj` with the default shell `/bin/sh`: the shell is started
      in the project with the marker set and GOPATH pointing at `_vendor`. */
  method EnterDefaultShell(lookPath: string -> Result<string>, chdir: string -> Chdir) {
    var env0 := map["SHELL" := "/bin/sh"];
    var p := new Process(env0, Ok("/home/u/proj"));
    var reply := p.Into(Config(""), "", chdir, lookPath, Exited("exit status 0"));
    assert p.env == GlideEnv(env0, "/home/u/proj");
    assert reply.interrupt == NoInterrupt;
    assert p.launches == [Launch("/bin/sh", ["/bin/sh"], p.env, "/home/u/proj")];
    assert p.env["ALREADY_GLIDING"] == "1";
    assert p.env["GOPATH"] == "/home/u/proj" + "/_vendor";
  }
}

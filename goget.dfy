/** The `go get` fetch backend (`GoGetVCS`): the VCS capability used for a
    dependency that names no repository. Running the fetch command is an
    oracle `exec` from argv to the command's outcome. */
module GoGet {
  import opened Errors
  import opened Strings

  /** The dependency being fetched; only its name matters to this backend. */
  datatype Dependency = Dependency(name: string)

  /** What `exec.Command(argv...).CombinedOutput()` reports: the command's
      error (None when it exited successfully) and its stdout and stderr together. */
  datatype Run = Run(err: Option<Error>, output: string)

  /** Which logging helper a fetch called, with the text it was given. */
  datatype Log = Silent | Informed(text: string) | Warned(text: string)

  /** The error a fetch returns (None is Go's nil) and what it logged. */
  datatype Fetch = Fetch(err: Option<Error>, log: Log)

  /** The toolchain's wording for a package that holds no Go code. */
  const NO_BUILDABLE_SOURCE := "no buildable Go source"

  /** The argv of the fetch that `Get` runs. */
  function GetArgs(dep: Dependency): (argv: seq<string>)
    ensures |argv| == 4 && argv[|argv| - 1] == dep.name
    ensures argv[..3] == ["go", "get", "-d"]
  {
    ["go", "get", "-d", dep.name]
  }

  /** The argv of the fetch that `Update` runs: `Get`'s with `-u` before the name. */
  function UpdateArgs(dep: Dependency): (argv: seq<string>)
    ensures argv == GetArgs(dep)[..3] + ["-u"] + [dep.name]
    ensures argv[|argv| - 1] == dep.name
  {
    ["go", "get", "-d", "-u", dep.name]
  }

  /** The three outcomes of a fetch, stated with the index-based notion of containment:
      success is nil and silent; a failure mentioning no buildable source is nil and
      logged as information; any other failure is the command's own error, logged as a warning. */
  ghost predicate Classifies(run: Run, r: Fetch) {
    && (run.err.None? ==> r == Fetch(None, Silent))
    && (run.err.Some? && (exists i :: OccursAt(run.output, NO_BUILDABLE_SOURCE, i)) ==>
          r == Fetch(None, Informed("Go Get: " + run.output)))
    && (run.err.Some? && !(exists i :: OccursAt(run.output, NO_BUILDABLE_SOURCE, i)) ==>
          r == Fetch(run.err, Warned("Go Get: " + run.output)))
  }

  /** `GoGetVCS.Get`: fetch the dependency's source without building it. */
  function Get(dep: Dependency, exec: seq<string> -> Run): (r: Fetch)
    ensures Classifies(exec(GetArgs(dep)), r)
    ensures r.err.None? <==> exec(GetArgs(dep)).err.None? || Contains(exec(GetArgs(dep)).output, NO_BUILDABLE_SOURCE)
    ensures r.err.Some? ==> r.err == exec(GetArgs(dep)).err
  {
    var run := exec(["go", "get", "-d", dep.name]);
    ContainsIffOccurs(run.output, NO_BUILDABLE_SOURCE);
    if run.err.Some? then
      if Contains(run.output, NO_BUILDABLE_SOURCE) then Fetch(None, Informed("Go Get: " + run.output))
      else Fetch(run.err, Warned("Go Get: " + run.output))
    else Fetch(run.err, Silent)
  }

  /** `GoGetVCS.Update`: like `Get`, but asks `go get` to refresh a cached copy. */
  function Update(dep: Dependency, exec: seq<string> -> Run): (r: Fetch)
    ensures Classifies(exec(UpdateArgs(dep)), r)
    ensures r.err.None? <==> exec(UpdateArgs(dep)).err.None? || Contains(exec(UpdateArgs(dep)).output, NO_BUILDABLE_SOURCE)
    ensures r.err.Some? ==> r.err == exec(UpdateArgs(dep)).err
  {
    var run := exec(["go", "get", "-d", "-u", dep.name]);
    ContainsIffOccurs(run.output, NO_BUILDABLE_SOURCE);
    if run.err.Some? then
      if Contains(run.output, NO_BUILDABLE_SOURCE) then Fetch(None, Informed("Go Get: " + run.output))
      else Fetch(run.err, Warned("Go Get: " + run.output))
    else Fetch(run.err, Silent)
  }

  /** `Get` and `Update` classify a command outcome identically: whenever the two
      commands report the same outcome, the two operations give the same result. */
  lemma GetUpdateAgree(dep: Dependency, execGet: seq<string> -> Run, execUpdate: seq<string> -> Run)
    requires execGet(GetArgs(dep)) == execUpdate(UpdateArgs(dep))
    ensures Get(dep, execGet) == Update(dep, execUpdate)
  {
  }

  /** `GoGetVCS.Version`: a repository-less dependency cannot be pinned, so this always fails. */
  function Version(dep: Dependency): (r: Option<Error>)
    ensures r.Some?
    ensures StartsWith(r.value.message, dep.name)
    ensures r.value.message[|dep.name|..] == " does not have a repository/VCS set. No way to set version."
  {
    Some(Error(dep.name + " does not have a repository/VCS set. No way to set version."))
  }

  /** `GoGetVCS.LastCommit`: this backend is not revision-aware; the revision is empty and there is no error. */
  function LastCommit(dep: Dependency): (r: (string, Option<Error>))
    ensures r.0 == "" && r.1.None?
  {
    ("", None)
  }

  /** A fetch whose output includes the toolchain's no-buildable-source sentence
      anywhere is not an error, for each operation on its own. */
  lemma {:induction false} NoBuildableSourceIsNotAnError(dep: Dependency, exec: seq<string> -> Run, pre: string, post: string)
    ensures exec(GetArgs(dep)).output == pre + NO_BUILDABLE_SOURCE + post ==> Get(dep, exec).err.None?
    ensures exec(UpdateArgs(dep)).output == pre + NO_BUILDABLE_SOURCE + post ==> Update(dep, exec).err.None?
  {
    var out := pre + NO_BUILDABLE_SOURCE + post;
    assert out[|pre|..|pre| + |NO_BUILDABLE_SOURCE|] == NO_BUILDABLE_SOURCE;
    assert OccursAt(out, NO_BUILDABLE_SOURCE, |pre|);
  }
}

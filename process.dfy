/** `_run`: start a child process, optionally wait for it, and check its exit status
    (utils/fmbtwindows.py). Starting the process is the operating system's business, so
    what it did is a parameter. */
module Process {
  import opened Py

  /** A command for the child process: a string runs through a shell, a list of strings
      runs without one. */
  datatype Command = ShellLine(line: string) | Argv(args: seq<string>)

  /** `expectedExitStatus`: None (do not wait for the child), a collection of accepted
      statuses, or a single int. */
  datatype Expected = NoWait | OneOf(statuses: seq<int>) | Just(status: int)

  /** What starting the child did: it started, and would exit with returncode and print
      stdout and stderr; or it failed to start, with an error. */
  datatype Spawn = Started(returncode: int, stdout: string, stderr: string) | StartFailed(error: string)

  /** `_run`'s result: the exit status (None while the child has not been waited for),
      standard output, and standard error or the start error. */
  datatype Completion = Completion(exitStatus: Option<int>, stdout: string, stderr: Option<string>)

  /** What the child reports before the status check. */
  function Collect(expected: Expected, spawn: Spawn): Completion {
    match spawn
    case StartFailed(e) => Completion(Some(127), "", Some(e))
    case Started(code, out, err) =>
      if expected.NoWait? then Completion(None, "", None)
      else Completion(Some(code), out, Some(err))
  }

  /** `_run(command, expectedExitStatus)`. */
  function Run(command: Command, expected: Expected, spawn: Spawn): (r: Result<Completion>)
    ensures spawn.StartFailed? && r.Ok? ==> r.value == Completion(Some(127), "", Some(spawn.error))
    ensures spawn.Started? && expected.NoWait? ==> r == Ok(Completion(None, "", None))
    ensures spawn.Started? && !expected.NoWait? && r.Ok? ==>
      r.value == Completion(Some(spawn.returncode), spawn.stdout, Some(spawn.stderr))
    ensures expected.NoWait? ==> r.Ok?
    ensures expected.OneOf? ==>
      var status := if spawn.Started? then spawn.returncode else 127;
      if status in expected.statuses then r.Ok?
      else r == Raise(FMBTWindowsError(status, expected.statuses))
    ensures expected.Just? ==>
      var status := if spawn.Started? then spawn.returncode else 127;
      if status == expected.status then r.Ok? else r == Raise(TypeError)
  {
    var c := Collect(expected, spawn);
    match expected
    case NoWait => Ok(c)
    case OneOf(statuses) =>
      if c.exitStatus.value in statuses then Ok(c)
      else Raise(FMBTWindowsError(c.exitStatus.value, statuses))
    case Just(status) =>
      if c.exitStatus.value == status then Ok(c) else Raise(TypeError)
  }

  /** With the expected statuses [0], `_run` returns exactly when the child started and
      exited with status 0; a child that could not start counts as status 127. */
  lemma ZeroExpectedSucceedsOnlyOnZero(command: Command, spawn: Spawn)
    ensures Run(command, OneOf([0]), spawn).Ok? <==> spawn.Started? && spawn.returncode == 0
    ensures spawn.StartFailed? ==> Run(command, OneOf([0]), spawn) == Raise(FMBTWindowsError(127, [0]))
  {
  }
}

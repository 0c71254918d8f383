/** The command lines the remote project sends to the container and echoes to the console. */
module Commands {
  import opened Wrappers
  import opened Text
  import opened Collaborators

  /**
   * The arguments a run uses: the given ones if there are any, else the
   * project's own if it has non-empty ones, else none.
   */
  function EffectiveCli(given: seq<string>, own: Option<seq<string>>): (r: seq<string>)
    ensures given != [] ==> r == given
    ensures given == [] && own.Some? && own.value != [] ==> r == own.value
    ensures r == [] <==> given == [] && (own.None? || own.value == [])
  {
    if given != [] then given
    else if own.None? || own.value == [] then []
    else own.value
  }

  /** The `gprbuild` command line for the project file at `projectPath`. */
  function GprbuildLine(projectPath: string): seq<string> {
    ["gprbuild", "-q", "-P", projectPath, "-gnatwa", "-gnata"]
  }

  /** The fixed part of the `gnatprove` command line for the project file at `projectPath`. */
  function GnatprovePrefix(projectPath: string): seq<string> {
    ["gnatprove", "-P", projectPath, "--checks-as-errors", "--level=0", "--no-axiom-guard"]
  }

  /**
   * The echoed and the executed build commands are the same six words except
   * for the project argument, which is the bare project-file name in the echo
   * and the file inside the session directory in the executed command.
   */
  lemma GprbuildLines(remoteTempd: string, gprName: string)
    requires !IsAbsolute(gprName)
    ensures |GprbuildLine(gprName)| == |GprbuildLine(PathJoin(remoteTempd, gprName))| == 6
    ensures forall k :: 0 <= k < 6 && k != 3 ==> GprbuildLine(gprName)[k] == GprbuildLine(PathJoin(remoteTempd, gprName))[k]
    ensures GprbuildLine(gprName)[3] == gprName
    ensures remoteTempd <= GprbuildLine(PathJoin(remoteTempd, gprName))[3]
  {
  }

  /** The prover command is the fixed six-word prefix, then the extra arguments in their given order. */
  lemma GnatproveLineShape(projectPath: string, extraArgs: seq<string>)
    ensures |GnatprovePrefix(projectPath) + extraArgs| == 6 + |extraArgs|
    ensures (GnatprovePrefix(projectPath) + extraArgs)[..6] == GnatprovePrefix(projectPath)
    ensures (GnatprovePrefix(projectPath) + extraArgs)[6..] == extraArgs
    ensures (GnatprovePrefix(projectPath) + extraArgs)[2] == projectPath
  {
  }

  /** The shell script a run hands to `bash -c`: the program under the preloader, fed the arguments through `echo`. */
  function RunScript(exe: string, cli: seq<string>): string {
    "LD_PRELOAD=/preloader.so " + exe + " `echo " + JoinSpace(cli) + "`"
  }

  /** The command line of a run: the script, as the unprivileged user, under a ten-second timeout. */
  function RunLine(exe: string, cli: seq<string>): seq<string> {
    ["sudo", "-u", "unprivileged", "timeout", "10s", "bash", "-c", RunScript(exe, cli)]
  }

  /** The container request of a run of `main` in `remoteTempd` given the arguments `cli`. */
  function RunCall(remoteTempd: string, main: string, ownCli: Option<seq<string>>, cli: seq<string>): Call {
    ExecuteNoEnv(RunLine(PathJoin(remoteTempd, main), EffectiveCli(cli, ownCli)))
  }

  /** The console event of a run of `main` given the arguments `cli`, tagged with `labRef`. */
  function RunEcho(main: string, ownCli: Option<seq<string>>, cli: seq<string>, labRef: Option<string>): Event {
    Console(["./" + main, JoinSpace(EffectiveCli(cli, ownCli))], labRef)
  }
}

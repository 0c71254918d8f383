/**
 * The remote project: the project's files pushed to a session directory of an
 * execution container, and the four actions on it (build, run, prove and
 * submit) stated as the command lines they send to the container and the
 * events they publish on the task's progress channel.
 */
module Remote {
  import opened Wrappers
  import opened Text
  import opened Collaborators
  import opened Assembly
  import opened Commands

  const NoMainMessage: string := "Cannot run program without main"
  const NotSparkMessage: string := "Project not configured for spark mode"
  const NoLabIoMessage: string := "No lab io sent with project"

  /** Where session directories live in the container. */
  const WorkspaceBase: string := "/workspace/sessions"

  /** The base directory is `os.path.join(os.path.sep, "workspace", "sessions")`. */
  lemma WorkspaceBaseDerivation()
    ensures PathJoin(PathJoin("/", "workspace"), "sessions") == WorkspaceBase
  {
    var root: string := "/workspace";
    PathJoinAppends("/", "workspace", "");
    assert "/" + "" + "workspace" == root;
    PathJoinAppends(root, "sessions", "/");
    assert root + "/" + "sessions" == WorkspaceBase;
  }

  /** The session directory in the container for the local temporary directory named `tmpName`. */
  function RemoteTempd(tmpName: string): string {
    PathJoin(WorkspaceBase, tmpName)
  }

  /** A relative directory name lands under `/workspace/sessions`; an absolute one replaces it. */
  lemma RemoteTempdShape(tmpName: string)
    ensures !IsAbsolute(tmpName) ==> RemoteTempd(tmpName) == "/workspace/sessions/" + tmpName
    ensures IsAbsolute(tmpName) ==> RemoteTempd(tmpName) == tmpName
  {
  }

  /** Python's `not self.main` is false: a main was found and its name is not empty. */
  predicate HasMain(p: Project) {
    p.main.Some? && p.main.value != ""
  }

  /**
   * The arguments read from `cli.txt` survive being joined into the run script
   * in the sense that Python's split of the joined text gives them back.
   */
  lemma CliRoundTrip(files: seq<Upload>)
    ensures CliOf(files).Some? ==> Split(JoinSpace(CliOf(files).value)) == CliOf(files).value
  {
    match LastContents(files, CliFile)
    case None =>
    case Some(c) => SplitJoinSplit(c);
  }

  /** Python's `all(s)`. */
  function All(s: seq<bool>): (r: bool)
    ensures r <==> forall i :: 0 <= i < |s| ==> s[i]
  {
    if s == [] then true else s[0] && All(s[1..])
  }

  /** The verdicts of the judged cases, in order. */
  function Verdicts(results: seq<CaseResult>): (r: seq<bool>)
    ensures |r| == |results|
    ensures forall k :: 0 <= k < |r| ==> r[k] == results[k].passed
  {
    if results == [] then [] else [results[0].passed] + Verdicts(results[1..])
  }

  /** The submission passes exactly when every judged case passed. */
  lemma VerdictIsConjunction(results: seq<CaseResult>)
    ensures All(Verdicts(results)) <==> forall k :: 0 <= k < |results| ==> results[k].passed
  {
  }

  /**
   * One run of the project as the submission loop sees it: the request and the
   * console event a run with given arguments makes, and the container's answer.
   */
  datatype Runner = Runner(
    call: seq<string> -> Call,
    echo: (seq<string>, Option<string>) -> Event,
    respond: (seq<Call>, Call) -> Response)

  /** What run gives back for a container response: the exit code and output, or the exception. */
  function RunOutcome(resp: Response): (r: Result<(int, string), Error>)
    ensures resp.Completed? <==> r.Ok?
    ensures resp.Completed? ==> r.value == (resp.code, resp.out)
    ensures resp.Raised? ==> r == Err(ContainerFailure)
  {
    match resp
    case Completed(code, out, _) => Ok((code, out))
    case Raised => Err(ContainerFailure)
  }

  /** The report of a failed build. */
  function BuildFailedMessage(code: int): string {
    "Build failed with error code: " + IntToString(code)
  }

  /** What build gives back for a container response: a zero exit code, or the failure. */
  function BuildOutcome(resp: Response): (r: Result<int, Error>)
    ensures r.Ok? <==> resp.Completed? && resp.code == 0
    ensures r.Ok? ==> r.value == 0
    ensures resp.Completed? && resp.code != 0 ==> r == Err(BuildError(resp.code))
    ensures resp.Raised? ==> r == Err(ContainerFailure)
  {
    match resp
    case Raised => Err(ContainerFailure)
    case Completed(code, _, _) => if code != 0 then Err(BuildError(code)) else Ok(code)
  }

  /** What build publishes after running its command: the failure report exactly on a non-zero code. */
  function BuildFailureEvents(resp: Response): (evs: seq<Event>)
    ensures |evs| <= 1
    ensures |evs| == 1 <==> resp.Completed? && resp.code != 0
    ensures |evs| == 1 ==> evs[0] == Stderr(BuildFailedMessage(resp.code), None)
  {
    if resp.Completed? && resp.code != 0 then [Stderr(BuildFailedMessage(resp.code), None)] else []
  }

  /** What build publishes: the echo with the bare project-file name, then the failure report on a non-zero code. */
  function BuildEvents(gprName: string, resp: Response): (evs: seq<Event>)
    ensures 1 <= |evs| <= 2 && evs[0] == Console(GprbuildLine(gprName), None)
    ensures |evs| == 2 <==> resp.Completed? && resp.code != 0
    ensures |evs| == 2 ==> evs[1] == Stderr(BuildFailedMessage(resp.code), None)
  {
    [Console(GprbuildLine(gprName), None)] + BuildFailureEvents(resp)
  }

  /** The record of one judged case. */
  function Judge(lab: Lab, code: int, out: string): CaseResult {
    CaseResult(lab.key, out, code, lab.checkActual(out, code))
  }

  /** What running a list of lab cases does: the requests, the events and the judged cases (none when a run raised). */
  datatype Trace = Trace(calls: seq<Call>, events: seq<Event>, results: Option<seq<CaseResult>>)

  /**
   * The submission loop over `labs` from container history `h`: each case is
   * run in order with its key as lab reference and its input as arguments and
   * judged by its `check_actual`; a run that raised ends the loop, leaving no
   * judged cases, and the cases after it are not run.
   */
  function SubmitTrace(rn: Runner, h: seq<Call>, labs: seq<Lab>): Trace
    decreases |labs|
  {
    if labs == [] then Trace([], [], Some([]))
    else
      var before := SubmitTrace(rn, h, labs[..|labs| - 1]);
      if before.results.None? then before
      else
        var lab := labs[|labs| - 1];
        var call := rn.call(lab.input);
        var echo := rn.echo(lab.input, Some(lab.key));
        match rn.respond(h + before.calls, call)
        case Raised => Trace(before.calls + [call], before.events + [echo], None)
        case Completed(code, out, _) =>
          Trace(before.calls + [call], before.events + [echo], Some(before.results.value + [Judge(lab, code, out)]))
  }

  /**
   * The loop makes one request and one console event per case it reaches, and
   * reaches every case unless a run raised.
   */
  lemma {:induction false} SubmitTraceLength(rn: Runner, h: seq<Call>, labs: seq<Lab>)
    ensures var t := SubmitTrace(rn, h, labs);
      && |t.calls| == |t.events| <= |labs|
      && (labs != [] ==> t.calls != [])
      && (t.results.Some? ==> |t.calls| == |labs| && |t.results.value| == |labs|)
    decreases |labs|
  {
    if labs != [] {
      SubmitTraceLength(rn, h, labs[..|labs| - 1]);
    }
  }

  /** The `k`-th request and console event are those of the `k`-th case: the cases run in order. */
  lemma {:induction false} SubmitTraceCalls(rn: Runner, h: seq<Call>, labs: seq<Lab>)
    ensures var t := SubmitTrace(rn, h, labs);
      && (forall k :: 0 <= k < |t.calls| && k < |labs| ==> t.calls[k] == rn.call(labs[k].input))
      && (forall k :: 0 <= k < |t.events| && k < |labs| ==> t.events[k] == rn.echo(labs[k].input, Some(labs[k].key)))
    decreases |labs|
  {
    if labs != [] {
      var init := labs[..|labs| - 1];
      var before := SubmitTrace(rn, h, init);
      var t := SubmitTrace(rn, h, labs);
      SubmitTraceCalls(rn, h, init);
      SubmitTraceLength(rn, h, init);
      if before.results.Some? {
        var lab := labs[|labs| - 1];
        assert t.calls == before.calls + [rn.call(lab.input)];
        assert t.events == before.events + [rn.echo(lab.input, Some(lab.key))];
      }
      forall k | 0 <= k < |t.calls| && k < |labs|
        ensures t.calls[k] == rn.call(labs[k].input)
        ensures k < |t.events| ==> t.events[k] == rn.echo(labs[k].input, Some(labs[k].key))
      {
        if k < |init| {
          assert init[k] == labs[k];
        }
      }
    }
  }

  /** The response to the `k`-th request of a trace from history `h`. */
  function ResponseAt(rn: Runner, h: seq<Call>, calls: seq<Call>, k: nat): Response
    requires k < |calls|
  {
    rn.respond(h + calls[..k], calls[k])
  }

  /** Extending the requests by one keeps the responses to the earlier ones. */
  lemma ResponseAtExtend(rn: Runner, h: seq<Call>, calls: seq<Call>, call: Call, k: nat)
    requires k < |calls|
    ensures ResponseAt(rn, h, calls + [call], k) == ResponseAt(rn, h, calls, k)
  {
    assert (calls + [call])[..k] == calls[..k];
  }

  /** The requests of a trace that went on past its first `|labs| - 1` cases: one more request, the old ones answered as before. */
  lemma SubmitTraceLast(rn: Runner, h: seq<Call>, labs: seq<Lab>)
    requires labs != []
    requires SubmitTrace(rn, h, labs[..|labs| - 1]).results.Some?
    ensures var before := SubmitTrace(rn, h, labs[..|labs| - 1]);
      var t := SubmitTrace(rn, h, labs);
      var call := rn.call(labs[|labs| - 1].input);
      && t.calls == before.calls + [call]
      && ResponseAt(rn, h, t.calls, |before.calls|) == rn.respond(h + before.calls, call)
      && forall k :: 0 <= k < |before.calls| ==> ResponseAt(rn, h, t.calls, k) == ResponseAt(rn, h, before.calls, k)
  {
    var before := SubmitTrace(rn, h, labs[..|labs| - 1]);
    var call := rn.call(labs[|labs| - 1].input);
    forall k | 0 <= k < |before.calls|
      ensures ResponseAt(rn, h, before.calls + [call], k) == ResponseAt(rn, h, before.calls, k)
    {
      ResponseAtExtend(rn, h, before.calls, call, k);
    }
    assert (before.calls + [call])[..|before.calls|] == before.calls;
  }

  /** Every case but the last one reached completed. */
  lemma {:induction false} SubmitTraceCompleted(rn: Runner, h: seq<Call>, labs: seq<Lab>)
    ensures var t := SubmitTrace(rn, h, labs);
      forall k :: 0 <= k < |t.calls| - 1 ==> ResponseAt(rn, h, t.calls, k).Completed?
    decreases |labs|
  {
    if labs != [] {
      var init := labs[..|labs| - 1];
      var before := SubmitTrace(rn, h, init);
      SubmitTraceCompleted(rn, h, init);
      if before.results.Some? {
        SubmitTraceRaised(rn, h, init);
        SubmitTraceLast(rn, h, labs);
      }
    }
  }

  /** The loop gives no judged cases exactly when its last run raised. */
  lemma {:induction false} SubmitTraceRaised(rn: Runner, h: seq<Call>, labs: seq<Lab>)
    ensures var t := SubmitTrace(rn, h, labs);
      t.results.None? <==> t.calls != [] && ResponseAt(rn, h, t.calls, |t.calls| - 1).Raised?
    decreases |labs|
  {
    if labs != [] {
      var init := labs[..|labs| - 1];
      var before := SubmitTrace(rn, h, init);
      SubmitTraceRaised(rn, h, init);
      if before.results.Some? {
        SubmitTraceLast(rn, h, labs);
      }
    }
  }

  /** Every case of a finished loop completed and is judged from its own run's exit code and output. */
  lemma {:induction false} SubmitTraceJudged(rn: Runner, h: seq<Call>, labs: seq<Lab>)
    ensures var t := SubmitTrace(rn, h, labs);
      t.results.Some? ==>
        && |t.results.value| == |t.calls| == |labs|
        && forall k :: 0 <= k < |labs| ==>
             && ResponseAt(rn, h, t.calls, k).Completed?
             && t.results.value[k]
                == Judge(labs[k], ResponseAt(rn, h, t.calls, k).code, ResponseAt(rn, h, t.calls, k).out)
    decreases |labs|
  {
    if labs != [] {
      var init := labs[..|labs| - 1];
      var before := SubmitTrace(rn, h, init);
      SubmitTraceJudged(rn, h, init);
      if before.results.Some? {
        SubmitTraceLast(rn, h, labs);
        assert forall k :: 0 <= k < |init| ==> init[k] == labs[k];
      }
    }
  }

  /**
   * One turn of the submission loop: from the trace of the first `i` cases and
   * the response to the run of case `i`, the trace of the first `i + 1` cases,
   * or, when that run raised, the trace of all of them.
   */
  lemma SubmitTraceNext(rn: Runner, h: seq<Call>, labs: seq<Lab>, i: nat,
                        calls: seq<Call>, events: seq<Event>, results: seq<CaseResult>, resp: Response)
    requires i < |labs|
    requires SubmitTrace(rn, h, labs[..i]) == Trace(calls, events, Some(results))
    requires resp == rn.respond(h + calls, rn.call(labs[i].input))
    ensures var call := rn.call(labs[i].input);
      var echo := rn.echo(labs[i].input, Some(labs[i].key));
      && (resp.Completed? ==>
            SubmitTrace(rn, h, labs[..i + 1])
            == Trace(calls + [call], events + [echo], Some(results + [Judge(labs[i], resp.code, resp.out)])))
      && (resp.Raised? ==> SubmitTrace(rn, h, labs) == Trace(calls + [call], events + [echo], None))
  {
    assert labs[..i + 1][..i] == labs[..i];
    if resp.Raised? {
      SubmitTraceStops(rn, h, labs, i + 1);
    }
  }

  /** Once a run raised, the cases after it change nothing. */
  lemma {:induction false} SubmitTraceStops(rn: Runner, h: seq<Call>, labs: seq<Lab>, j: nat)
    requires j <= |labs|
    requires SubmitTrace(rn, h, labs[..j]).results.None?
    ensures SubmitTrace(rn, h, labs) == SubmitTrace(rn, h, labs[..j])
    decreases |labs|
  {
    if j == |labs| {
      assert labs[..j] == labs;
    } else {
      var init := labs[..|labs| - 1];
      assert init[..j] == labs[..j];
      SubmitTraceStops(rn, h, init, j);
    }
  }

  /**
   * A project pushed to a session directory of a container. The project
   * itself never changes; the container's history and the progress channel's
   * events grow with every action.
   */
  class RemoteProject {
    const project: Project
    const remoteTempd: string
    const container: Container
    const reporter: Reporter

    /** Names the session directory after the local temporary directory; nothing is requested yet. */
    constructor (project: Project, tmpName: string, container: Container, reporter: Reporter)
      ensures this.project == project && this.container == container && this.reporter == reporter
      ensures remoteTempd == RemoteTempd(tmpName)
    {
      this.project := project;
      this.container := container;
      this.reporter := reporter;
      remoteTempd := RemoteTempd(tmpName);
    }

    /**
     * The end of `RemoteProject(...)`: creates the session directory, then pushes
     * the project's files into it; either request raising ends the construction.
     */
    method Stage() returns (r: Result<(), Error>)
      modifies container
      ensures
        var mkdir := Call.Mkdir(remoteTempd);
        var push := PushFiles(project.fileList, remoteTempd);
        var made := container.respond(old(container.history), mkdir);
        var pushed := container.respond(old(container.history) + [mkdir], push);
        && (made.Raised? ==> r == Err(ContainerFailure) && container.history == old(container.history) + [mkdir])
        && (made.Completed? ==> container.history == old(container.history) + [mkdir, push])
        && (made.Completed? ==> (r.Ok? <==> pushed.Completed?))
        && (r.Err? ==> r.error == ContainerFailure)
    {
      var made := container.Mkdir(remoteTempd);
      if made.Raised? {
        return Err(ContainerFailure);
      }
      var pushed := container.PushFiles(project.fileList, remoteTempd);
      if pushed.Raised? {
        return Err(ContainerFailure);
      }
      return Ok(());
    }

    /** The build request: the project file inside the session directory. */
    function BuildCall(): Call {
      Execute(GprbuildLine(PathJoin(remoteTempd, project.gpr.name)))
    }

    /** What a run of this project depends on. */
    function RunnerOf(): Runner
      requires project.main.Some?
    {
      Runner(
        cli => RunCall(remoteTempd, project.main.value, project.cli, cli),
        (cli, labRef) => RunEcho(project.main.value, project.cli, cli, labRef),
        container.respond)
    }

    /**
     * `build()`: echoes the build command with the bare project-file name, runs
     * it on the project file in the session directory, and on a non-zero exit
     * code reports the failure and fails with that code.
     */
    method Build() returns (r: Result<int, Error>)
      modifies container, reporter
      ensures container.history == old(container.history) + [BuildCall()]
      ensures r == BuildOutcome(container.respond(old(container.history), BuildCall()))
      ensures reporter.events
           == old(reporter.events) + BuildEvents(project.gpr.name, container.respond(old(container.history), BuildCall()))
    {
      ghost var e0 := reporter.events;
      reporter.Publish(Console(GprbuildLine(project.gpr.name), None));
      var res := ExecuteBuild();
      r := ReportBuild(res);
      assert reporter.events == e0 + ([Console(GprbuildLine(project.gpr.name), None)] + BuildFailureEvents(res));
    }

    /** The build command of `build()`, run on the project file inside the session directory. */
    method ExecuteBuild() returns (res: Response)
      modifies container
      ensures container.history == old(container.history) + [BuildCall()]
      ensures res == container.respond(old(container.history), BuildCall())
    {
      var mainPath := PathJoin(remoteTempd, project.gpr.name);
      var line := GprbuildLine(mainPath);
      res := container.Execute(line);
    }

    /** The end of `build()`: reports a failing exit code and gives the outcome. */
    method ReportBuild(res: Response) returns (r: Result<int, Error>)
      modifies reporter
      ensures r == BuildOutcome(res)
      ensures reporter.events == old(reporter.events) + BuildFailureEvents(res)
    {
      match res
      case Raised =>
        return Err(ContainerFailure);
      case Completed(code, out, err) =>
        if code != 0 {
          reporter.Publish(Stderr(BuildFailedMessage(code), None));
          return Err(BuildError(code));
        }
        return Ok(code);
    }

    /**
     * `run(lab_ref, cli)`: without a main it fails before any request or event;
     * otherwise it echoes and runs the main with the effective arguments and
     * gives back the exit code and output, whatever the code.
     */
    method Run(labRef: Option<string>, cli: seq<string>) returns (r: Result<(int, string), Error>)
      modifies container, reporter
      ensures !HasMain(project) ==>
        && r == Err(RunError(NoMainMessage))
        && container.history == old(container.history)
        && reporter.events == old(reporter.events)
      ensures HasMain(project) ==>
        && container.history == old(container.history) + [RunCall(remoteTempd, project.main.value, project.cli, cli)]
        && reporter.events == old(reporter.events) + [RunEcho(project.main.value, project.cli, cli, labRef)]
        && r == RunOutcome(container.respond(old(container.history), RunCall(remoteTempd, project.main.value, project.cli, cli)))
    {
      if !HasMain(project) {
        return Err(RunError(NoMainMessage));
      }
      var args := cli;
      if args == [] {
        if project.cli.None? || project.cli.value == [] {
          args := [];
        } else {
          args := project.cli.value;
        }
      }
      var main := project.main.value;
      reporter.Publish(Console(["./" + main, JoinSpace(args)], labRef));
      var exe := PathJoin(remoteTempd, main);
      var line := ["sudo", "-u", "unprivileged", "timeout", "10s", "bash", "-c",
                   "LD_PRELOAD=/preloader.so " + exe + " `echo " + JoinSpace(args) + "`"];
      var res := container.ExecuteNoEnv(line);
      match res
      case Raised =>
        return Err(ContainerFailure);
      case Completed(code, out, err) =>
        return Ok((code, out));
    }

    /**
     * `prove(extra_args)`: a project not in SPARK mode fails before any request
     * or event; otherwise the prover command is echoed and run, and its exit
     * code is given back whatever it is.
     */
    method Prove(extraArgs: seq<string>) returns (r: Result<int, Error>)
      modifies container, reporter
      ensures !project.spark ==>
        && r == Err(ProveError(NotSparkMessage))
        && container.history == old(container.history)
        && reporter.events == old(reporter.events)
      ensures project.spark ==>
        var call := Execute(GnatprovePrefix(PathJoin(remoteTempd, project.gpr.name)) + extraArgs);
        && container.history == old(container.history) + [call]
        && reporter.events == old(reporter.events) + [Console(GnatprovePrefix(project.gpr.name) + extraArgs, None)]
        && (container.respond(old(container.history), call).Completed? ==>
              r == Ok(container.respond(old(container.history), call).code))
        && (container.respond(old(container.history), call).Raised? ==> r == Err(ContainerFailure))
    {
      if !project.spark {
        return Err(ProveError(NotSparkMessage));
      }
      reporter.Publish(Console(GnatprovePrefix(project.gpr.name) + extraArgs, None));
      var provePath := PathJoin(remoteTempd, project.gpr.name);
      var line := GnatprovePrefix(provePath);
      line := line + extraArgs;
      var res := container.Execute(line);
      match res
      case Raised =>
        return Err(ContainerFailure);
      case Completed(code, out, err) =>
        return Ok(code);
    }

    /**
     * `submit()`: without a main, and then without lab data, it fails before any
     * request or event; otherwise it runs every lab case in order (the trace
     * `SubmitTrace` describes) and reports whether all of them passed, unless a
     * run raised, which ends the submission without a report.
     */
    method Submit() returns (r: Result<(), Error>)
      modifies container, reporter
      ensures !HasMain(project) || project.labList.None? || !project.labList.value.truthy ==>
        && container.history == old(container.history)
        && reporter.events == old(reporter.events)
      ensures !HasMain(project) ==> r == Err(SubmitError(NoMainMessage))
      ensures HasMain(project) && project.labList.None? ==> r == Err(LabListMissing)
      ensures HasMain(project) && project.labList.Some? && !project.labList.value.truthy ==>
        r == Err(SubmitError(NoLabIoMessage))
      ensures HasMain(project) && project.labList.Some? && project.labList.value.truthy ==>
        var t := SubmitTrace(RunnerOf(), old(container.history), project.labList.value.cases);
        && container.history == old(container.history) + t.calls
        && (t.results.None? ==> r == Err(ContainerFailure) && reporter.events == old(reporter.events) + t.events)
        && (t.results.Some? ==>
              && r == Ok(())
              && reporter.events
                 == old(reporter.events) + t.events + [LabReport(All(Verdicts(t.results.value)), t.results.value)])
    {
      if !HasMain(project) {
        return Err(SubmitError(NoMainMessage));
      }
      if project.labList.None? {
        return Err(LabListMissing);
      }
      if !project.labList.value.truthy {
        return Err(SubmitError(NoLabIoMessage));
      }
      var labs := project.labList.value.cases;
      var cases, successes := RunLabCases(labs);
      if cases.Err? {
        return Err(cases.error);
      }
      var results := cases.value;
      reporter.Publish(LabReport(All(successes), results));
      return Ok(());
    }

    /**
     * The loop of `submit()`: runs each case with its key as lab reference and
     * its input as arguments, collecting the `check_actual` verdicts, and stops
     * at the first run that raises. The cases it gives back are what
     * `get_results()` reports.
     */
    method RunLabCases(labs: seq<Lab>) returns (r: Result<seq<CaseResult>, Error>, successes: seq<bool>)
      requires HasMain(project)
      modifies container, reporter
      ensures var t := SubmitTrace(RunnerOf(), old(container.history), labs);
        && container.history == old(container.history) + t.calls
        && reporter.events == old(reporter.events) + t.events
        && (t.results.None? ==> r == Err(ContainerFailure))
        && (t.results.Some? ==> r == Ok(t.results.value) && successes == Verdicts(t.results.value))
    {
      ghost var rn := RunnerOf();
      ghost var h0 := container.history;
      ghost var e0 := reporter.events;
      ghost var calls: seq<Call> := [];
      ghost var echoes: seq<Event> := [];
      successes := [];
      var results: seq<CaseResult> := [];
      assert labs[..0] == [];
      for i := 0 to |labs|
        invariant container.history == h0 + calls
        invariant reporter.events == e0 + echoes
        invariant successes == Verdicts(results)
        invariant SubmitTrace(rn, h0, labs[..i]) == Trace(calls, echoes, Some(results))
      {
        var lab := labs[i];
        ghost var resp := container.respond(container.history, rn.call(lab.input));
        SubmitTraceNext(rn, h0, labs, i, calls, echoes, results, resp);
        var res := RunLabCase(lab);
        calls := calls + [rn.call(lab.input)];
        echoes := echoes + [rn.echo(lab.input, Some(lab.key))];
        if res.Err? {
          return Err(res.error), successes;
        }
        var (code, out) := res.value;
        var passed := lab.checkActual(out, code);
        VerdictsAppend(results, Judge(lab, code, out));
        successes := successes + [passed];
        results := results + [CaseResult(lab.key, out, code, passed)];
      }
      assert labs[..|labs|] == labs;
      return Ok(results), successes;
    }

    /** One run of the loop of `submit()`: case `lab` with its key as lab reference and its input as arguments. */
    method RunLabCase(lab: Lab) returns (res: Result<(int, string), Error>)
      requires HasMain(project)
      modifies container, reporter
      ensures container.history == old(container.history) + [RunnerOf().call(lab.input)]
      ensures reporter.events == old(reporter.events) + [RunnerOf().echo(lab.input, Some(lab.key))]
      ensures res == RunOutcome(container.respond(old(container.history), RunnerOf().call(lab.input)))
    {
      assert RunnerOf().call(lab.input) == RunCall(remoteTempd, project.main.value, project.cli, lab.input);
      assert RunnerOf().echo(lab.input, Some(lab.key)) == RunEcho(project.main.value, project.cli, lab.input, Some(lab.key));
      res := Run(Some(lab.key), lab.input);
    }
  }

  lemma VerdictsAppend(results: seq<CaseResult>, last: CaseResult)
    ensures Verdicts(results + [last]) == Verdicts(results) + [last.passed]
  {
  }

  /**
   * `RemoteProject(app, container, task_id, files, spark_mode)`: assembles the
   * project, failing before any request to the container when that fails; then
   * creates the session directory and pushes the project's files into it,
   * failing as soon as one of these two requests raises. `assembled` is the
   * project the uploads give, absent when they hold several mains.
   */
  method OpenRemoteProject(files: seq<Upload>, sparkMode: bool, gprTemplate: string, kit: Toolkit,
                           tmpName: string, container: Container, reporter: Reporter)
    returns (r: Result<RemoteProject, Error>, ghost assembled: Option<Project>)
    modifies container
    ensures |kit.findMains(NewFiles(kit, Sources(files)))| > 1 ==>
      && r == Err(ProjectError(MultipleMainsMessage))
      && assembled == None
      && container.history == old(container.history)
    ensures |kit.findMains(NewFiles(kit, Sources(files)))| <= 1 ==>
      assembled.Some? && AssembledFrom(kit, gprTemplate, files, sparkMode, assembled.value)
    ensures |kit.findMains(NewFiles(kit, Sources(files)))| <= 1 ==>
      var dir := RemoteTempd(tmpName);
      var mkdir := Call.Mkdir(dir);
      var push := PushFiles(assembled.value.fileList, dir);
      var made := container.respond(old(container.history), mkdir);
      var pushed := container.respond(old(container.history) + [mkdir], push);
      && (made.Raised? ==> r == Err(ContainerFailure) && container.history == old(container.history) + [mkdir])
      && (made.Completed? ==> container.history == old(container.history) + [mkdir, push])
      && (made.Completed? && pushed.Raised? ==> r == Err(ContainerFailure))
      && (made.Completed? && pushed.Completed? ==>
            && r.Ok? && fresh(r.value)
            && r.value.project == assembled.value
            && r.value.container == container && r.value.reporter == reporter
            && r.value.remoteTempd == dir)
  {
    var project := Assemble(files, sparkMode, gprTemplate, kit);
    if project.Err? {
      return Err(project.error), None;
    }
    assembled := Some(project.value);
    var remote := new RemoteProject(project.value, tmpName, container, reporter);
    var staged := remote.Stage();
    if staged.Err? {
      return Err(staged.error), assembled;
    }
    return Ok(remote), assembled;
  }
}

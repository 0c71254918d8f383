# Remote Ada project model

This project models the core of the code-widget backend: the project that is
built from the files a learner uploads, and the remote project that is pushed
into an execution container, where it is built with `gprbuild`, run, proved
with `gnatprove` and submitted against lab test cases.

The model has seven modules:

- `Wrappers` holds the `Option` and `Result` types.
- `Text` covers the Python string and path operations the code relies on:
  - `str.split()` with no separator, with Python's whitespace characters;
  - `" ".join`;
  - `s.split('.')[0]`;
  - `posixpath.join` of two components;
  - `str(int)`.
- `Collaborators` holds the interfaces the project code only calls: the upload records, `new_file`, `find_mains`, the project-file editors, `LabList` and one lab case, the container and the progress reporter.
  - `find_mains`, `language()`, the project-file editors and the lab parser are function fields of a `Toolkit` value, about which nothing is assumed.
  - The container is a class whose `history` field records every request, in order.
  - Its answer to each request (a return or an exception) is a fixed but arbitrary function `respond` of the earlier requests and the new one.
  - The reporter is a class whose `events` field records every published event.
- `Pragmas` holds the two configuration-pragma blocks written into `main.adc`.
- `Assembly` models `Project(files, spark_mode)`:
  - the reserved `cli.txt` and `lab_io.txt` uploads;
  - the sources, in upload order;
  - the declared languages, ordered Ada, C, C++;
  - at most one main, whose name is the part before the first `'.'`;
  - the file list: the sources, then the project file, then `main.adc`.
- `Commands` and `Remote` model `RemoteProject`:
  - the session directory `/workspace/sessions/<tmp name>`;
  - `build`, `run`, `prove` and `submit`, each stated as the requests it sends to the container, the events it publishes, and what it returns or raises.

Each exception the source raises is an `Err` value of the `Assembly.Error` type.
The submission loop is specified by the function `Remote.SubmitTrace`. It is
given the container's history and returns three things:

- the requests;
- the console events;
- the judged cases, or none when a run raised.

`RunLabCases` is proved to produce exactly that trace. The `SubmitTrace*` lemmas then prove what the trace means:

- the cases run in order, each with its own input and key;
- every case but the last one reached completed;
- the loop stops exactly at the first run that raised;
- each judged case is judged from its own run's exit code and output.

The code behaves in five ways a reader might not expect; the model follows the code each time:

- **Several mains.** The error is the base `ProjectError("More than one main found in project")`, not a dedicated subclass.
- **No `lab_io.txt`.** `submit` without a `lab_io.txt` upload does not raise `SubmitError`.
  - `lab_list` is only assigned while a `lab_io.txt` upload is read.
  - So the check `not self.lab_list` raises Python's `AttributeError`, modelled as `LabListMissing`.
  - `SubmitError("No lab io sent with project")` is raised only when a parsed `LabList` is falsy.
- **Empty arguments.** An empty argument list passed to `run` falls back to the project's own `cli.txt` arguments. This includes a lab case whose input is empty.
- **Empty main name.** A main whose name starts with `'.'` gives the empty name. `not self.main` treats that as no main, so `run` and `submit` refuse it.
- **No shell escaping.** The run arguments go to `bash -c` inside `` `echo …` `` without any escaping.
  - The model states the literal script.
  - For `cli.txt` arguments, `CliRoundTrip` proves only that Python's split of the joined text gives the words back. What the shell then makes of that text is not modelled.

## Model

| member | source | states |
|---|---|---|
| Text.Split | backend/app/widget/project.py:108 | Python's `str.split()`: the maximal runs of non-whitespace characters, in order (its properties are the lemmas below) |
| Text.JoinSpace | backend/app/widget/project.py:288-291 | Python's `" ".join(ws)` (see `SplitJoin`) |
| Text.SplitTokens | backend/app/widget/project.py:108 | every word `split()` gives is non-empty and holds no whitespace |
| Text.SplitEmpty | backend/app/widget/project.py:108 | `split()` gives no words exactly when the text is all whitespace |
| Text.SplitJoin | backend/app/widget/project.py:288-294 | splitting the space-join of whitespace-free words gives the same words back |
| Text.SplitJoinSplit | backend/app/widget/project.py:108 | joining the words of `split()` with spaces and splitting again gives the same words |
| Text.BeforeFirst | backend/app/widget/project.py:136 | the result is a prefix of the name, holds no `'.'`, and is followed by a `'.'` when shorter than the name |
| Text.PathJoinAppends | backend/app/widget/project.py:36 | joining a relative component appends it after a `/`, or directly after a trailing `/` |
| Text.IntToString | backend/app/widget/project.py:262 | Python's `str(n)` / `f"{n}"` for an integer (see `IntToStringRoundTrip`) |
| Text.NatToStringDigits | backend/app/widget/project.py:262 | `str(n)` of a natural number is a non-empty string of decimal digits whose value is `n` |
| Text.IntToStringRoundTrip | backend/app/widget/project.py:262 | `str(n)` starts with `-` exactly when `n` is negative, is digits otherwise, and reading it back as a decimal integer gives `n` |
| Text.PathJoin | backend/app/widget/project.py:236 | the second component ends the result; an absolute second component replaces the first; otherwise the first is a prefix; an absolute input gives an absolute result |
| Assembly.Sources | backend/app/widget/project.py:106-112 | the uploads kept as sources: those not named `cli.txt` or `lab_io.txt`, in upload order |
| Assembly.SourcesAppend | backend/app/widget/project.py:106-112 | keeping the non-reserved uploads distributes over concatenation, so the sources keep their upload order |
| Assembly.SourcesMembership | backend/app/widget/project.py:106-112 | an upload is a source exactly when it was uploaded and its name is neither `cli.txt` nor `lab_io.txt` |
| Assembly.SourcesNotReserved | backend/app/widget/project.py:106-112 | there are no more sources than uploads, and no source carries a reserved name |
| Assembly.LastContents | backend/app/widget/project.py:106-110 | the contents of the last upload with a given name, absent without one (see `LastContentsSpec`) |
| Assembly.LastContentsSpec | backend/app/widget/project.py:106-110 | a reserved file's value is absent exactly when no upload has its name, and otherwise comes from the last upload of that name |
| Assembly.CliOfSpec | backend/app/widget/project.py:107-108 | `cli` is set exactly when `cli.txt` was uploaded, to the whitespace split of the last such upload |
| Assembly.LabListOfSpec | backend/app/widget/project.py:109-110 | `lab_list` is set exactly when `lab_io.txt` was uploaded, to the parse of the last such upload |
| Assembly.PartitionUploads | backend/app/widget/project.py:106-112 | the loop over the uploads yields exactly the sources, the `cli` and the `lab_list` specified above |
| Assembly.NewFiles | backend/app/widget/project.py:115 | one project file per source upload |
| Assembly.NewFilesKeep | backend/app/widget/project.py:115 | each project file keeps the name and contents of its upload, in order |
| Assembly.SourceFilesNotReserved | backend/app/widget/project.py:105-115 | no project file made from the uploads is called `cli.txt` or `lab_io.txt` |
| Assembly.ProjectLanguages | backend/app/widget/project.py:118-127 | the language list: Ada, C, C++ in that order, each when some file reports it (see `LanguagesSpec`) |
| Assembly.LanguagesSpec | backend/app/widget/project.py:118-128 | a language is declared exactly when it is Ada, C or C++ and some file reports it; the declared list is strictly in the order Ada, C, C++ and has no duplicates |
| Assembly.MakeProjectFile | backend/app/widget/project.py:99-139 | fails with the base `ProjectError` exactly when more than one main is found; otherwise the project file is the template with the languages inserted; with one main, that main's name up to the first `'.'` is defined as the only main; with none, `main` is absent |
| Pragmas.AdcContent | backend/app/widget/project.py:144-146 | the content of `main.adc`: `COMMON_ADC`, with a newline and `SPARK_ADC` appended in SPARK mode |
| Pragmas.AdcContentParts | backend/app/widget/project.py:144-146 | every `main.adc` starts with the restriction block; in SPARK mode exactly a newline and the SPARK block follow, otherwise nothing |
| Assembly.CompleteFileList | backend/app/widget/project.py:141-148 | the file list is the sources, then the project file, then `main.adc`; `main.adc` holds the restriction pragmas, followed by a newline and the SPARK pragmas in SPARK mode; fails exactly as `MakeProjectFile` does |
| Assembly.Assemble | backend/app/widget/project.py:93-148 | `Project(files, spark_mode)`: fails exactly when the sources hold more than one main; otherwise the project has the given SPARK mode, the `cli` and `lab_list` of the reserved uploads, and the file list and project file stated above |
| Commands.EffectiveCli | backend/app/widget/project.py:281-285 | the given arguments when there are any; else the project's own when they are present and non-empty; empty exactly when both are empty |
| Commands.GprbuildLine | backend/app/widget/project.py:255-258 | the six words of the `gprbuild` command for a project-file path |
| Commands.GnatprovePrefix | backend/app/widget/project.py:311-314 | the six fixed words of the `gnatprove` command for a project-file path |
| Commands.RunScript | backend/app/widget/project.py:290-294 | the script handed to `bash -c`: the preloader, the program, and the space-joined arguments inside `` `echo …` `` |
| Commands.RunLine | backend/app/widget/project.py:292-294 | the run command: `sudo -u unprivileged timeout 10s bash -c` and the script |
| Commands.GprbuildLines | backend/app/widget/project.py:255-258 | the echoed and executed build commands have six words and agree on all but the project argument; that argument is the bare project-file name in the echo and a path under the session directory in the command |
| Commands.GnatproveLineShape | backend/app/widget/project.py:311-315 | the prover command is the six fixed words with the project path third, followed by the extra arguments in their order |
| Remote.WorkspaceBaseDerivation | backend/app/widget/project.py:36 | the session base directory is the join of `/`, `workspace` and `sessions`, that is `/workspace/sessions` |
| Remote.RemoteTempdShape | backend/app/widget/project.py:235-236 | a relative temporary-directory name gives `/workspace/sessions/<name>`; an absolute one replaces the base |
| Remote.CliRoundTrip | backend/app/widget/project.py:288-294 | the `cli.txt` arguments survive the space-join into the run script in the sense that Python's split of the joined text gives them back |
| Remote.All | backend/app/widget/project.py:342 | `all(s)` holds exactly when every element holds |
| Remote.Verdicts | backend/app/widget/project.py:336 | one verdict per judged case, in order, each that case's `check_actual` outcome |
| Remote.VerdictIsConjunction | backend/app/widget/project.py:336-342 | the reported overall verdict is true exactly when every judged case passed |
| Remote.VerdictsAppend | backend/app/widget/project.py:336 | judging one more case appends its verdict |
| Remote.HasMain | backend/app/widget/project.py:278 | `not self.main` is false: a main was found and its name is not empty |
| Remote.Judge | backend/app/widget/project.py:335-336 | the record of one case: its key, output and exit code, and `check_actual(out, code)` |
| Remote.RunOutcome | backend/app/widget/project.py:296-297 | a completed run gives back its exit code and output, whatever the code; an exception from the container propagates |
| Remote.BuildOutcome | backend/app/widget/project.py:260-265 | the build succeeds exactly when the command completed with code 0 and then returns 0; a non-zero code fails with `BuildError(code)`; a container exception propagates |
| Remote.BuildFailureEvents | backend/app/widget/project.py:261-262 | after its command, build publishes one failure report exactly on a non-zero exit code, and nothing otherwise |
| Remote.BuildEvents | backend/app/widget/project.py:254-262 | the build echoes its command with the bare project-file name, then reports "Build failed with error code: <code>" exactly when the code is non-zero |
| Remote.SubmitTrace | backend/app/widget/project.py:334-336 | the submission loop from a container history: the requests, console events and judged cases of running the cases in order, ending at the first run that raised, which leaves no judged cases (its properties are the lemmas below) |
| Remote.SubmitTraceLength | backend/app/widget/project.py:334-336 | the loop makes one request and one console event per case it reaches; it reaches a case whenever there is one; when no run raised it reaches every case and judges each one |
| Remote.SubmitTraceCalls | backend/app/widget/project.py:334-335 | the `k`-th request and console event are the run of the `k`-th case, with its input as arguments and its key as lab reference |
| Remote.SubmitTraceCompleted | backend/app/widget/project.py:334-336 | every run before the last one reached completed |
| Remote.SubmitTraceRaised | backend/app/widget/project.py:334-336 | the loop yields no judged cases exactly when its last run raised |
| Remote.SubmitTraceJudged | backend/app/widget/project.py:334-339 | when no run raised, every case completed and its result is its key, output, code and `check_actual` verdict from its own run |
| Remote.SubmitTraceNext | backend/app/widget/project.py:334-336 | one turn of the loop extends the trace by the next case; a raising run ends the whole trace there |
| Remote.SubmitTraceStops | backend/app/widget/project.py:334-336 | once a run raised, the later cases add no request, event or result |
| Remote.RemoteProject.constructor | backend/app/widget/project.py:224-236 | keeps the project, container and reporter; the session directory is `/workspace/sessions` joined with the temporary-directory name; no request is made |
| Remote.RemoteProject.Stage | backend/app/widget/project.py:238-239 | a mkdir of the session directory, then, only if that returned, a push of the project's file list into it; either raising fails with the container's exception |
| Remote.OpenRemoteProject | backend/app/widget/project.py:211-239 | with several mains, fails with the assembly error before any container request; otherwise the project is the one `Project(files, spark_mode)` assembles, and the mkdir and push are made as in `Stage`; it fails with the container's exception as soon as one raises, and otherwise gives a new remote project holding that project and session directory |
| Remote.RemoteProject.Build | backend/app/widget/project.py:248-265 | exactly one request, `gprbuild -q -P <session>/<gpr> -gnatwa -gnata`; the events and the outcome are `BuildEvents` and `BuildOutcome` of the container's answer |
| Remote.RemoteProject.ExecuteBuild | backend/app/widget/project.py:257-260 | exactly one request, the `gprbuild` command on the project file inside the session directory, and its answer |
| Remote.RemoteProject.ReportBuild | backend/app/widget/project.py:261-265 | after the command, publishes the failure report exactly on a non-zero code and gives back `BuildOutcome` |
| Remote.RemoteProject.Run | backend/app/widget/project.py:267-297 | with no main or an empty main name, fails with `RunError` and sends and publishes nothing; otherwise it echoes `./<main>` with the joined effective arguments, tagged with the lab reference; it sends exactly one no-environment request, running the script as `unprivileged` under a 10 s timeout; and it gives back the exit code and output |
| Remote.RemoteProject.Prove | backend/app/widget/project.py:299-318 | a project not in SPARK mode fails with `ProveError` and sends and publishes nothing; otherwise it echoes and sends the `gnatprove` command with the extra arguments appended, and gives back the exit code whatever it is |
| Remote.RemoteProject.Submit | backend/app/widget/project.py:320-342 | refuses, in this order and with nothing sent or published: no main (`SubmitError`), no `lab_io.txt` (`LabListMissing`), a falsy lab list (`SubmitError`); otherwise sends and publishes the trace of the lab cases; when no run raised it adds one lab report carrying the conjunction of the verdicts and the judged cases; a raising run propagates with no report |
| Remote.RemoteProject.RunLabCase | backend/app/widget/project.py:335 | one run of a lab case is the run with its key as lab reference and its input as arguments |
| Remote.RemoteProject.RunLabCases | backend/app/widget/project.py:334-339 | the loop's requests and events are exactly those of `SubmitTrace`; it gives back the judged cases and their verdicts, or the container's exception |

## Left out

- `Project.zip` builds an in-memory archive of the file list. Compression and the archive format are not modelled.
- `RemoteProject.__del__` is not modelled: it removes the local and remote temporary directories, clean-up that happens only when the object is destroyed.
- `tempfile.mkdtemp`:
  - The model does not create a local temporary directory.
  - The basename of that directory is a parameter, `tmpName`.
  - `os.path.normpath` and `basename` are assumed already applied.
- Reading the `main.gpr` template from the static directory is I/O. The template's text is a parameter, `gprTemplate`, and its basename is the constant `main.gpr`.
- `new_file`, `find_mains`, `language()`, `insert_languages` and `define_mains` live in other modules and are not part of this model.
  - `new_file(name, contents)` is assumed to keep the name and contents it is given. `NewFile` records them with the language `Toolkit.language` reports.
  - `find_mains`, `language()` and the two editors are function fields of `Toolkit`, about which nothing is assumed.
- `LabList`:
  - Its parser and the truthiness of a parsed list are not part of this model.
  - Its `loop()` order is not part of this model either.
  - `check_actual` is a function carried by each lab case.
- `get_results()` depends on `LabList` internals. Its value is taken to be the records of the cases judged by the loop: key, output, exit code and verdict.
- Lab input is assumed to be a list of argument strings.
- The container's internals are not modelled: `execute`, `execute_noenv`, `mkdir` and `push_files`.
  - Streaming of output lines to the reporter during `execute` is not modelled, and neither are the `stderr` results of the builds and runs.
  - Any exception raised by any of these four requests is the single response `Raised`, which propagates as `ContainerFailure`.
- `MQReporter`'s message transport, the application and task identifiers, and the logger are left out. Each report is one event appended to a single ordered channel, tagged with the lab reference where the source passes one.
- The meaning of `sudo -u unprivileged`, `timeout 10s` and `LD_PRELOAD=/preloader.so` is not modelled. The model states the exact command words only.
- The shell may reinterpret or execute the joined arguments, since they reach `bash -c` unescaped.
  - `echo` swallows a first word `-n` or `-e`.
  - `*` and `?` glob-expand, and `$x` expands.
  - `;`, `|` and backquotes run other commands.
  - The model does not capture which arguments the program finally receives.
- `IsSpace` covers the whitespace characters Python's `str.split()` splits on. Characters outside the listed ranges are treated as non-whitespace.
- `Remote.RemoteProject.constructor` takes an already assembled project and makes no request. `Remote.OpenRemoteProject` models the whole `RemoteProject.__init__`: the assembly failure before any container request, then the mkdir and push, either of which may raise.

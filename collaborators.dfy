/**
 * The parts of the system the project code only calls: file classification
 * (`new_file`, `find_mains`, the project-file editors), the lab test cases
 * (`LabList`), the execution container and the progress reporter.
 * Their internals are not part of this model; each is reduced to the
 * interface the project code uses.
 */
module Collaborators {
  import opened Wrappers

  /** One uploaded file, as the request hands it over (`basename`, `contents`). */
  datatype Upload = Upload(basename: string, contents: string)

  /** A project file as `new_file` makes it: a name, its content and the language it reports. */
  datatype SourceFile = SourceFile(name: string, contents: string, language: string)

  /**
   * One lab test case: its key, the command-line input it is run with, and
   * `check_actual`, which judges the case from the output and exit code of its run.
   */
  datatype Lab = Lab(key: string, input: seq<string>, checkActual: (string, int) -> bool)

  /** A parsed `lab_io.txt` (`LabList`): its cases in `loop()` order and whether the object is truthy. */
  datatype LabList = LabList(cases: seq<Lab>, truthy: bool)

  /**
   * The classification and editing functions that live outside the project code.
   * `language(name, contents)` is what `new_file(name, contents).language()` reports,
   * `findMains(files)` is what `find_mains(files)` gives: the names of the main files,
   * `insertLanguages` and `defineMains` are the edits the project file undergoes,
   * `parseLabs` is `LabList(contents)`.
   */
  datatype Toolkit = Toolkit(
    language: (string, string) -> string,
    findMains: seq<SourceFile> -> seq<string>,
    insertLanguages: (string, seq<string>) -> string,
    defineMains: (string, seq<string>) -> string,
    parseLabs: string -> LabList)

  /** `new_file(name, contents)`. */
  function NewFile(kit: Toolkit, name: string, contents: string): SourceFile {
    SourceFile(name, contents, kit.language(name, contents))
  }

  /** The requests made of the container, in the order they are made. */
  datatype Call =
    | Mkdir(path: string)
    | PushFiles(files: seq<SourceFile>, dest: string)
    | Execute(line: seq<string>)
    | ExecuteNoEnv(line: seq<string>)

  /**
   * What the container answers a request with: it returned (for a command, with
   * its exit code and output), or it raised an exception.
   */
  datatype Response = Completed(code: int, out: string, err: string) | Raised

  /**
   * The container. What it answers is not known to the project code, so it is a
   * fixed but arbitrary function `respond` of the calls made so far and the new call.
   */
  class Container {
    var history: seq<Call>
    const respond: (seq<Call>, Call) -> Response

    constructor (respond: (seq<Call>, Call) -> Response)
      ensures history == [] && this.respond == respond
    {
      history := [];
      this.respond := respond;
    }

    method Mkdir(path: string) returns (res: Response)
      modifies this
      ensures history == old(history) + [Call.Mkdir(path)]
      ensures res == respond(old(history), Call.Mkdir(path))
    {
      res := respond(history, Call.Mkdir(path));
      history := history + [Call.Mkdir(path)];
    }

    method PushFiles(files: seq<SourceFile>, dest: string) returns (res: Response)
      modifies this
      ensures history == old(history) + [Call.PushFiles(files, dest)]
      ensures res == respond(old(history), Call.PushFiles(files, dest))
    {
      res := respond(history, Call.PushFiles(files, dest));
      history := history + [Call.PushFiles(files, dest)];
    }

    method Execute(line: seq<string>) returns (res: Response)
      modifies this
      ensures history == old(history) + [Call.Execute(line)]
      ensures res == respond(old(history), Call.Execute(line))
    {
      res := respond(history, Call.Execute(line));
      history := history + [Call.Execute(line)];
    }

    method ExecuteNoEnv(line: seq<string>) returns (res: Response)
      modifies this
      ensures history == old(history) + [Call.ExecuteNoEnv(line)]
      ensures res == respond(old(history), Call.ExecuteNoEnv(line))
    {
      res := respond(history, Call.ExecuteNoEnv(line));
      history := history + [Call.ExecuteNoEnv(line)];
    }
  }

  /** The outcome of one lab case as it is recorded for the final report. */
  datatype CaseResult = CaseResult(key: string, out: string, code: int, passed: bool)

  /** What the project code publishes on the task's progress channel. */
  datatype Event =
    | Console(words: seq<string>, labRef: Option<string>)
    | Stderr(message: string, labRef: Option<string>)
    | LabReport(passed: bool, results: seq<CaseResult>)

  /** The progress channel of one task: an append-only log of events. */
  class Reporter {
    var events: seq<Event>

    constructor ()
      ensures events == []
    {
      events := [];
    }

    method Publish(e: Event)
      modifies this
      ensures events == old(events) + [e]
    {
      events := events + [e];
    }
  }
}

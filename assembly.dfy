/**
 * Project assembly: how the uploaded files become a project, that is the
 * ordered file list handed to the build tools, the command-line arguments,
 * the lab test cases and the single main.
 */
module Assembly {
  import opened Wrappers
  import opened Text
  import opened Collaborators
  import opened Pragmas

  /** The two reserved upload names. */
  const CliFile: string := "cli.txt"
  const LabIoFile: string := "lab_io.txt"

  /** The project file's name, the basename of the template it is loaded from. */
  const GprName: string := "main.gpr"
  const AdcName: string := "main.adc"

  /** The languages a project file can declare, in the order they are declared. */
  const KnownLanguages: seq<string> := ["Ada", "c", "c++"]

  const MultipleMainsMessage: string := "More than one main found in project"

  /**
   * The exceptions the project code raises. `ProjectError` is the base class,
   * raised directly for several mains; the next four are its subclasses.
   * `LabListMissing` is the `AttributeError` a submission without lab data
   * runs into, and `ContainerFailure` an exception raised by the container.
   */
  datatype Error =
    | ProjectError(message: string)
    | BuildError(code: int)
    | RunError(message: string)
    | ProveError(message: string)
    | SubmitError(message: string)
    | LabListMissing
    | ContainerFailure

  /**
   * An assembled project. `fileList` ends with the project file `gpr` and the
   * configuration-pragma file; `cli` and `labList` are absent when their
   * reserved file was not uploaded; `main` is absent when no main was found.
   */
  datatype Project = Project(
    fileList: seq<SourceFile>,
    cli: Option<seq<string>>,
    spark: bool,
    gpr: SourceFile,
    labList: Option<LabList>,
    main: Option<string>)

  predicate Reserved(name: string) {
    name == CliFile || name == LabIoFile
  }

  /** The uploads that are ordinary sources, in upload order. */
  function Sources(files: seq<Upload>): seq<Upload> {
    if files == [] then []
    else
      var last := files[|files| - 1];
      Sources(files[..|files| - 1]) + (if Reserved(last.basename) then [] else [last])
  }

  lemma SourcesStep(files: seq<Upload>, i: nat)
    requires i < |files|
    ensures Sources(files[..i + 1])
         == Sources(files[..i]) + (if Reserved(files[i].basename) then [] else [files[i]])
  {
    assert files[..i + 1][..i] == files[..i];
  }

  /** Filtering distributes over concatenation, so sources keep their relative order. */
  lemma {:induction false} SourcesAppend(a: seq<Upload>, b: seq<Upload>)
    ensures Sources(a + b) == Sources(a) + Sources(b)
    decreases |b|
  {
    if b == [] {
      assert a + b == a;
    } else {
      var b' := b[..|b| - 1];
      assert (a + b)[..|a + b| - 1] == a + b';
      SourcesAppend(a, b');
    }
  }

  /** A single upload is kept exactly when it is not reserved. */
  lemma SourcesSingle(u: Upload)
    ensures Sources([u]) == if Reserved(u.basename) then [] else [u]
  {
    assert [u][..0] == [];
  }

  /** An upload is among the sources exactly when it was uploaded and is not reserved. */
  lemma {:induction false} SourcesMembership(files: seq<Upload>, u: Upload)
    ensures u in Sources(files) <==> u in files && !Reserved(u.basename)
    decreases |files|
  {
    if files != [] {
      var init := files[..|files| - 1];
      assert files == init + [files[|files| - 1]];
      SourcesMembership(init, u);
    }
  }

  /** No source carries a reserved name, and every upload is either reserved or a source. */
  lemma {:induction false} SourcesNotReserved(files: seq<Upload>)
    ensures |Sources(files)| <= |files|
    ensures forall i :: 0 <= i < |Sources(files)| ==> !Reserved(Sources(files)[i].basename)
    decreases |files|
  {
    if files != [] {
      SourcesNotReserved(files[..|files| - 1]);
    }
  }

  /** Upload `i` is the last one called `name`. */
  predicate IsLast(files: seq<Upload>, i: int, name: string) {
    0 <= i < |files| && files[i].basename == name
    && forall j :: i < j < |files| ==> files[j].basename != name
  }

  /** The contents of the last upload called `name`, if there is one. */
  function LastContents(files: seq<Upload>, name: string): Option<string> {
    if files == [] then None
    else if files[|files| - 1].basename == name then Some(files[|files| - 1].contents)
    else LastContents(files[..|files| - 1], name)
  }

  /** Reading one more upload: it becomes the last one of its name. */
  lemma LastContentsStep(files: seq<Upload>, i: nat, name: string)
    requires i < |files|
    ensures LastContents(files[..i + 1], name)
         == if files[i].basename == name then Some(files[i].contents) else LastContents(files[..i], name)
  {
    assert files[..i + 1][..i] == files[..i];
  }

  /** There is a last upload called `name` exactly when some upload is called `name`. */
  lemma {:induction false} LastContentsSpec(files: seq<Upload>, name: string)
    ensures LastContents(files, name).None? <==> forall i :: 0 <= i < |files| ==> files[i].basename != name
    ensures LastContents(files, name).Some? ==>
      exists i :: IsLast(files, i, name) && files[i].contents == LastContents(files, name).value
    decreases |files|
  {
    if files != [] {
      var n := |files| - 1;
      if files[n].basename == name {
        assert IsLast(files, n, name);
      } else {
        var init := files[..n];
        LastContentsSpec(init, name);
        assert forall i :: 0 <= i < n ==> init[i] == files[i];
        assert forall i :: IsLast(init, i, name) ==> IsLast(files, i, name);
      }
    }
  }

  /**
   * The project's command-line arguments: the whitespace-split contents of the
   * last `cli.txt` upload, absent when there is none.
   */
  function CliOf(files: seq<Upload>): Option<seq<string>> {
    match LastContents(files, CliFile)
    case None => None
    case Some(c) => Some(Split(c))
  }

  /** `cli` is set exactly when `cli.txt` was uploaded, to the split contents of the last such upload. */
  lemma CliOfSpec(files: seq<Upload>)
    ensures CliOf(files).None? <==> forall i :: 0 <= i < |files| ==> files[i].basename != CliFile
    ensures CliOf(files).Some? ==>
      exists i :: IsLast(files, i, CliFile) && CliOf(files).value == Split(files[i].contents)
  {
    LastContentsSpec(files, CliFile);
  }

  /** The project's lab cases: the parse of the last `lab_io.txt` upload, absent when there is none. */
  function LabListOf(kit: Toolkit, files: seq<Upload>): Option<LabList> {
    match LastContents(files, LabIoFile)
    case None => None
    case Some(c) => Some(kit.parseLabs(c))
  }

  /** `lab_list` is set exactly when `lab_io.txt` was uploaded, from the last such upload. */
  lemma LabListOfSpec(kit: Toolkit, files: seq<Upload>)
    ensures LabListOf(kit, files).None? <==> forall i :: 0 <= i < |files| ==> files[i].basename != LabIoFile
    ensures LabListOf(kit, files).Some? ==>
      exists i :: IsLast(files, i, LabIoFile) && LabListOf(kit, files).value == kit.parseLabs(files[i].contents)
  {
    LastContentsSpec(files, LabIoFile);
  }

  /** The project files made from the source uploads, one per upload, in order. */
  function NewFiles(kit: Toolkit, ups: seq<Upload>): (r: seq<SourceFile>)
    ensures |r| == |ups|
  {
    if ups == [] then [] else [NewFile(kit, ups[0].basename, ups[0].contents)] + NewFiles(kit, ups[1..])
  }

  /** Each project file keeps the name and contents of its upload. */
  lemma {:induction false} NewFilesKeep(kit: Toolkit, ups: seq<Upload>)
    ensures forall i :: 0 <= i < |ups| ==>
      NewFiles(kit, ups)[i].name == ups[i].basename && NewFiles(kit, ups)[i].contents == ups[i].contents
    decreases |ups|
  {
    if ups != [] {
      NewFilesKeep(kit, ups[1..]);
    }
  }

  /** The project files made from the uploads keep their names, so none of them is reserved. */
  lemma SourceFilesNotReserved(kit: Toolkit, files: seq<Upload>)
    ensures forall i :: 0 <= i < |NewFiles(kit, Sources(files))| ==> !Reserved(NewFiles(kit, Sources(files))[i].name)
  {
    SourcesNotReserved(files);
    NewFilesKeep(kit, Sources(files));
  }

  /** The position of a language in the declaration order. */
  function LanguageRank(l: string): nat {
    if l == "Ada" then 0 else if l == "c" then 1 else if l == "c++" then 2 else 3
  }

  predicate Uses(files: seq<SourceFile>, l: string) {
    exists f :: f in files && f.language == l
  }

  /** The languages declared in the project file: Ada, C and C++ in that order, each if some file uses it. */
  function ProjectLanguages(files: seq<SourceFile>): seq<string> {
    (if Uses(files, "Ada") then ["Ada"] else [])
    + (if Uses(files, "c") then ["c"] else [])
    + (if Uses(files, "c++") then ["c++"] else [])
  }

  /**
   * A language is declared exactly when it is a known one and some file reports
   * it; the declared list is strictly in the order Ada, C, C++, hence without duplicates.
   */
  lemma LanguagesSpec(files: seq<SourceFile>)
    ensures forall l :: l in ProjectLanguages(files) <==> l in KnownLanguages && Uses(files, l)
    ensures forall i, j :: 0 <= i < j < |ProjectLanguages(files)| ==>
      LanguageRank(ProjectLanguages(files)[i]) < LanguageRank(ProjectLanguages(files)[j])
    ensures forall i, j :: 0 <= i < j < |ProjectLanguages(files)| ==>
      ProjectLanguages(files)[i] != ProjectLanguages(files)[j]
  {
  }

  /**
   * The loop at the start of `Project(files, spark_mode)`: a `cli.txt` upload
   * sets the arguments, a `lab_io.txt` upload sets the lab cases, a later one
   * replacing an earlier one; every other upload is kept as a source.
   */
  method PartitionUploads(files: seq<Upload>, kit: Toolkit)
    returns (sourceFiles: seq<Upload>, cli: Option<seq<string>>, labList: Option<LabList>)
    ensures sourceFiles == Sources(files)
    ensures cli == CliOf(files)
    ensures labList == LabListOf(kit, files)
  {
    sourceFiles, cli, labList := [], None, None;
    var i := 0;
    while i < |files|
      invariant 0 <= i <= |files|
      invariant sourceFiles == Sources(files[..i])
      invariant cli == CliOf(files[..i])
      invariant labList == LabListOf(kit, files[..i])
    {
      var file := files[i];
      SourcesStep(files, i);
      LastContentsStep(files, i, CliFile);
      LastContentsStep(files, i, LabIoFile);
      if file.basename == CliFile {
        cli := Some(Split(file.contents));
      } else if file.basename == LabIoFile {
        labList := Some(kit.parseLabs(file.contents));
      } else {
        sourceFiles := sourceFiles + [file];
      }
      i := i + 1;
    }
    assert files[..|files|] == files;
  }

  /**
   * `gpr` is the project file made from the template for `files`, and `main`
   * the main it declares: the languages the files use are inserted, and when
   * exactly one main is found its name before the first `'.'` is the main.
   */
  predicate ProjectFileFor(kit: Toolkit, gprTemplate: string, files: seq<SourceFile>, gpr: SourceFile, main: Option<string>) {
    var mains := kit.findMains(files);
    var withLanguages := kit.insertLanguages(gprTemplate, ProjectLanguages(files));
    && |mains| <= 1
    && gpr.name == GprName
    && gpr.language == kit.language(GprName, gprTemplate)
    && (mains == [] ==> main == None && gpr.contents == withLanguages)
    && (|mains| == 1 ==>
          main == Some(BeforeFirst(mains[0], '.'))
          && gpr.contents == kit.defineMains(withLanguages, [main.value]))
  }

  /**
   * The project-file part of `Project(files, spark_mode)`: load the template,
   * insert the languages, find the mains and declare the one main, failing
   * when there are several.
   */
  method MakeProjectFile(kit: Toolkit, gprTemplate: string, fileList: seq<SourceFile>)
    returns (r: Result<(SourceFile, Option<string>), Error>)
    ensures r.Err? <==> |kit.findMains(fileList)| > 1
    ensures r.Err? ==> r.error == ProjectError(MultipleMainsMessage)
    ensures r.Ok? ==> ProjectFileFor(kit, gprTemplate, fileList, r.value.0, r.value.1)
  {
    var gpr := NewFile(kit, GprName, gprTemplate);
    var languages := [];
    if Uses(fileList, "Ada") {
      languages := languages + ["Ada"];
    }
    if Uses(fileList, "c") {
      languages := languages + ["c"];
    }
    if Uses(fileList, "c++") {
      languages := languages + ["c++"];
    }
    assert languages == ProjectLanguages(fileList);
    gpr := gpr.(contents := kit.insertLanguages(gpr.contents, languages));

    var mains := kit.findMains(fileList);
    var main: Option<string>;
    if |mains| > 1 {
      return Err(ProjectError(MultipleMainsMessage));
    } else if |mains| == 1 {
      main := Some(BeforeFirst(mains[0], '.'));
      gpr := gpr.(contents := kit.defineMains(gpr.contents, [main.value]));
    } else {
      main := None;
    }
    r := Ok((gpr, main));
  }

  /**
   * The second half of `Project(files, spark_mode)`: from the project files of
   * the sources, make the project file and the pragma file and append them,
   * failing when more than one main is found.
   */
  method CompleteFileList(kit: Toolkit, gprTemplate: string, sparkMode: bool, sources: seq<SourceFile>)
    returns (r: Result<(seq<SourceFile>, SourceFile, Option<string>), Error>)
    ensures r.Err? <==> |kit.findMains(sources)| > 1
    ensures r.Err? ==> r.error == ProjectError(MultipleMainsMessage)
    ensures r.Ok? ==> r.value.0 == sources + [r.value.1, NewFile(kit, AdcName, AdcContent(sparkMode))]
    ensures r.Ok? ==> ProjectFileFor(kit, gprTemplate, sources, r.value.1, r.value.2)
  {
    var made := MakeProjectFile(kit, gprTemplate, sources);
    if made.Err? {
      return Err(made.error);
    }
    var (gpr, main) := made.value;
    var fileList := sources + [gpr];

    var adcContent := CommonAdc;
    if sparkMode {
      adcContent := adcContent + "\n" + SparkAdc;
    }
    var adc := NewFile(kit, AdcName, adcContent);
    fileList := fileList + [adc];
    assert fileList == sources + [gpr, adc];
    r := Ok((fileList, gpr, main));
  }

  /**
   * `p` is the project `Project(files, spark_mode)` assembles: the reserved
   * uploads set the arguments and the lab cases, and the file list is the
   * sources in upload order, then the project file, then the pragma file.
   */
  ghost predicate AssembledFrom(kit: Toolkit, gprTemplate: string, files: seq<Upload>, sparkMode: bool, p: Project) {
    && p.spark == sparkMode
    && p.cli == CliOf(files)
    && p.labList == LabListOf(kit, files)
    && p.fileList == NewFiles(kit, Sources(files)) + [p.gpr, NewFile(kit, AdcName, AdcContent(sparkMode))]
    && ProjectFileFor(kit, gprTemplate, NewFiles(kit, Sources(files)), p.gpr, p.main)
  }

  /**
   * `Project(files, spark_mode)`: splits off the reserved uploads, makes the
   * project file and the pragma file, and fails when more than one main is found.
   */
  method Assemble(files: seq<Upload>, sparkMode: bool, gprTemplate: string, kit: Toolkit)
    returns (r: Result<Project, Error>)
    ensures r.Err? <==> |kit.findMains(NewFiles(kit, Sources(files)))| > 1
    ensures r.Err? ==> r.error == ProjectError(MultipleMainsMessage)
    ensures r.Ok? ==> AssembledFrom(kit, gprTemplate, files, sparkMode, r.value)
  {
    var sourceFiles, cli, labList := PartitionUploads(files, kit);
    var completed := CompleteFileList(kit, gprTemplate, sparkMode, NewFiles(kit, sourceFiles));
    if completed.Err? {
      return Err(completed.error);
    }
    var (fileList, gpr, main) := completed.value;
    r := Ok(Project(fileList, cli, sparkMode, gpr, labList, main));
  }
}

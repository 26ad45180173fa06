/** The decision logic of Build in internal/builder/builder.go: compiler
    resolution, the compiler's arguments, and what follows from the
    classified output and the process result.  The compiler itself is an
    input: its captured output and whether running it returned an error. */
module Builder {
  import opened Basics
  import opened Paths
  import opened Text
  import opened Classifier
  import opened Workspace
  import opened Staging

  /** filepath.Join(".", "build") after cleaning. */
  const BuildDir: string := "build"

  /** The platform-specific compiler file name. */
  function CompilerName(os: OS): string
  {
    if os == Windows then "pawncc.exe" else "pawncc"
  }

  /** The compiler executable Build runs: the configured directory's compiler
      when it exists there, otherwise the bare name looked up on PATH. */
  function ResolveCompiler(pawnccPath: string, os: OS, paths: set<string>): (exe: string)
    ensures pawnccPath == "" ==> exe == CompilerName(os)
    ensures pawnccPath != "" && Join(pawnccPath, CompilerName(os)) in paths ==> exe == Join(pawnccPath, CompilerName(os))
    ensures pawnccPath != "" && Join(pawnccPath, CompilerName(os)) !in paths ==> exe == CompilerName(os)
  {
    var candidate := if pawnccPath != "" then Join(pawnccPath, CompilerName(os)) else CompilerName(os);
    if candidate !in paths && pawnccPath != "" then CompilerName(os) else candidate
  }

  datatype Invocation = Invocation(exe: string, args: seq<string>)

  /** The compiler command line: the output flag, then the main file. */
  function CompilerInvocation(cfg: ProjectConfig, os: OS, paths: set<string>): Invocation
  {
    Invocation(ResolveCompiler(cfg.pawnccPath, os, paths), ["-o" + CompilerTarget(cfg), cfg.mainFile])
  }

  /** What running the compiler gave: captured streams, and whether cmd.Run
      returned an error (launch failure or non-zero exit). */
  datatype CompilerRun = CompilerRun(stdout: string, stderr: string, failed: bool)

  datatype SummaryKind = FailedWithErrors | CompletedWithWarnings | CompletedCleanly

  /** The console summary: which headline is printed, the counts in it, and
      the entries listed under it. */
  datatype Summary = Summary(
    kind: SummaryKind,
    errorCount: nat,
    warningCount: nat,
    listedErrors: seq<string>,
    listedWarnings: seq<string>)

  /** The summary branch Build prints.  Detailed lists appear only when not
      verbose, since in verbose mode the output was already streamed. */
  function Summarize(result: BuildResult, verbose: bool): (s: Summary)
    ensures s.kind == FailedWithErrors <==> result.errors != []
    ensures s.kind == CompletedCleanly <==> result.errors == [] && result.warnings == []
    ensures s.errorCount == |result.errors| && s.warningCount == |result.warnings|
    ensures verbose ==> s.listedErrors == [] && s.listedWarnings == []
    ensures !verbose ==> s.listedErrors == result.errors && s.listedWarnings == result.warnings
  {
    if |result.errors| > 0 then
      Summary(FailedWithErrors, |result.errors|, |result.warnings|,
        if verbose then [] else result.errors,
        if verbose || |result.warnings| == 0 then [] else result.warnings)
    else if |result.warnings| > 0 then
      Summary(CompletedWithWarnings, 0, |result.warnings|, [], if verbose then [] else result.warnings)
    else
      Summary(CompletedCleanly, 0, 0, [], [])
  }

  datatype BuildOutcome =
    | NotAProject
    | ProjectConfigFailed(cause: ConfigError)
    | ServerConfigFailed(cause: ConfigError)
    | CompilationFailed(errorCount: nat)
    | ProcessFailed
    | StagingFailed(stage: StageOutcome)
    | Built(copied: seq<CopyOp>)
  {
    /** Whether CopyRequiredFiles was called. */
    predicate ReachedStaging()
    {
      StagingFailed? || Built?
    }
  }

  /** What Build did: the compiler command it ran, the summary it printed and its result. */
  datatype BuildReport = BuildReport(invocation: Option<Invocation>, summary: Option<Summary>, outcome: BuildOutcome)

  /** Where the compiler writes the compiled gamemode. */
  function CompilerTarget(cfg: ProjectConfig): string
  {
    Join(BuildDir, cfg.outputFile)
  }

  /** A project without project.json compiles to build/gamemodes/<name>.amx,
      the file named after its inferred main script. */
  lemma InferredProjectTarget(s: Snapshot)
    requires ProjectFile !in s.paths
    ensures var cfg := GetProjectConfig(s).value;
      CompilerTarget(cfg) == Join(BuildDir, Join(GamemodesDir, cfg.name + ".amx"))
      && Base(cfg.mainFile) == cfg.name + ".pwn"
  {
  }

  /** The working directory as staging sees it: the build, build/gamemodes and
      output directories Build created are present, and so is the compiled
      gamemode of a compiler run that succeeded. */
  function AfterCompile(s: Snapshot, cfg: ProjectConfig): Snapshot
  {
    var target := CompilerTarget(cfg);
    s.(paths := s.paths + {BuildDir, Join(BuildDir, GamemodesDir), Dir(target), target})
  }

  /** What Build adds to the working directory changes nothing configuration
      resolution looks at. */
  lemma CompileKeepsConfiguration(s: Snapshot, cfg: ProjectConfig)
    ensures GetProjectConfig(AfterCompile(s, cfg)) == GetProjectConfig(s)
  {
    DirUnderRoot(BuildDir, cfg.outputFile);
    var target := CompilerTarget(cfg);
    var d := Dir(target);
    assert d != ProjectFile && d != GamemodesDir by {
      if d != "." {
        assert d[..|BuildDir|] == BuildDir;
        assert d[0] == BuildDir[0] == 'b';
        assert ProjectFile[0] == 'p' && GamemodesDir[0] == 'g';
      }
    }
    assert target != ProjectFile && target != GamemodesDir by {
      assert target[0] == 'b';
      assert ProjectFile[0] == 'p' && GamemodesDir[0] == 'g';
    }
    var g := Join(BuildDir, GamemodesDir);
    assert |g| == 15;
    var t := AfterCompile(s, cfg);
    assert t.paths == s.paths + {BuildDir, g, d, target};
    ProjectResolutionInputs(s, t);
  }

  /** The staging step of a build whose compilation succeeded: it completes
      exactly when no planned copy fails, and otherwise stops at the first
      failing copy with every copy before it made. */
  function StageBuild(s: Snapshot, cfg: ProjectConfig, failing: set<CopyOp>): (outcome: BuildOutcome)
    requires GetProjectConfig(s) == Ok(cfg)
    ensures outcome.ReachedStaging()
    ensures var plan := CopyPlan(cfg, AfterCompile(s, cfg).paths, BuildDir);
      outcome.Built? <==> forall i :: 0 <= i < |plan| ==> plan[i] !in failing
    ensures outcome.Built? ==> outcome.copied == CopyPlan(cfg, AfterCompile(s, cfg).paths, BuildDir)
    ensures var plan := CopyPlan(cfg, AfterCompile(s, cfg).paths, BuildDir);
      outcome.StagingFailed? ==>
        && outcome.stage.CopyFailed? && outcome.stage.failed in failing
        && |outcome.stage.copied| < |plan|
        && outcome.stage.copied + [outcome.stage.failed] == plan[..|outcome.stage.copied| + 1]
  {
    CompileKeepsConfiguration(s, cfg);
    StagingFollowsPlan(AfterCompile(s, cfg), cfg, BuildDir, failing);
    match CopyRequiredFiles(AfterCompile(s, cfg), BuildDir, failing)
    case Staged(copied) => Built(copied)
    case other => StagingFailed(other)
  }

  /** Build, from the project check to staging. */
  function Build(s: Snapshot, verbose: bool, run: CompilerRun, failing: set<CopyOp>): (r: BuildReport)
    ensures r.invocation.Some? <==>
      IsOpenMPProject(s) && GetProjectConfig(s).Ok? && GetServerConfig(s).Ok?
    ensures r.invocation.Some? ==>
      && r.invocation.value == CompilerInvocation(GetProjectConfig(s).value, s.os, s.paths)
      && r.summary == Some(Summarize(ParseBuildOutput(run.stdout, run.stderr), verbose))
    ensures r.invocation.None? ==> r.summary.None?
    ensures r.outcome.NotAProject? <==> !IsOpenMPProject(s)
    ensures r.outcome.ProjectConfigFailed? <==> IsOpenMPProject(s) && GetProjectConfig(s).Err?
    ensures r.outcome.ProjectConfigFailed? ==> r.outcome.cause == GetProjectConfig(s).error
    ensures r.outcome.ServerConfigFailed? <==>
      IsOpenMPProject(s) && GetProjectConfig(s).Ok? && GetServerConfig(s).Err?
    ensures r.outcome.ServerConfigFailed? ==> r.outcome.cause == GetServerConfig(s).error
  {
    if !IsOpenMPProject(s) then BuildReport(None, None, NotAProject)
    else
      match GetProjectConfig(s)
      case Err(e) => BuildReport(None, None, ProjectConfigFailed(e))
      case Ok(cfg) =>
        match GetServerConfig(s)
        case Err(e) => BuildReport(None, None, ServerConfigFailed(e))
        case Ok(_) =>
          var invocation := CompilerInvocation(cfg, s.os, s.paths);
          var result := ParseBuildOutput(run.stdout, run.stderr);
          var summary := Summarize(result, verbose);
          var outcome :=
            if |result.errors| > 0 then CompilationFailed(|result.errors|)
            else if run.failed then ProcessFailed
            else StageBuild(s, cfg, failing);
          BuildReport(Some(invocation), Some(summary), outcome)
  }

  /** How Build ends once the project and both configurations resolve: the
      compiler's errors stop it first, then a failed process, and only a
      clean run reaches staging, whose copies follow the copy plan. */
  lemma BuildDecision(s: Snapshot, verbose: bool, run: CompilerRun, failing: set<CopyOp>)
    ensures var r := Build(s, verbose, run, failing);
      var result := ParseBuildOutput(run.stdout, run.stderr);
      && (r.outcome.CompilationFailed? <==> r.invocation.Some? && !result.success)
      && (r.outcome.CompilationFailed? ==> r.outcome.errorCount == |result.errors|)
      && (r.outcome.ProcessFailed? <==> r.invocation.Some? && result.success && run.failed)
      && (r.outcome.ReachedStaging() <==> r.invocation.Some? && result.success && !run.failed)
  {
  }

  /** A build that reaches staging copies along the plan for the directory
      the compiler left behind: it is Built exactly when no planned copy
      fails, and a failed staging stops at the plan's first failing copy. */
  lemma BuildStagesAlongPlan(s: Snapshot, verbose: bool, run: CompilerRun, failing: set<CopyOp>)
    requires IsOpenMPProject(s) && GetProjectConfig(s).Ok? && GetServerConfig(s).Ok?
    requires ParseBuildOutput(run.stdout, run.stderr).success && !run.failed
    ensures var r := Build(s, verbose, run, failing);
      var cfg := GetProjectConfig(s).value;
      var plan := CopyPlan(cfg, AfterCompile(s, cfg).paths, BuildDir);
      && (r.outcome.Built? <==> forall i :: 0 <= i < |plan| ==> plan[i] !in failing)
      && (r.outcome.Built? ==> r.outcome.copied == plan)
      && (r.outcome.StagingFailed? ==>
            && r.outcome.stage.CopyFailed? && r.outcome.stage.failed in failing
            && r.outcome.stage.copied + [r.outcome.stage.failed] == plan[..|r.outcome.stage.copied| + 1])
  {
  }

  /** A compiler whose only output is one error line on standard output,
      newline-terminated or not, such as the report of an undefined symbol,
      fails the build with exactly one error and no warnings, whatever its
      exit status, and nothing is staged. */
  lemma OneErrorLineFailsBuild(s: Snapshot, verbose: bool, failing: set<CopyOp>, line: string, stdout: string, failed: bool)
    requires IsOpenMPProject(s) && GetProjectConfig(s).Ok? && GetServerConfig(s).Ok?
    requires '\n' !in line && KindOf(DropCR(line)) == ErrorLine
    requires stdout == line || stdout == line + "\n"
    ensures var r := Build(s, verbose, CompilerRun(stdout, "", failed), failing);
      && r.outcome == CompilationFailed(1)
      && r.summary.Some? && r.summary.value.kind == FailedWithErrors
      && r.summary.value.errorCount == 1 && r.summary.value.warningCount == 0
      && !r.outcome.ReachedStaging()
  {
    OneErrorLineOutput(line, stdout);
  }

  /** A compiler that prints nothing and succeeds builds cleanly, and when
      no copy fails every planned copy is made, config.json first when it
      exists. */
  lemma SilentCompilerStagesEverything(s: Snapshot, verbose: bool)
    requires IsOpenMPProject(s) && GetProjectConfig(s).Ok? && GetServerConfig(s).Ok?
    ensures var r := Build(s, verbose, CompilerRun("", "", false), {});
      && r.summary.Some? && r.summary.value.kind == CompletedCleanly
      && r.outcome.Built?
      && r.outcome.copied == CopyPlan(GetProjectConfig(s).value, AfterCompile(s, GetProjectConfig(s).value).paths, BuildDir)
      && (ServerFile in s.paths ==>
            |r.outcome.copied| > 0 && r.outcome.copied[0] == CopyOp(ServerConfigCopy, ServerFile, Join(BuildDir, ServerFile)))
  {
    EmptyOutputSucceeds();
    var cfg := GetProjectConfig(s).value;
    var paths := AfterCompile(s, cfg).paths;
    var r := Build(s, verbose, CompilerRun("", "", false), {});
    assert r.outcome.Built?;
    if ServerFile in s.paths {
      var op := CopyOp(ServerConfigCopy, ServerFile, Join(BuildDir, ServerFile));
      assert ConfigCopies(cfg, paths, BuildDir) == [op];
      assert CopyPlan(cfg, paths, BuildDir)[0] == op;
    }
  }
}

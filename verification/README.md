# omp-cli core in Dafny

A model of the decision logic of `ompcli`, the command-line tool that
initialises, builds and runs open.mp (Pawn) server projects. The model covers:

- **Project detection and configuration resolution.** This is
  `IsOpenMPProject`, `GetProjectConfig` and `GetServerConfig`. project.json
  is used verbatim when it is present. Otherwise the configuration is
  inferred from the first `.pwn` script, or falls back to built-in defaults.
- **The compiler-output classifier** (`parseBuildOutput`). The text
  `stdout + "\n" + stderr` is split into lines the way `bufio.ScanLines`
  splits it. Each line is matched against the case-insensitive error
  pattern, then against the warning pattern. The whitespace-trimmed line is
  stored under the first pattern that matches.
- **The decisions of `Build`.** These cover:
  - which compiler executable runs;
  - its argument list;
  - the summary printed after compiling;
  - the choice between "compilation failed", "process failed" and staging.
- **The staging step** (`CopyRequiredFiles`). It is a plan of copy operations:
  the server configuration first, then the resources, then the plugins.
  Execution aborts at the first copy that fails.
- **The pre-launch logic of `Run`.** This is the order of the precondition
  checks, the server executable for each OS, the server's arguments and the
  port it reports.
- **The `init` command.** This covers the name and compiler-path
  defaulting, the two descriptor templates, and the guards that refuse to
  overwrite an existing descriptor.

The working directory is an immutable `Workspace.Snapshot`. It holds:

- the target OS;
- the set of paths that `os.Stat` does not report as missing;
- the sorted glob results for `gamemodes/*.pwn` and `*.pwn`;
- what reading and decoding each descriptor yields.

What the compiler produced is an input (`Builder.CompilerRun`): its captured
streams, and whether `cmd.Run` returned an error. So are the copies that
fail during staging, and the writes that fail during `init`.

Modules:

- `Basics`: `Option` and `Result`.
- `Paths`: slash-separated `filepath.Join`, `Base` and `Dir`.
- `Text`: `strings.TrimSpace` over Unicode white space. Case-insensitive
  substring matching with Go's simple case folding of letters, which
  includes U+017F for `s` and U+212A for `k`. `bufio.ScanLines`.
  `strconv.Itoa` and its inverse.
- `Classifier`: `parseBuildOutput`. Its scanning loop is stated for any line
  test and any entry text; `parseBuildOutput` uses the two patterns and
  `strings.TrimSpace`.
- `Workspace`: detection and configuration resolution.
- `Staging`: `CopyRequiredFiles`.
- `Builder`: `Build`.
- `Runner`: `Run`.
- `Scaffold`: `init`.

## Model

| member | source | states |
|---|---|---|
| Paths.BaseOfJoin | pkg/utils/utils.go:101-104 | A non-empty, separator-free name joined under any directory has that name as its base, so a script's base name is its file name. |
| Paths.DirUnderRoot | internal/builder/builder.go:100-101 | The directory of `build/<output file>` is "." or starts with "build". So the output directory Build creates never coincides with project.json or gamemodes. |
| Paths.BaseShape | pkg/utils/utils.go:101-102 | The base of any path is non-empty. For a path that contains a separator but does not end in one, the base is a proper suffix of the path. |
| Paths.BaseKeepsSuffix | pkg/utils/utils.go:101-102 | The base of a path ending in a separator-free suffix such as ".pwn" ends in that suffix too. So removing the last four characters of the base of a glob match is always in range. |
| Text.TrimSpace | internal/builder/builder.go:199-202 | The trimmed line is no longer than the line and neither begins nor ends with white space. It is empty exactly when the line is all white space. |
| Text.TrimSpaceIsSlice | internal/builder/builder.go:199-202 | The trimmed line is the slice of the line between a white-space prefix and a white-space suffix. Both cut points are maximal: a non-empty slice starts and ends with a character that is not white space. |
| Text.TrimSpaceIdempotent | internal/builder/builder.go:199-202 | Trimming a trimmed line changes nothing. |
| Text.ContainsFoldedIff | internal/builder/builder.go:189-190 | The left-to-right scan of an unanchored case-insensitive pattern succeeds exactly when some position of the line matches the token letter by letter under case folding. |
| Text.TrimKeepsOccurrences | internal/builder/builder.go:198-202 | A token that starts and ends with a letter occurs in the trimmed line exactly when it occurs in the line. |
| Text.SegmentsRoundTrip | internal/builder/builder.go:193-195 | Splitting at newlines loses nothing: rejoining the pieces with newlines gives the text back. |
| Text.SegmentsConcat | internal/builder/builder.go:186-195 | Splitting two texts glued by a newline gives the pieces of the first followed by the pieces of the second. |
| Text.SegmentsOfLine | internal/builder/builder.go:193-195 | A text without a newline is a single piece. |
| Text.TerminatedLineScan | internal/builder/builder.go:186-195 | A newline-free line followed by the newline that ends it and the separating newline scans as the line (without a trailing carriage return) and one empty line. |
| Text.ScanLinesConcat | internal/builder/builder.go:186-195 | The scanned lines of `stdout + "\n" + stderr` are every piece of stdout without its trailing carriage return, followed by the scanned lines of stderr. |
| Text.DigitsRoundTrip | internal/runner/runner.go:72-73 | The decimal digits of a natural number read back as that number. |
| Text.DecimalRoundTrip | internal/runner/runner.go:72-73 | Parsing the decimal rendering of any integer, negative ones included, gives the integer back. |
| Classifier.TrimKeepsKind | internal/builder/builder.go:198-202 | A stored, trimmed entry is classified exactly like the line it came from. |
| Classifier.ClassifyShape | internal/builder/builder.go:179-206 | For any line test and any entry text, success holds exactly when no error entry was stored. Together there are at most as many entries as lines. |
| Classifier.ParseBuildOutput | internal/builder/builder.go:178-207 | Success holds exactly when the combined output produced no error entry. |
| Classifier.KindsPartitionLines | internal/builder/builder.go:197-203 | Every line is exactly one of error, warning or ignored: the three counts sum to the number of lines. |
| Classifier.ClassifyCounts | internal/builder/builder.go:197-204 | There are as many error entries as error lines and as many warning entries as warning lines. |
| Classifier.ErrorsConcat | internal/builder/builder.go:194-200 | Classifying two runs of lines in sequence gives the error entries of the first run followed by those of the second, in encounter order. |
| Classifier.WarningsConcat | internal/builder/builder.go:194-203 | Classifying two runs of lines in sequence gives the warning entries of the first run followed by those of the second, in encounter order. |
| Classifier.ErrorEntries | internal/builder/builder.go:198-200 | A string is an error entry if and only if it is the entry text (for parseBuildOutput, the trimmed text) of some line the line test calls an error line. |
| Classifier.WarningEntries | internal/builder/builder.go:201-203 | A string is a warning entry if and only if it is the entry text of some line the line test calls a warning line, that is, one matching a warning token and no error token. |
| Classifier.EntriesKeepTheirKind | internal/builder/builder.go:198-203 | Every error entry is itself an error line and every warning entry a warning line. So no entry is stored as both. |
| Classifier.NoTokensNoEntries | internal/builder/builder.go:179-206 | Output in which no line carries a token gives no entries and success. |
| Classifier.StdoutBeforeStderr | internal/builder/builder.go:186-203 | In each sequence, the entries from standard output come before the entries from standard error. |
| Classifier.FatalErrorIsRedundant | internal/builder/builder.go:189 | The error pattern matches the same lines with or without its "fatal error" alternative. |
| Classifier.SingleLineOutput | internal/builder/builder.go:186-195 | One line on standard output and nothing on standard error is classified as that single line. |
| Classifier.ShoutedFatalErrorIsError | internal/builder/builder.go:189-198 | Matching ignores case: "FATAL ERROR: syntax" is an error line. |
| Classifier.ContainsAnyIff | internal/builder/builder.go:189-190 | A pattern of alternatives matches a line exactly when one of its tokens occurs in the line. |
| Classifier.NoErrorLetters | internal/builder/builder.go:189-203 | A line with no o, f or c in either case never matches the error pattern, because every error token has one of those letters. Such a line is a warning line exactly when it matches the warning pattern. |
| Classifier.UnusedVariableIsWarning | internal/builder/builder.go:189-203 | The compiler line `Warning: unused variable` is a warning line, not an error line. |
| Classifier.ErrorMentioningWarningIsOneError | internal/builder/builder.go:198-203 | A line that carries both an error and a warning token is stored once, as an error. |
| Classifier.TrailingEmptyLineIgnored | internal/builder/builder.go:197-203 | An empty last line adds no entry and does not change success. |
| Classifier.TerminatedLineOutput | internal/builder/builder.go:178-207 | Ending the only line of standard output with a newline does not change the classification. |
| Classifier.OneErrorLineOutput | internal/builder/builder.go:178-207 | Output whose only line, with or without a terminating newline, contains an error token gives exactly one error, no warnings and failure. |
| Classifier.UndefinedSymbolReport | internal/builder/builder.go:178-207 | The compiler line `1 Error found: undefined symbol "x"` gives exactly one error, no warnings and failure. |
| Classifier.EmptyOutputSucceeds | internal/builder/builder.go:179-206 | Empty output gives no entries and success. |
| Workspace.DetectionIsDisjunction | pkg/utils/utils.go:39-65 | A directory is a project exactly when any of these holds: project.json exists, config.json exists, gamemodes exists with a script in it, or a top-level script exists. |
| Workspace.DetectionIsMonotone | pkg/utils/utils.go:39-65 | An empty directory is not a project. Adding paths or scripts never turns a project into a non-project. |
| Workspace.DefaultIsNamedAfterMainFile | pkg/utils/utils.go:85-94 | The defaults already have the inferred shape: main file gamemode.pwn, output file gamemodes/gamemode.amx. |
| Workspace.ScriptStem | pkg/utils/utils.go:101-102 | The stem with ".pwn" appended is the base name of the script. |
| Workspace.ProjectFromScript | pkg/utils/utils.go:100-104 | The main file is the script. The name is its base name without ".pwn". The output file is gamemodes/name.amx. |
| Workspace.InferProjectConfig | pkg/utils/utils.go:96-116 | Whichever branch is taken, the inferred configuration's output file is gamemodes/name.amx, and its main file's base name is name.pwn. |
| Workspace.ReadDescriptor | pkg/utils/utils.go:70-81 | A present descriptor gives its decoded contents unchanged. Otherwise it gives a read or parse error naming the file. |
| Workspace.GetProjectConfig | pkg/utils/utils.go:68-119 | With project.json present, its contents are returned without any defaults merged in. Without it the result always succeeds: named after its main file, version 1.0.0, no resources or plugins, config.json as server file, qawno as compiler directory. |
| Workspace.GetServerConfig | pkg/utils/utils.go:122-148 | With config.json present, its contents are returned. Without it the result is the built-in default: host name "Open.MP Server", port 7777, 50 players, English, gamemode "gamemode", no plugins, web URL open.mp, and empty RCON and join passwords. |
| Workspace.InferenceFallback | pkg/utils/utils.go:96-116 | The fallback chain: the first gamemodes script when there is one, else (only without a gamemodes directory) the first top-level script, else the defaults. |
| Workspace.NonProjectResolvesToDefaults | pkg/utils/utils.go:39-148 | In a directory that is not a project, both configurations resolve to the built-in defaults. |
| Workspace.RootScriptDetectedButIgnored | pkg/utils/utils.go:50-116 | With an empty gamemodes directory, a top-level script makes the directory a project, yet inference ignores that script and keeps the defaults. |
| Workspace.InferredScriptMeansProject | pkg/utils/utils.go:50-116 | Whenever inference picks a script, detection also reports a project. |
| Workspace.ProjectResolutionInputs | pkg/utils/utils.go:68-119 | Project resolution depends only on project.json, the presence of gamemodes and the two glob results, so resolving twice over the same directory gives the same result. |
| Staging.ServerConfigSource | pkg/utils/utils.go:158-168 | config.json is copied when it exists. Otherwise the configured server file is copied when it exists. Otherwise nothing is copied. The source always exists. |
| Staging.ItemCopiesShape | pkg/utils/utils.go:176-199 | No more copies than items. Every copy has the requested kind and a source that exists. |
| Staging.ItemCopiesContents | pkg/utils/utils.go:177-199 | An operation is planned if and only if its source is a listed item that exists and its destination is that item's base name in the target directory. |
| Staging.ItemCopiesConcat | pkg/utils/utils.go:177-184 | Items are handled in declared order: the copies of a concatenation are the copies of its parts, in order. |
| Staging.ConfigCopies | pkg/utils/utils.go:158-168 | At most one configuration copy is planned. Its destination is build/config.json and it exists exactly when a server configuration source exists. |
| Staging.CopyPlanOrder | pkg/utils/utils.go:158-199 | The plan copies the server configuration first, then resources, then plugins, and only sources that exist. |
| Staging.CopyPlanContents | pkg/utils/utils.go:158-199 | An operation is in the plan if and only if it is one of these: the server-configuration copy, a copy of an existing resource into the build directory, or a copy of an existing plugin into build/plugins. |
| Staging.Execute | pkg/utils/utils.go:160-197 | All copies succeed exactly when no planned copy fails. Otherwise the copies made are the plan's prefix before the first failing copy, and nothing after it is attempted. |
| Staging.CopyRequiredFiles | pkg/utils/utils.go:151-202 | Staging is unavailable exactly when the project configuration cannot be resolved. A completed staging copied only existing sources, none of them failing. A failed copy had an existing source. |
| Staging.StagingFollowsPlan | pkg/utils/utils.go:151-202 | With the configuration resolved, staging completes exactly when no planned copy fails, and then it made exactly the planned copies. A failed staging made the plan's copies up to the first failing one, which is the copy reported. |
| Builder.ResolveCompiler | internal/builder/builder.go:67-97 | Without a compiler directory, the bare compiler name is used. With one, the compiler in that directory is used if it exists, else the bare name. |
| Builder.InferredProjectTarget | internal/builder/builder.go:99-109 | Without project.json, the compiler writes build/gamemodes/<name>.amx, where name.pwn is the base name of the main script. |
| Builder.Summarize | internal/builder/builder.go:131-163 | The headline reports failure exactly when there are errors, and a clean build exactly when there are neither errors nor warnings. The counts are those of the result. The entries are listed only when not verbose. |
| Builder.CompileKeepsConfiguration | internal/builder/builder.go:55-126 | Creating build, build/gamemodes and the output directory, and the compiled gamemode itself, do not change what GetProjectConfig resolves to during staging. |
| Builder.StageBuild | internal/builder/builder.go:169-172 | Staging always takes place, over the directory the compiler left behind. It completes exactly when no planned copy fails, and then it made exactly the planned copies. A staging failure is a failing copy: the copies made are the plan's prefix before it. |
| Builder.Build | internal/builder/builder.go:27-131 | The precondition failures are reported exactly when they occur, in order: not a project, project configuration (with its cause), server configuration (with its cause). The compiler runs exactly when all three pass, with the resolved command line, and only then is a summary of the classified output printed. |
| Builder.BuildDecision | internal/builder/builder.go:126-172 | Errors give a compilation failure with their count and no staging. Otherwise a process error fails the build without staging. Only an error-free run whose process succeeded stages. |
| Builder.BuildStagesAlongPlan | internal/builder/builder.go:165-172 | A build that reaches staging is Built exactly when no planned copy fails, with exactly the planned copies. A staging failure stops at the plan's first failing copy. |
| Builder.OneErrorLineFailsBuild | internal/builder/builder.go:126-150 | A compiler whose only output is one error line, newline-terminated or not, such as an undefined-symbol report, fails the build with one error and no warnings, whatever its exit status, and nothing is staged. |
| Builder.SilentCompilerStagesEverything | internal/builder/builder.go:126-174 | A silent, successful compiler builds cleanly. When no copy fails, the whole plan is copied, with config.json first when it exists. |
| Runner.ServerExecutable | internal/runner/runner.go:40-49 | Only Windows, Linux and Darwin have a server executable. It is omp-server.exe on Windows and omp-server on Linux and Darwin. |
| Runner.ServerArgs | internal/runner/runner.go:63-83 | One argument per enabled flag: debug, port override, missing gamemode. |
| Runner.FlagRanks | internal/runner/runner.go:64-83 | The debug flag, any port flag and any gamemode flag are told apart by their text: they rank 0, 1 and 2. |
| Runner.ServerArgsOrder | internal/runner/runner.go:64-83 | Arguments appear in strictly increasing rank, debug before port before gamemode, so each kind of flag appears at most once. |
| Runner.ServerArgsContents | internal/runner/runner.go:64-83 | "--debug" is present exactly when debugging, and is then first. The port flag is present exactly when the port is overridden. The gamemode flag is present exactly when the server configuration names no gamemode. |
| Runner.PortFlagCarriesEffectivePort | internal/runner/runner.go:71-76 | A port argument is present exactly when the port is overridden, and its digits parse back to the port Run reports. Without an override the reported port is the configured one. |
| Runner.Run | internal/runner/runner.go:16-89 | The precondition errors come in this order, each reported exactly when every earlier check passed and its own check fails: not a project, not built, project configuration, server configuration, unsupported OS, missing server executable, missing compiled gamemode. Each error carries what the source reports: the configuration error as cause, the OS, or the path tried (build/<server>, build/<output file>). The server launches exactly when every check passes. A launch records the command path build/<server> given to exec.Command, the working directory build, the derived arguments, the reported port and the gamemode name. |
| Runner.LaunchStartsUncheckedPath | internal/runner/runner.go:52-89 | The command path build/<server> is relative and the working directory is build, so the program started is build/build/<server>. That is not the executable whose existence Run checked. |
| Runner.LinuxLaunchAsWritten | internal/runner/runner.go:45-89 | On Linux a successful Run starts build/build/omp-server. |
| Runner.IntendedRun | internal/runner/runner.go:16-89 | Run with the launch path taken relative to the build directory: the same errors in the same cases, and the same directory, arguments, port and gamemode. |
| Runner.IntendedLaunchStartsCheckedServer | internal/runner/runner.go:52-89 | The corrected launch starts build/<server>, the executable whose existence Run checked. |
| Runner.RunLooksForCompilerTarget | internal/runner/runner.go:57-61 | The compiled gamemode Run reports missing is exactly the file named by the compiler's -o argument in Build. |
| Runner.CompiledProjectPassesRunChecks | internal/runner/runner.go:16-61 | After a successful compilation of a project, Run no longer fails on the project check, the build directory, the project configuration or the compiled gamemode. Only the server configuration, the platform and the server executable can still stop it. |
| Scaffold.EffectiveName | cmd/init/init.go:55-63 | The name is never empty. It is the flag when given, else the base name of the working directory, else "gamemode". |
| Scaffold.EffectivePawnccPath | cmd/init/init.go:65-68 | The compiler directory is never empty. It is the flag when given, else "qawno". |
| Scaffold.ProjectTemplate | cmd/init/init.go:110-121 | The template is the default project configuration with the given name, author and compiler directory, main file gamemodes/name.pwn and output gamemodes/name.amx. For a separator-free name it has the inferred shape. |
| Scaffold.ServerTemplate | cmd/init/init.go:145-155 | The written server configuration is the default one except for the host name "name Server", the gamemode name and the RCON password "changeme". |
| Scaffold.TemplatesMatchDefaults | cmd/init/init.go:110-155 | With the fallback name and compiler directory, init writes exactly the default project configuration used when project.json is absent. Its server configuration differs from the default one only in host name and RCON password. |
| Scaffold.Init | cmd/init/init.go:70-169 | project.json is written exactly when it is absent and writable. config.json is attempted only after that and is written exactly when it is also absent and writable. An existing descriptor is reported as such, and a failed write names the file it failed on. A gamemodes failure is only a warning. The written descriptors are exactly the project template (defaulted name, author, defaulted compiler directory) and the server template for the same name. |
| Scaffold.TemplateRoundTrip | cmd/init/init.go:113-114 | For a name without a separator, inferring from the template's main file gives back the template's name, main file and output file. |
| Scaffold.InitReadsBack | cmd/init/init.go:145-155 | After a successful init the directory is a project and both descriptors read back as written. Run then passes no gamemode argument, whatever the output file. |

## Findings

| source | as written | input that shows it | evidently intended | confidence | as-written member | corrected member |
|---|---|---|---|---|---|---|
| internal/runner/runner.go:52-89 | The server is started with `exec.Command("build/omp-server")` and `cmd.Dir = "build"`. os/exec evaluates a relative command path relative to `Dir`, so the program started is build/build/omp-server. | Any directory where Run's checks pass, on Linux: build/omp-server exists, and Run starts build/build/omp-server. | Start the executable that was checked: the file name omp-server relative to the build directory. | medium, not executed; rests on the documented os/exec resolution of a relative `Cmd.Path` | Runner.LaunchStartsUncheckedPath | Runner.IntendedLaunchStartsCheckedServer |

## Left out

- JSON encoding and decoding of project.json and config.json. A present descriptor's read-and-decode result is an input (`Workspace.Stored`).
- Real file-system access. Existence is the snapshot's path set. A `Stat` error other than "not exist" counts as existing, as in the source.
- Glob matching. Its results are given as sorted sequences of `.pwn` names. A glob error is indistinguishable from no match, as in the source.
- Paths.Join: lexical cleaning (`filepath.Clean`) is not applied. Only `/` separates elements, so Windows `\` separators and volume names are not modelled.
- Builder.Build: a failure of `os.MkdirAll` for the build directories is not modelled; creating them always succeeds. A compiler run without errors whose process succeeded is taken to have written its output file. Staging sees build, build/gamemodes, the output directory and the compiled gamemode as present.
- Staging.CopyRequiredFiles: existence checks use the directory as it was when staging started. Directories and files that staging itself creates, such as build/plugins or copied files, are not visible to later checks in the same run. Failed `MkdirAll` calls inside staging are not modelled.
- Byte copying in `copyFile`. A copy is an abstract operation, and which copies fail is an input.
- Runner.StartedProgram: only the resolution of a relative command path against the working directory is modelled, not the rest of process start-up.
- Running the compiler and the server: process creation, the output tee in verbose mode, stdin/stdout inheritance and exit codes. The compiler's captured output and failure are inputs; Run stops at the launch description.
- Console output other than the build summary: progress messages, the verbose banner, init's success listing.
- Text.ScanLines: `bufio.Scanner`'s 64 KiB line limit is not modelled; longer lines would stop the Go scanner early.
- Text.TrimSpace and Text.ContainsFoldedIff: text is a sequence of code points, so invalid UTF-8 is not modelled. Case folding covers Go's simple folds of letters that matter for the ASCII tokens; folds of other scripts do not affect these tokens.
- Text.Decimal: integers are unbounded, so the 64-bit range of Go's `int` and its wrap-around are not modelled.
- Scaffold.Init: a failed write leaves no partial file in the model. The working directory is an input (`cwd`); failing to determine it is its `None`.
- Cobra command wiring and flag declarations in cmd/ and main.go: they only delegate to the modelled functions.

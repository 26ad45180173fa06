/** Project detection and configuration resolution of pkg/utils/utils.go,
    over an abstract snapshot of the working directory. */
module Workspace {
  import opened Basics
  import opened Paths

  datatype OS = Windows | Linux | Darwin | OtherOS(name: string)

  /** The project descriptor, project.json. */
  datatype ProjectConfig = ProjectConfig(
    name: string,
    version: string,
    mainFile: string,
    outputFile: string,
    resources: seq<string>,
    plugins: seq<string>,
    serverCfg: string,
    author: string,
    repository: string,
    pawnccPath: string)

  /** The server descriptor, config.json. */
  datatype ServerConfig = ServerConfig(
    hostname: string,
    port: int,
    maxPlayers: int,
    language: string,
    gamemode: string,
    plugins: seq<string>,
    webUrl: string,
    rconPassword: string,
    password: string)

  /** What reading and JSON-decoding a descriptor that is present gives. */
  datatype Stored<T> = Decoded(value: T) | Unreadable(reason: string) | Malformed(reason: string)

  predicate IsScriptName(s: string)
  {
    |s| >= 4 && s[|s| - 4..] == ".pwn"
  }

  /** A match of a `*.pwn` glob pattern. */
  type Script = s: string | IsScriptName(s) witness ".pwn"

  /** The working directory as the CLI observes it.  `paths` holds every
      path whose Stat does not report "not exist"; the script sequences are
      the sorted glob matches of ".pwn" files inside
      the gamemodes directory and at the top level. */
  datatype Snapshot = Snapshot(
    os: OS,
    paths: set<string>,
    gamemodeScripts: seq<Script>,
    rootScripts: seq<Script>,
    projectFile: Stored<ProjectConfig>,
    serverFile: Stored<ServerConfig>)

  datatype ConfigError = ReadFailed(file: string, reason: string) | ParseFailed(file: string, reason: string)

  const ProjectFile: string := "project.json"
  const ServerFile: string := "config.json"
  const GamemodesDir: string := "gamemodes"

  /** IsOpenMPProject: the four checks in the order the source makes them. */
  function IsOpenMPProject(s: Snapshot): bool
  {
    if ProjectFile in s.paths then true
    else if ServerFile in s.paths then true
    else if GamemodesDir in s.paths && |s.gamemodeScripts| > 0 then true
    else |s.rootScripts| > 0
  }

  /** Detection holds exactly when one of its four conditions does. */
  lemma DetectionIsDisjunction(s: Snapshot)
    ensures IsOpenMPProject(s) <==>
      || ProjectFile in s.paths
      || ServerFile in s.paths
      || (GamemodesDir in s.paths && |s.gamemodeScripts| > 0)
      || |s.rootScripts| > 0
  {
  }

  /** An empty directory is not a project, and adding files or scripts never
      makes a project stop being one. */
  lemma DetectionIsMonotone(s: Snapshot, t: Snapshot)
    requires s.paths <= t.paths
    requires |s.gamemodeScripts| > 0 ==> |t.gamemodeScripts| > 0
    requires |s.rootScripts| > 0 ==> |t.rootScripts| > 0
    ensures s.paths == {} && s.rootScripts == [] ==> !IsOpenMPProject(s)
    ensures IsOpenMPProject(s) ==> IsOpenMPProject(t)
  {
  }

  /** The configuration GetProjectConfig starts from when project.json is absent. */
  function DefaultProjectConfig(): ProjectConfig
  {
    ProjectConfig(
      name := "gamemode",
      version := "1.0.0",
      mainFile := Join(GamemodesDir, "gamemode.pwn"),
      outputFile := Join(GamemodesDir, "gamemode.amx"),
      resources := [],
      plugins := [],
      serverCfg := ServerFile,
      author := "",
      repository := "",
      pawnccPath := "qawno")
  }

  /** Whether a configuration has the shape inference gives: its main file is
      named after the project and its output file is gamemodes/<name>.amx. */
  predicate NamedAfterMainFile(c: ProjectConfig)
  {
    && Base(c.mainFile) == c.name + ".pwn"
    && c.outputFile == Join(GamemodesDir, c.name + ".amx")
  }

  lemma DefaultIsNamedAfterMainFile()
    ensures NamedAfterMainFile(DefaultProjectConfig())
  {
    BaseOfJoin(GamemodesDir, "gamemode.pwn");
  }

  /** The base name of a script without its ".pwn" extension. */
  function ScriptStem(script: Script): (stem: string)
    ensures Base(script) == stem + ".pwn"
  {
    BaseKeepsSuffix(script, ".pwn");
    var b := Base(script);
    b[..|b| - 4]
  }

  /** The defaults with the main file, name and output file taken from a script. */
  function ProjectFromScript(script: Script): (c: ProjectConfig)
    ensures NamedAfterMainFile(c) && c.mainFile == script
  {
    var stem := ScriptStem(script);
    DefaultProjectConfig().(mainFile := script, name := stem, outputFile := Join(GamemodesDir, stem + ".amx"))
  }

  /** The inference branch: root scripts are consulted only when there is no
      gamemodes directory at all. */
  function InferProjectConfig(s: Snapshot): (c: ProjectConfig)
    ensures NamedAfterMainFile(c)
  {
    DefaultIsNamedAfterMainFile();
    if GamemodesDir in s.paths then
      (if |s.gamemodeScripts| > 0 then ProjectFromScript(s.gamemodeScripts[0]) else DefaultProjectConfig())
    else
      (if |s.rootScripts| > 0 then ProjectFromScript(s.rootScripts[0]) else DefaultProjectConfig())
  }

  /** Read and decode a descriptor that exists. */
  function ReadDescriptor<T>(file: string, stored: Stored<T>): (r: Result<T, ConfigError>)
    ensures r.Ok? <==> stored.Decoded?
    ensures r.Ok? ==> r.value == stored.value
    ensures r.Err? ==> r.error.file == file
  {
    match stored
    case Decoded(v) => Ok(v)
    case Unreadable(why) => Err(ReadFailed(file, why))
    case Malformed(why) => Err(ParseFailed(file, why))
  }

  /** GetProjectConfig: project.json verbatim when present, otherwise inferred. */
  function GetProjectConfig(s: Snapshot): (r: Result<ProjectConfig, ConfigError>)
    ensures ProjectFile in s.paths ==> r == ReadDescriptor(ProjectFile, s.projectFile)
    ensures ProjectFile !in s.paths ==> r.Ok? && NamedAfterMainFile(r.value)
    ensures ProjectFile !in s.paths ==>
      && r.Ok?
      && r.value.version == "1.0.0"
      && r.value.resources == [] && r.value.plugins == []
      && r.value.serverCfg == ServerFile && r.value.pawnccPath == "qawno"
  {
    if ProjectFile in s.paths then ReadDescriptor(ProjectFile, s.projectFile)
    else Ok(InferProjectConfig(s))
  }

  /** The server configuration used when config.json is absent. */
  function DefaultServerConfig(): ServerConfig
  {
    ServerConfig(
      hostname := "Open.MP Server",
      port := 7777,
      maxPlayers := 50,
      language := "English",
      gamemode := "gamemode",
      plugins := [],
      webUrl := "open.mp",
      rconPassword := "",
      password := "")
  }

  /** GetServerConfig: config.json verbatim when present, otherwise the default. */
  function GetServerConfig(s: Snapshot): (r: Result<ServerConfig, ConfigError>)
    ensures ServerFile in s.paths ==> r == ReadDescriptor(ServerFile, s.serverFile)
    ensures ServerFile !in s.paths ==> r.Ok? && r.value.port == 7777 && r.value.gamemode != ""
    ensures ServerFile !in s.paths ==> r == Ok(DefaultServerConfig())
  {
    if ServerFile in s.paths then ReadDescriptor(ServerFile, s.serverFile)
    else Ok(DefaultServerConfig())
  }

  /** The fallback chain of inference: first gamemodes script, else (only
      without a gamemodes directory) first root script, else the defaults. */
  lemma InferenceFallback(s: Snapshot)
    requires ProjectFile !in s.paths
    ensures GamemodesDir in s.paths && |s.gamemodeScripts| > 0 ==>
      GetProjectConfig(s).value.mainFile == s.gamemodeScripts[0]
    ensures GamemodesDir in s.paths && |s.gamemodeScripts| == 0 ==>
      GetProjectConfig(s).value == DefaultProjectConfig()
    ensures GamemodesDir !in s.paths && |s.rootScripts| > 0 ==>
      GetProjectConfig(s).value.mainFile == s.rootScripts[0]
    ensures GamemodesDir !in s.paths && |s.rootScripts| == 0 ==>
      GetProjectConfig(s).value == DefaultProjectConfig()
  {
  }

  /** A directory that is not a project resolves to the default configurations. */
  lemma NonProjectResolvesToDefaults(s: Snapshot)
    requires !IsOpenMPProject(s)
    ensures GetProjectConfig(s) == Ok(DefaultProjectConfig())
    ensures GetServerConfig(s) == Ok(DefaultServerConfig())
  {
  }

  /** Detection is wider than inference: with an empty gamemodes directory a
      root script makes the directory a project, yet inference ignores it. */
  lemma RootScriptDetectedButIgnored(s: Snapshot)
    requires ProjectFile !in s.paths && ServerFile !in s.paths
    requires GamemodesDir in s.paths && |s.gamemodeScripts| == 0 && |s.rootScripts| > 0
    ensures IsOpenMPProject(s)
    ensures GetProjectConfig(s) == Ok(DefaultProjectConfig())
  {
  }

  /** Whenever inference picked a script, the directory is detected as a project. */
  lemma InferredScriptMeansProject(s: Snapshot)
    requires ProjectFile !in s.paths
    requires (GamemodesDir in s.paths && |s.gamemodeScripts| > 0) || (GamemodesDir !in s.paths && |s.rootScripts| > 0)
    ensures IsOpenMPProject(s)
  {
  }

  /** Project resolution looks only at the descriptor, the gamemodes
      directory and the two glob results. */
  lemma ProjectResolutionInputs(s: Snapshot, t: Snapshot)
    requires (ProjectFile in s.paths <==> ProjectFile in t.paths) && s.projectFile == t.projectFile
    requires (GamemodesDir in s.paths <==> GamemodesDir in t.paths)
    requires s.gamemodeScripts == t.gamemodeScripts && s.rootScripts == t.rootScripts
    ensures GetProjectConfig(s) == GetProjectConfig(t)
  {
    if ProjectFile !in s.paths {
      assert InferProjectConfig(s) == InferProjectConfig(t);
    }
  }
}

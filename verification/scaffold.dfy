/** The init command of cmd/init/init.go: flag defaulting, the two descriptor
    templates and the guards that refuse to overwrite an existing descriptor. */
module Scaffold {
  import opened Basics
  import opened Paths
  import opened Workspace
  import Runner

  const FallbackName: string := "gamemode"
  const DefaultPawnccPath: string := "qawno"

  /** The project name: the flag, else the working directory's base name
      (`cwd` is None when it cannot be determined), else "gamemode". */
  function EffectiveName(name: string, cwd: Option<string>): (n: string)
    ensures n != ""
    ensures name != "" ==> n == name
    ensures name == "" && cwd.Some? ==> n == Base(cwd.value)
    ensures name == "" && cwd.None? ==> n == FallbackName
  {
    if name != "" then name
    else match cwd
      case Some(dir) => BaseShape(dir); Base(dir)
      case None => FallbackName
  }

  /** The compiler directory: the flag, else "qawno". */
  function EffectivePawnccPath(pawnccPath: string): (p: string)
    ensures p != ""
    ensures pawnccPath != "" ==> p == pawnccPath
    ensures pawnccPath == "" ==> p == DefaultPawnccPath
  {
    if pawnccPath == "" then DefaultPawnccPath else pawnccPath
  }

  lemma TemplateMainFileBase(name: string)
    ensures Sep !in name ==> Base(Join(GamemodesDir, name + ".pwn")) == name + ".pwn"
  {
    if Sep !in name {
      BaseOfJoin(GamemodesDir, name + ".pwn");
    }
  }

  /** The project.json written by init. */
  function ProjectTemplate(name: string, author: string, pawnccPath: string): (c: ProjectConfig)
    ensures c.name == name && c.author == author && c.pawnccPath == pawnccPath
    ensures Sep !in name ==> NamedAfterMainFile(c)
    ensures IsScriptName(c.mainFile)
    ensures c == DefaultProjectConfig().(
      name := name, author := author, pawnccPath := pawnccPath,
      mainFile := Join(GamemodesDir, name + ".pwn"), outputFile := Join(GamemodesDir, name + ".amx"))
  {
    var c := ProjectConfig(
      name := name,
      version := "1.0.0",
      mainFile := Join(GamemodesDir, name + ".pwn"),
      outputFile := Join(GamemodesDir, name + ".amx"),
      resources := [],
      plugins := [],
      serverCfg := ServerFile,
      author := author,
      repository := "",
      pawnccPath := pawnccPath);
    TemplateMainFileBase(name);
    assert c.mainFile[|c.mainFile| - 4..] == (name + ".pwn")[|name|..];
    c
  }

  /** The config.json written by init. */
  function ServerTemplate(name: string): (c: ServerConfig)
    ensures c.gamemode == name && c.port == DefaultServerConfig().port
    ensures c == DefaultServerConfig().(hostname := name + " Server", gamemode := name, rconPassword := "changeme")
  {
    ServerConfig(
      hostname := name + " Server",
      port := 7777,
      maxPlayers := 50,
      language := "English",
      gamemode := name,
      plugins := [],
      webUrl := "open.mp",
      rconPassword := "changeme",
      password := "")
  }

  /** With the fallback name and compiler directory, init writes exactly the
      project configuration used by default when project.json is absent;
      its server configuration differs from the default one only in host
      name and RCON password. */
  lemma TemplatesMatchDefaults()
    ensures ProjectTemplate(FallbackName, "", DefaultPawnccPath) == DefaultProjectConfig()
    ensures ServerTemplate(FallbackName) ==
      DefaultServerConfig().(hostname := FallbackName + " Server", rconPassword := "changeme")
  {
  }

  datatype InitOutcome =
    | ProjectExists
    | ConfigExists
    | WriteFailed(file: string)
    | Initialized(gamemodesMissing: bool)

  /** The descriptors init wrote and how it ended. */
  datatype InitResult = InitResult(project: Option<ProjectConfig>, server: Option<ServerConfig>, outcome: InitOutcome)

  /** The init command.  `paths` are the paths that exist; `failing` holds
      the files whose write fails, and "gamemodes" when its creation fails,
      which only produces a warning. */
  function Init(name: string, author: string, pawnccPath: string, cwd: Option<string>,
                paths: set<string>, failing: set<string>): (r: InitResult)
    ensures r.outcome == ProjectExists <==> ProjectFile in paths
    ensures r.project.Some? <==> ProjectFile !in paths && ProjectFile !in failing
    ensures r.server.Some? <==> r.project.Some? && ServerFile !in paths && ServerFile !in failing
    ensures r.outcome == ConfigExists <==> r.project.Some? && ServerFile in paths
    ensures r.outcome.Initialized? <==> r.server.Some?
    ensures r.outcome.Initialized? ==> (r.outcome.gamemodesMissing <==> GamemodesDir in failing)
    ensures r.project.Some? ==>
      && r.project.value.name == EffectiveName(name, cwd)
      && r.project.value.author == author
      && r.project.value.pawnccPath == EffectivePawnccPath(pawnccPath)
    ensures r.server.Some? ==> r.server.value.gamemode == r.project.value.name != ""
    ensures r.project.Some? ==>
      r.project.value == ProjectTemplate(EffectiveName(name, cwd), author, EffectivePawnccPath(pawnccPath))
    ensures r.server.Some? ==> r.server.value == ServerTemplate(EffectiveName(name, cwd))
    ensures r.outcome == WriteFailed(ProjectFile) <==> ProjectFile !in paths && ProjectFile in failing
    ensures r.outcome == WriteFailed(ServerFile) <==>
      r.project.Some? && ServerFile !in paths && ServerFile in failing
    ensures r.outcome.WriteFailed? ==> r.outcome.file == ProjectFile || r.outcome.file == ServerFile
  {
    var n := EffectiveName(name, cwd);
    var pawncc := EffectivePawnccPath(pawnccPath);
    if ProjectFile in paths then InitResult(None, None, ProjectExists)
    else if ProjectFile in failing then InitResult(None, None, WriteFailed(ProjectFile))
    else
      var project := ProjectTemplate(n, author, pawncc);
      if ServerFile in paths then InitResult(Some(project), None, ConfigExists)
      else if ServerFile in failing then InitResult(Some(project), None, WriteFailed(ServerFile))
      else InitResult(Some(project), Some(ServerTemplate(n)), Initialized(GamemodesDir in failing))
  }

  /** For a name without a separator, inferring the configuration from the
      template's main file gives back the template's name, main file and
      output file. */
  lemma {:induction false} TemplateRoundTrip(name: string, author: string, pawnccPath: string, s: Snapshot)
    requires Sep !in name
    requires ProjectFile !in s.paths && GamemodesDir in s.paths
    requires |s.gamemodeScripts| > 0 && s.gamemodeScripts[0] == ProjectTemplate(name, author, pawnccPath).mainFile
    ensures var t := ProjectTemplate(name, author, pawnccPath);
      var c := GetProjectConfig(s).value;
      c.name == t.name && c.mainFile == t.mainFile && c.outputFile == t.outputFile
  {
    var t := ProjectTemplate(name, author, pawnccPath);
    var script := s.gamemodeScripts[0];
    var stem := ScriptStem(script);
    assert Base(script) == stem + ".pwn";
    BaseOfJoin(GamemodesDir, name + ".pwn");
    assert stem + ".pwn" == name + ".pwn";
    assert stem == (stem + ".pwn")[..|stem|];
    assert stem == name;
  }

  /** After a successful init the directory is a project, both descriptors
      read back as written, and Run passes no gamemode flag: the written
      config.json names the gamemode. */
  lemma InitReadsBack(name: string, author: string, pawnccPath: string, cwd: Option<string>,
                      paths: set<string>, failing: set<string>, t: Snapshot, debug: bool, port: int)
    requires Init(name, author, pawnccPath, cwd, paths, failing).outcome.Initialized?
    requires ProjectFile in t.paths && ServerFile in t.paths
    requires t.projectFile == Decoded(Init(name, author, pawnccPath, cwd, paths, failing).project.value)
    requires t.serverFile == Decoded(Init(name, author, pawnccPath, cwd, paths, failing).server.value)
    ensures IsOpenMPProject(t)
    ensures GetProjectConfig(t) == Ok(Init(name, author, pawnccPath, cwd, paths, failing).project.value)
    ensures GetServerConfig(t) == Ok(Init(name, author, pawnccPath, cwd, paths, failing).server.value)
    ensures forall outputFile: string ::
      Runner.GamemodeFlag(outputFile) !in Runner.ServerArgs(debug, port, GetServerConfig(t).value, outputFile)
  {
    var server := GetServerConfig(t).value;
    forall outputFile: string
      ensures Runner.GamemodeFlag(outputFile) !in Runner.ServerArgs(debug, port, server, outputFile)
    {
      Runner.ServerArgsContents(debug, port, server, outputFile);
    }
  }
}

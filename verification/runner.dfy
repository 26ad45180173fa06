/** Run of internal/runner/runner.go: the checks made before the server is
    started, the server executable and the derived arguments.  Starting the
    server and waiting for it are left to the caller. */
module Runner {
  import opened Basics
  import opened Paths
  import opened Text
  import opened Workspace
  import Builder

  /** The platform-specific server file name; other systems are unsupported. */
  function ServerExecutable(os: OS): (exe: Option<string>)
    ensures exe.None? <==> os.OtherOS?
    ensures exe.Some? ==> Sep !in exe.value && (exe.value == "omp-server.exe" <==> os == Windows)
    ensures os == Windows ==> exe == Some("omp-server.exe")
    ensures os == Linux || os == Darwin ==> exe == Some("omp-server")
  {
    match os
    case Windows => Some("omp-server.exe")
    case Linux => Some("omp-server")
    case Darwin => Some("omp-server")
    case OtherOS(_) => None
  }

  /** A port on the command line that is set and differs from the configured one. */
  predicate OverridesPort(port: int, server: ServerConfig)
  {
    port != 0 && port != server.port
  }

  const DebugFlag: string := "--debug"
  const PortPrefix: string := "--port="
  const GamemodePrefix: string := "--gamemode="

  function PortFlag(port: int): string
  {
    PortPrefix + Decimal(port)
  }

  /** The compiled gamemode relative to the build directory. */
  function GamemodeFlag(outputFile: string): string
  {
    GamemodePrefix + Join(GamemodesDir, Base(outputFile))
  }

  predicate HasPrefix(s: string, prefix: string)
  {
    |prefix| <= |s| && s[..|prefix|] == prefix
  }

  /** Where a server argument belongs: debug, then port, then gamemode. */
  function FlagRank(arg: string): nat
  {
    if arg == DebugFlag then 0 else if HasPrefix(arg, PortPrefix) then 1 else 2
  }

  /** Any argument starting with the port prefix ranks as the port flag. */
  lemma PortPrefixRank(value: string)
    ensures FlagRank(PortPrefix + value) == 1
  {
    var p := PortPrefix + value;
    assert p[2] == 'p' && DebugFlag[2] == 'd';
    assert p[..|PortPrefix|] == PortPrefix;
  }

  /** Any argument starting with the gamemode prefix ranks last. */
  lemma GamemodePrefixRank(value: string)
    ensures FlagRank(GamemodePrefix + value) == 2
  {
    var g := GamemodePrefix + value;
    assert g[2] == 'g' && DebugFlag[2] == 'd' && PortPrefix[2] == 'p';
    assert g[..|PortPrefix|][2] == 'g';
  }

  /** Each of the three flags has its own rank. */
  lemma FlagRanks(port: int, outputFile: string)
    ensures FlagRank(DebugFlag) == 0
    ensures FlagRank(PortFlag(port)) == 1
    ensures FlagRank(GamemodeFlag(outputFile)) == 2
  {
    PortPrefixRank(Decimal(port));
    GamemodePrefixRank(Join(GamemodesDir, Base(outputFile)));
  }

  /** The server's command-line arguments: each flag that applies, once. */
  function ServerArgs(debug: bool, port: int, server: ServerConfig, outputFile: string): (args: seq<string>)
    ensures |args| == (if debug then 1 else 0) + (if OverridesPort(port, server) then 1 else 0) + (if server.gamemode == "" then 1 else 0)
  {
    (if debug then [DebugFlag] else [])
      + (if OverridesPort(port, server) then [PortFlag(port)] else [])
      + (if server.gamemode == "" then [GamemodeFlag(outputFile)] else [])
  }

  /** Three runs of at most one argument each, ranked 0, 1 and 2, are in
      strictly ascending rank order once concatenated. */
  lemma RanksAscend(rank: string -> nat, a: seq<string>, b: seq<string>, c: seq<string>)
    requires |a| <= 1 && |b| <= 1 && |c| <= 1
    requires forall k :: 0 <= k < |a| ==> rank(a[k]) == 0
    requires forall k :: 0 <= k < |b| ==> rank(b[k]) == 1
    requires forall k :: 0 <= k < |c| ==> rank(c[k]) == 2
    ensures forall i, j :: 0 <= i < j < |a + b + c| ==> rank((a + b + c)[i]) < rank((a + b + c)[j])
  {
    var s := a + b + c;
    forall i | 0 <= i < |s|
      ensures rank(s[i]) == if i < |a| then 0 else if i < |a| + |b| then 1 else 2
    {
      if i < |a| {
        assert s[i] == a[i];
      } else if i < |a| + |b| {
        assert s[i] == b[i - |a|];
      } else {
        assert s[i] == c[i - |a| - |b|];
      }
    }
  }

  /** Debug comes first, then the port, then the gamemode. */
  lemma ServerArgsOrder(debug: bool, port: int, server: ServerConfig, outputFile: string)
    ensures var args := ServerArgs(debug, port, server, outputFile);
      forall i, j :: 0 <= i < j < |args| ==> FlagRank(args[i]) < FlagRank(args[j])
  {
    FlagRanks(port, outputFile);
    var a := if debug then [DebugFlag] else [];
    var b := if OverridesPort(port, server) then [PortFlag(port)] else [];
    var c := if server.gamemode == "" then [GamemodeFlag(outputFile)] else [];
    assert ServerArgs(debug, port, server, outputFile) == a + b + c;
    RanksAscend(FlagRank, a, b, c);
  }

  /** Each flag is present exactly when its condition holds, and debug is
      then the first argument. */
  lemma ServerArgsContents(debug: bool, port: int, server: ServerConfig, outputFile: string)
    ensures var args := ServerArgs(debug, port, server, outputFile);
      (DebugFlag in args <==> debug) && (debug ==> args[0] == DebugFlag)
    ensures PortFlag(port) in ServerArgs(debug, port, server, outputFile) <==> OverridesPort(port, server)
    ensures GamemodeFlag(outputFile) in ServerArgs(debug, port, server, outputFile) <==> server.gamemode == ""
  {
    FlagRanks(port, outputFile);
    var args := ServerArgs(debug, port, server, outputFile);
    var a := if debug then [DebugFlag] else [];
    var b := if OverridesPort(port, server) then [PortFlag(port)] else [];
    var c := if server.gamemode == "" then [GamemodeFlag(outputFile)] else [];
    assert args == a + b + c;
    assert DebugFlag in args <==> DebugFlag in a;
    assert PortFlag(port) in args <==> PortFlag(port) in b;
    assert GamemodeFlag(outputFile) in args <==> GamemodeFlag(outputFile) in c;
  }

  /** The port Run reports: the override when it is passed on, else the configured one. */
  function EffectivePort(port: int, server: ServerConfig): int
  {
    if OverridesPort(port, server) then port else server.port
  }

  /** A port flag is passed exactly when the port is overridden, and it
      carries the reported port; otherwise the configured port is reported. */
  lemma PortFlagCarriesEffectivePort(debug: bool, port: int, server: ServerConfig, outputFile: string)
    ensures var args := ServerArgs(debug, port, server, outputFile);
      OverridesPort(port, server) <==> exists i :: 0 <= i < |args| && FlagRank(args[i]) == 1
    ensures var args := ServerArgs(debug, port, server, outputFile);
      forall i :: 0 <= i < |args| && FlagRank(args[i]) == 1 ==>
        ParseDecimal(args[i][|PortPrefix|..]) == Some(EffectivePort(port, server))
    ensures !OverridesPort(port, server) ==> EffectivePort(port, server) == server.port
  {
    FlagRanks(port, outputFile);
    ServerArgsContents(debug, port, server, outputFile);
    DecimalRoundTrip(port);
    var args := ServerArgs(debug, port, server, outputFile);
    var p := PortFlag(port);
    assert p[|PortPrefix|..] == Decimal(port);
    forall i | 0 <= i < |args| && FlagRank(args[i]) == 1
      ensures args[i] == p
    {
      var a := if debug then [DebugFlag] else [];
      var b := if OverridesPort(port, server) then [p] else [];
      var c := if server.gamemode == "" then [GamemodeFlag(outputFile)] else [];
      assert args == a + b + c;
      assert args[i] in a + b + c;
    }
    if OverridesPort(port, server) {
      var k :| 0 <= k < |args| && args[k] == p;
      assert FlagRank(args[k]) == 1;
    }
  }

  datatype RunError =
    | NotAProject
    | NotBuilt
    | ProjectConfigFailed(cause: ConfigError)
    | ServerConfigFailed(cause: ConfigError)
    | UnsupportedOS(os: OS)
    | ServerMissing(path: string)
    | GamemodeMissing(path: string)

  /** The server process Run starts, with the port and gamemode it reports. */
  datatype Launch = Launch(exe: string, args: seq<string>, dir: string, port: int, gamemode: string)

  /** Run up to starting the server: the checks in the source's order, each
      one made only when all earlier ones passed. */
  function Run(s: Snapshot, debug: bool, port: int): (r: Result<Launch, RunError>)
    ensures !IsOpenMPProject(s) ==> r == Err(NotAProject)
    ensures (r.Err? && r.error.NotAProject?) <==> !IsOpenMPProject(s)
    ensures (r.Err? && r.error.NotBuilt?) <==> IsOpenMPProject(s) && Builder.BuildDir !in s.paths
    ensures (r.Err? && r.error.ProjectConfigFailed?) <==>
      IsOpenMPProject(s) && Builder.BuildDir in s.paths && GetProjectConfig(s).Err?
    ensures (r.Err? && r.error.ServerConfigFailed?) <==>
      IsOpenMPProject(s) && Builder.BuildDir in s.paths && GetProjectConfig(s).Ok? && GetServerConfig(s).Err?
    ensures (r.Err? && r.error.UnsupportedOS?) <==>
      IsOpenMPProject(s) && Builder.BuildDir in s.paths && GetProjectConfig(s).Ok? && GetServerConfig(s).Ok?
      && ServerExecutable(s.os).None?
    ensures (r.Err? && r.error.ServerMissing?) <==>
      IsOpenMPProject(s) && Builder.BuildDir in s.paths && GetProjectConfig(s).Ok? && GetServerConfig(s).Ok?
      && ServerExecutable(s.os).Some? && Join(Builder.BuildDir, ServerExecutable(s.os).value) !in s.paths
    ensures (r.Err? && r.error.GamemodeMissing?) <==>
      IsOpenMPProject(s) && Builder.BuildDir in s.paths && GetProjectConfig(s).Ok? && GetServerConfig(s).Ok?
      && ServerExecutable(s.os).Some? && Join(Builder.BuildDir, ServerExecutable(s.os).value) in s.paths
      && Join(Builder.BuildDir, GetProjectConfig(s).value.outputFile) !in s.paths
    ensures r.Err? && r.error.ProjectConfigFailed? ==> r.error.cause == GetProjectConfig(s).error
    ensures r.Err? && r.error.ServerConfigFailed? ==> r.error.cause == GetServerConfig(s).error
    ensures r.Err? && r.error.UnsupportedOS? ==> r.error.os == s.os
    ensures r.Err? && r.error.ServerMissing? ==> r.error.path == Join(Builder.BuildDir, ServerExecutable(s.os).value)
    ensures r.Err? && r.error.GamemodeMissing? ==> r.error.path == Join(Builder.BuildDir, GetProjectConfig(s).value.outputFile)
    ensures r.Ok? <==>
      IsOpenMPProject(s) && Builder.BuildDir in s.paths && GetProjectConfig(s).Ok? && GetServerConfig(s).Ok?
      && ServerExecutable(s.os).Some? && Join(Builder.BuildDir, ServerExecutable(s.os).value) in s.paths
      && Join(Builder.BuildDir, GetProjectConfig(s).value.outputFile) in s.paths
    ensures r.Ok? ==>
      && r.value.dir == Builder.BuildDir
      && r.value.exe == Join(Builder.BuildDir, ServerExecutable(s.os).value)
      && r.value.args == ServerArgs(debug, port, GetServerConfig(s).value, GetProjectConfig(s).value.outputFile)
      && r.value.port == EffectivePort(port, GetServerConfig(s).value)
      && r.value.gamemode == Base(GetProjectConfig(s).value.outputFile)
  {
    if !IsOpenMPProject(s) then Err(NotAProject)
    else if Builder.BuildDir !in s.paths then Err(NotBuilt)
    else
      match GetProjectConfig(s)
      case Err(e) => Err(ProjectConfigFailed(e))
      case Ok(cfg) =>
        match GetServerConfig(s)
        case Err(e) => Err(ServerConfigFailed(e))
        case Ok(server) =>
          match ServerExecutable(s.os)
          case None => Err(UnsupportedOS(s.os))
          case Some(exe) =>
            var serverPath := Join(Builder.BuildDir, exe);
            var gamemodePath := Join(Builder.BuildDir, cfg.outputFile);
            if serverPath !in s.paths then Err(ServerMissing(serverPath))
            else if gamemodePath !in s.paths then Err(GamemodeMissing(gamemodePath))
            else
              Ok(Launch(serverPath, ServerArgs(debug, port, server, cfg.outputFile), Builder.BuildDir,
                        EffectivePort(port, server), Base(cfg.outputFile)))
  }

  /** The gamemode Run insists on is the file Build told the compiler to
      write: a missing gamemode is reported under the compiler's -o target. */
  lemma RunLooksForCompilerTarget(s: Snapshot, debug: bool, port: int)
    requires GetProjectConfig(s).Ok?
    ensures var r := Run(s, debug, port);
      var inv := Builder.CompilerInvocation(GetProjectConfig(s).value, s.os, s.paths);
      r.Err? && r.error.GamemodeMissing? ==> inv.args[0] == "-o" + r.error.path
  {
  }

  /** After a compilation that succeeded, Run finds the build directory and
      the compiled gamemode: of its checks only the server configuration,
      the platform and the server executable can still fail. */
  lemma CompiledProjectPassesRunChecks(s: Snapshot, cfg: ProjectConfig, debug: bool, port: int)
    requires IsOpenMPProject(s) && GetProjectConfig(s) == Ok(cfg)
    ensures var r := Run(Builder.AfterCompile(s, cfg), debug, port);
      r.Err? ==> r.error.ServerConfigFailed? || r.error.UnsupportedOS? || r.error.ServerMissing?
  {
    var t := Builder.AfterCompile(s, cfg);
    DetectionIsMonotone(s, t);
    Builder.CompileKeepsConfiguration(s, cfg);
    assert Builder.BuildDir in t.paths && Builder.CompilerTarget(cfg) in t.paths;
  }

  /** The program os/exec starts for a launch: a relative command path is
      evaluated relative to the working directory. */
  function StartedProgram(l: Launch): string
  {
    if l.exe != "" && l.exe[0] == Sep then l.exe else Join(l.dir, l.exe)
  }

  /** As written, Run hands exec.Command the path build/<server>, which is
      relative, and also sets the working directory to build: the program
      started is build/build/<server>, not the executable Run checked. */
  lemma LaunchStartsUncheckedPath(s: Snapshot, debug: bool, port: int)
    requires Run(s, debug, port).Ok?
    ensures var l := Run(s, debug, port).value;
      var checked := Join(Builder.BuildDir, ServerExecutable(s.os).value);
      && checked in s.paths
      && StartedProgram(l) == Join(Builder.BuildDir, checked)
      && StartedProgram(l) != checked
  {
    var checked := Join(Builder.BuildDir, ServerExecutable(s.os).value);
    assert checked[0] == 'b';
    assert |Join(Builder.BuildDir, checked)| == |checked| + 6;
  }

  /** On Linux the as-written launch starts build/build/omp-server. */
  lemma LinuxLaunchAsWritten(s: Snapshot, debug: bool, port: int)
    requires s.os == Linux && Run(s, debug, port).Ok?
    ensures StartedProgram(Run(s, debug, port).value) == "build/build/omp-server"
  {
    LaunchStartsUncheckedPath(s, debug, port);
    var exe := ServerExecutable(s.os).value;
    assert exe == "omp-server";
    var checked := Join(Builder.BuildDir, exe);
    assert checked == "build" + "/" + "omp-server";
    assert Join(Builder.BuildDir, checked) == "build" + "/" + checked;
  }

  /** Run with the launch path the existence check implies: the server
      executable's file name, relative to the build directory it runs in.
      Every check, error and argument is Run's. */
  function IntendedRun(s: Snapshot, debug: bool, port: int): (r: Result<Launch, RunError>)
    ensures r.Err? <==> Run(s, debug, port).Err?
    ensures r.Err? ==> r == Run(s, debug, port)
    ensures r.Ok? ==>
      && r.value.dir == Run(s, debug, port).value.dir
      && r.value.args == Run(s, debug, port).value.args
      && r.value.port == Run(s, debug, port).value.port
      && r.value.gamemode == Run(s, debug, port).value.gamemode
  {
    match Run(s, debug, port)
    case Err(e) => Err(e)
    case Ok(l) => Ok(l.(exe := ServerExecutable(s.os).value))
  }

  /** The corrected launch starts exactly the server executable whose
      existence Run checked. */
  lemma IntendedLaunchStartsCheckedServer(s: Snapshot, debug: bool, port: int)
    requires IntendedRun(s, debug, port).Ok?
    ensures var l := IntendedRun(s, debug, port).value;
      && StartedProgram(l) == Join(Builder.BuildDir, ServerExecutable(s.os).value)
      && StartedProgram(l) in s.paths
  {
  }
}

/** CopyRequiredFiles of pkg/utils/utils.go as a copy plan followed by an
    execution that stops at the first failed copy. */
module Staging {
  import opened Basics
  import opened Paths
  import opened Workspace

  datatype CopyKind = ServerConfigCopy | ResourceCopy | PluginCopy

  datatype CopyOp = CopyOp(kind: CopyKind, src: string, dst: string)

  /** Position of each kind of copy in the plan. */
  function Stage(kind: CopyKind): nat
  {
    match kind
    case ServerConfigCopy => 0
    case ResourceCopy => 1
    case PluginCopy => 2
  }

  /** The file staged as build/config.json: config.json when it exists, else
      the configured server file when that exists, else nothing. */
  function ServerConfigSource(cfg: ProjectConfig, paths: set<string>): (src: Option<string>)
    ensures src.Some? <==> ServerFile in paths || cfg.serverCfg in paths
    ensures src.Some? ==> src.value in paths
    ensures ServerFile in paths ==> src == Some(ServerFile)
    ensures ServerFile !in paths && cfg.serverCfg in paths ==> src == Some(cfg.serverCfg)
  {
    if ServerFile in paths then Some(ServerFile)
    else if cfg.serverCfg in paths then Some(cfg.serverCfg)
    else None
  }

  /** Copies of the existing items, in declared order, flattened by base name into destDir. */
  function ItemCopies(kind: CopyKind, items: seq<string>, paths: set<string>, destDir: string): (ops: seq<CopyOp>)
  {
    if items == [] then []
    else
      var head := if items[0] in paths then [CopyOp(kind, items[0], Join(destDir, Base(items[0])))] else [];
      head + ItemCopies(kind, items[1..], paths, destDir)
  }

  /** At most one copy per item, each of the given kind and from an existing source. */
  lemma {:induction false} ItemCopiesShape(kind: CopyKind, items: seq<string>, paths: set<string>, destDir: string)
    ensures |ItemCopies(kind, items, paths, destDir)| <= |items|
    ensures forall k :: 0 <= k < |ItemCopies(kind, items, paths, destDir)| ==>
      ItemCopies(kind, items, paths, destDir)[k].kind == kind && ItemCopies(kind, items, paths, destDir)[k].src in paths
  {
    if items != [] {
      ItemCopiesShape(kind, items[1..], paths, destDir);
    }
  }

  /** The copies are exactly those of the existing items, each flattened by
      base name into destDir. */
  lemma {:induction false} ItemCopiesContents(kind: CopyKind, items: seq<string>, paths: set<string>, destDir: string, op: CopyOp)
    ensures op in ItemCopies(kind, items, paths, destDir) <==>
      op.kind == kind && op.src in items && op.src in paths && op.dst == Join(destDir, Base(op.src))
  {
    if items != [] {
      ItemCopiesContents(kind, items[1..], paths, destDir, op);
      assert op.src in items <==> op.src == items[0] || op.src in items[1..];
    }
  }

  /** Items are handled one after another: the copies of a concatenation are
      the copies of its parts, in that order. */
  lemma {:induction false} ItemCopiesConcat(kind: CopyKind, a: seq<string>, b: seq<string>, paths: set<string>, destDir: string)
    ensures ItemCopies(kind, a + b, paths, destDir) == ItemCopies(kind, a, paths, destDir) + ItemCopies(kind, b, paths, destDir)
  {
    if a != [] {
      assert (a + b)[0] == a[0];
      assert (a + b)[1..] == a[1..] + b;
      ItemCopiesConcat(kind, a[1..], b, paths, destDir);
      var head := if a[0] in paths then [CopyOp(kind, a[0], Join(destDir, Base(a[0])))] else [];
      AppendAssoc(head, ItemCopies(kind, a[1..], paths, destDir), ItemCopies(kind, b, paths, destDir));
    } else {
      assert a + b == b;
    }
  }

  /** The copy of the server configuration, if any, to buildDir/config.json. */
  function ConfigCopies(cfg: ProjectConfig, paths: set<string>, buildDir: string): (ops: seq<CopyOp>)
    ensures |ops| <= 1
    ensures forall k :: 0 <= k < |ops| ==> ops[k].kind == ServerConfigCopy && ops[k].src in paths
    ensures forall op :: op in ops <==>
      ServerConfigSource(cfg, paths).Some? && op == CopyOp(ServerConfigCopy, ServerConfigSource(cfg, paths).value, Join(buildDir, ServerFile))
  {
    match ServerConfigSource(cfg, paths)
    case Some(src) => [CopyOp(ServerConfigCopy, src, Join(buildDir, ServerFile))]
    case None => []
  }

  /** Every copy CopyRequiredFiles would make, in the order it makes them:
      the server configuration, then resources, then plugins. */
  function CopyPlan(cfg: ProjectConfig, paths: set<string>, buildDir: string): (plan: seq<CopyOp>)
  {
    ConfigCopies(cfg, paths, buildDir)
      + ItemCopies(ResourceCopy, cfg.resources, paths, buildDir)
      + ItemCopies(PluginCopy, cfg.plugins, paths, Join(buildDir, "plugins"))
  }

  /** The plan copies the server configuration first, then resources, then
      plugins, and only sources that exist. */
  lemma CopyPlanOrder(cfg: ProjectConfig, paths: set<string>, buildDir: string)
    ensures var plan := CopyPlan(cfg, paths, buildDir);
      forall i, j :: 0 <= i < j < |plan| ==> Stage(plan[i].kind) <= Stage(plan[j].kind)
    ensures var plan := CopyPlan(cfg, paths, buildDir);
      forall i :: 0 <= i < |plan| ==> plan[i].src in paths
  {
    var c := ConfigCopies(cfg, paths, buildDir);
    var r := ItemCopies(ResourceCopy, cfg.resources, paths, buildDir);
    var p := ItemCopies(PluginCopy, cfg.plugins, paths, Join(buildDir, "plugins"));
    ItemCopiesShape(ResourceCopy, cfg.resources, paths, buildDir);
    ItemCopiesShape(PluginCopy, cfg.plugins, paths, Join(buildDir, "plugins"));
    var plan := c + r + p;
    assert forall i :: 0 <= i < |plan| ==>
      Stage(plan[i].kind) == (if i < |c| then 0 else if i < |c| + |r| then 1 else 2) && plan[i].src in paths
    by {
      forall i | 0 <= i < |plan|
        ensures Stage(plan[i].kind) == (if i < |c| then 0 else if i < |c| + |r| then 1 else 2)
        ensures plan[i].src in paths
      {
        if i < |c| {
          assert plan[i] == c[i];
        } else if i < |c| + |r| {
          assert plan[i] == r[i - |c|];
        } else {
          assert plan[i] == p[i - |c| - |r|];
        }
      }
    }
  }

  /** The plan holds exactly the staged server configuration, the existing
      resources into buildDir and the existing plugins into buildDir/plugins. */
  lemma CopyPlanContents(cfg: ProjectConfig, paths: set<string>, buildDir: string, op: CopyOp)
    ensures op in CopyPlan(cfg, paths, buildDir) <==>
      || (ServerConfigSource(cfg, paths).Some? && op == CopyOp(ServerConfigCopy, ServerConfigSource(cfg, paths).value, Join(buildDir, ServerFile)))
      || (op.kind == ResourceCopy && op.src in cfg.resources && op.src in paths && op.dst == Join(buildDir, Base(op.src)))
      || (op.kind == PluginCopy && op.src in cfg.plugins && op.src in paths && op.dst == Join(Join(buildDir, "plugins"), Base(op.src)))
  {
    ItemCopiesContents(ResourceCopy, cfg.resources, paths, buildDir, op);
    ItemCopiesContents(PluginCopy, cfg.plugins, paths, Join(buildDir, "plugins"), op);
  }

  /** The result of staging: CopyRequiredFiles' own configuration lookup
      failed, a copy failed after the listed ones succeeded, or all succeeded. */
  datatype StageOutcome =
    | ConfigUnavailable(cause: ConfigError)
    | CopyFailed(failed: CopyOp, copied: seq<CopyOp>)
    | Staged(copied: seq<CopyOp>)

  /** Perform the plan, stopping at the first copy that fails; copies already
      made stay in place. */
  function Execute(plan: seq<CopyOp>, failing: set<CopyOp>): (r: StageOutcome)
    ensures !r.ConfigUnavailable?
    ensures r.Staged? <==> forall i :: 0 <= i < |plan| ==> plan[i] !in failing
    ensures r.Staged? ==> r.copied == plan
    ensures r.CopyFailed? ==>
      && |r.copied| < |plan|
      && r.copied == plan[..|r.copied|]
      && plan[|r.copied|] == r.failed
      && r.failed in failing
      && forall i :: 0 <= i < |r.copied| ==> r.copied[i] !in failing
  {
    if plan == [] then Staged([])
    else if plan[0] in failing then CopyFailed(plan[0], [])
    else
      match Execute(plan[1..], failing)
      case Staged(copied) => Staged([plan[0]] + copied)
      case CopyFailed(op, copied) => CopyFailed(op, [plan[0]] + copied)
  }

  /** CopyRequiredFiles: resolve the project configuration again, then copy. */
  function CopyRequiredFiles(s: Snapshot, buildDir: string, failing: set<CopyOp>): (r: StageOutcome)
    ensures r.ConfigUnavailable? <==> GetProjectConfig(s).Err?
    ensures r.Staged? ==> forall op :: op in r.copied ==> op.src in s.paths && op !in failing
    ensures r.CopyFailed? ==> r.failed in failing && r.failed.src in s.paths
  {
    match GetProjectConfig(s)
    case Err(e) => ConfigUnavailable(e)
    case Ok(cfg) =>
      var plan := CopyPlan(cfg, s.paths, buildDir);
      CopyPlanOrder(cfg, s.paths, buildDir);
      var r := Execute(plan, failing);
      assert r.CopyFailed? ==> r.failed in plan;
      r
  }

  /** With the configuration resolved, staging follows the plan: it finishes
      exactly when no planned copy fails, and otherwise stops at the first
      failing one with everything before it copied. */
  lemma StagingFollowsPlan(s: Snapshot, cfg: ProjectConfig, buildDir: string, failing: set<CopyOp>)
    requires GetProjectConfig(s) == Ok(cfg)
    ensures var plan := CopyPlan(cfg, s.paths, buildDir);
      CopyRequiredFiles(s, buildDir, failing).Staged? <==> forall i :: 0 <= i < |plan| ==> plan[i] !in failing
    ensures var r := CopyRequiredFiles(s, buildDir, failing);
      r.Staged? ==> r.copied == CopyPlan(cfg, s.paths, buildDir)
    ensures var r := CopyRequiredFiles(s, buildDir, failing); var plan := CopyPlan(cfg, s.paths, buildDir);
      r.CopyFailed? ==> |r.copied| < |plan| && r.copied + [r.failed] == plan[..|r.copied| + 1]
  {
  }
}

/** What a rebuild resolves to, and which engine it enters
    (cmd/rebuild_spec.go, cmd/rebuild.go, cmd/workspace_deploy.go), and whether
    resolving a stored plan again reproduces it (cmd/plan.go).

    The flag globals outlive a resolution in a long-running process; a resolver
    starts from whatever they hold. */
module RebuildResolution {
  import opened Options

  datatype Choice = Unset | Classic | BlueGreen | Rolling | Canary | Progressive | Unknown(text: string)

  datatype Rollout = Rollout(strategy: Choice, percent: int)

  /** phelix.yaml, as far as resolution reads it.  A rollout that cannot be
      built from the file is None. */
  datatype Config = Config(worker: bool, port: int, strategy: Choice, replicas: int, canary: Option<int>, progressive: Option<int>)

  datatype Loaded = Missing | Invalid | Found(config: Config)

  datatype Deployed = Unreadable | NoState | State(mode: Choice, replicas: nat)

  datatype App = App(port: int, directory: string)

  /** Everything resolution reads besides the flags. */
  datatype Env = Env(
    cwd: Loaded,                          // the configuration in the working directory
    configAt: string -> Loaded,
    abs: string -> Option<string>,
    isDir: string -> bool,
    app: App,
    deployed: Deployed,
    validPort: int -> bool,
    language: string -> Option<string>)   // the application's language, else detected in a directory

  /** The flag globals. */
  datatype Flags = Flags(port: int, strategy: Choice, blueGreen: bool, replicas: int, canary: int, sourceDir: string,
                         rollout: Option<Rollout>)

  /** Which flags were given on the command line. */
  datatype Given = Given(port: bool, blueGreen: bool, replicas: bool, canary: bool)

  datatype Spec = Spec(port: int, sourceDir: string, strategy: Choice, replicas: int, blueGreen: bool,
                       rollout: Option<Rollout>, language: string, worker: bool)

  const DefaultCanaryPercent: int := 10

  // ---- Resolution as a function ------------------------------------------

  function Contents(l: Loaded): Option<Config> {
    if l.Found? then Some(l.config) else None
  }

  /** The directory that is built and the configuration that counts: the source
      directory's own file if it has one, else the working directory's. */
  function Sources(env: Env, sourceDir: string): Option<(string, Option<Config>)> {
    if env.cwd.Invalid? then None
    else if sourceDir == "" then Some((env.app.directory, Contents(env.cwd)))
    else
      match env.abs(sourceDir)
      case None => None
      case Some(dir) =>
        if !env.isDir(dir) || env.configAt(dir).Invalid? then None
        else Some((dir, if env.configAt(dir).Found? then Contents(env.configAt(dir)) else Contents(env.cwd)))
  }

  function PortOf(flags: Flags, given: Given, env: Env, cfg: Option<Config>): int {
    if !given.port && env.app.port == 0 && cfg.Some? && cfg.value.port != 0 then cfg.value.port
    else if !given.port && env.app.port != 0 then env.app.port
    else flags.port
  }

  function RolloutFor(cfg: Option<Config>, s: Choice): Option<Rollout> {
    var percent :=
      if s.Canary? then (if cfg.Some? then cfg.value.canary else Some(DefaultCanaryPercent))
      else if cfg.Some? then cfg.value.progressive else None;
    if percent.Some? then Some(Rollout(s, percent.value)) else None
  }

  /** --strategy, else the configuration, else what is deployed. */
  function Chosen(strategy: Choice, cfg: Option<Config>, deployed: Deployed): Choice {
    if strategy != Unset then strategy
    else if cfg.Some? && cfg.value.strategy != Unset then cfg.value.strategy
    else if deployed.State? then deployed.mode else Unset
  }

  function ReplicasFor(cfg: Option<Config>, deployed: Deployed): int {
    if cfg.Some? && cfg.value.replicas > 0 then cfg.value.replicas
    else if deployed.State? && deployed.replicas > 0 then deployed.replicas else 1
  }

  /** applyConfigDeployStrategy: the flags afterwards, or None on error. */
  function Strategised(flags: Flags, given: Given, cfg: Option<Config>, deployed: Deployed): Option<Flags> {
    if given.canary then
      if given.blueGreen || given.replicas || flags.strategy != Unset || !(1 <= flags.canary <= 99) then None
      else
        match RolloutFor(cfg, Canary)
        case None => None
        case Some(r) => Some(flags.(rollout := Some(r.(percent := flags.canary))))
    else if given.blueGreen || given.replicas then Some(flags)
    else if deployed.Unreadable? then None
    else
      var s := Chosen(flags.strategy, cfg, deployed);
      match s
      case Unset => Some(flags)
      case Classic => Some(flags)
      case BlueGreen => Some(flags.(blueGreen := true))
      case Rolling => Some(flags.(replicas := ReplicasFor(cfg, deployed)))
      case Canary => if RolloutFor(cfg, s).None? then None else Some(flags.(rollout := RolloutFor(cfg, s)))
      case Progressive => if RolloutFor(cfg, s).None? then None else Some(flags.(rollout := RolloutFor(cfg, s)))
      case Unknown(_) => None
  }

  /** The strategy the flags amount to. */
  function Effective(flags: Flags): Choice {
    if flags.rollout.Some? then flags.rollout.value.strategy
    else if flags.blueGreen then BlueGreen
    else if flags.replicas > 0 then Rolling else Classic
  }

  predicate IsWorker(cfg: Option<Config>) {
    cfg.Some? && cfg.value.worker
  }

  /** buildRebuildSpec: the flags afterwards and the specification, if any. */
  function Resolution(flags: Flags, given: Given, env: Env): (Flags, Option<Spec>) {
    var sources := Sources(env, flags.sourceDir);
    if sources.None? then (flags, None)
    else
      var (source, cfg) := sources.value;
      var port := PortOf(flags, given, env, cfg);
      if IsWorker(cfg) && (flags.canary > 0 || flags.blueGreen || flags.rollout.Some?) then (flags, None)
      else
        match Strategised(flags, given, cfg, env.deployed)
        case None => (flags, None)
        case Some(f) =>
          if (!IsWorker(cfg) && !env.validPort(port)) || env.language(source).None? then (f, None)
          else (f, Some(Spec(port, source, Effective(f), f.replicas, f.blueGreen, f.rollout, env.language(source).value, IsWorker(cfg))))
  }

  /** Where things come from: without --source-dir the application's directory
      and the working directory's configuration; with it that directory, and its
      own configuration if it has one. */
  lemma SourcePrecedence(env: Env, sourceDir: string)
    ensures sourceDir == "" ==>
      Sources(env, sourceDir) == if env.cwd.Invalid? then None else Some((env.app.directory, Contents(env.cwd)))
    ensures sourceDir != "" ==>
      (Sources(env, sourceDir).None? <==>
         || env.cwd.Invalid? || env.abs(sourceDir).None?
         || !env.isDir(env.abs(sourceDir).value) || env.configAt(env.abs(sourceDir).value).Invalid?)
    ensures sourceDir != "" && Sources(env, sourceDir).Some? ==>
      var (dir, cfg) := Sources(env, sourceDir).value;
      && env.abs(sourceDir) == Some(dir)
      && (env.configAt(dir).Found? ==> cfg == Some(env.configAt(dir).config))
      && (env.configAt(dir).Missing? && env.cwd.Found? ==> cfg == Some(env.cwd.config))
      && (env.configAt(dir).Missing? && env.cwd.Missing? ==> cfg == None)
  {
  }

  /** No canary, blue-green or replicas flag, and nothing left over in their
      globals. */
  predicate PlainFlags(flags: Flags, given: Given) {
    && !given.canary && !given.blueGreen && !given.replicas
    && flags.rollout.None? && !flags.blueGreen && flags.replicas <= 0
  }

  /** Who decides the port of a specification: an explicit --port, else the
      application, else the configuration, else the flag's default. */
  lemma PortPrecedence(flags: Flags, given: Given, env: Env)
    requires Resolution(flags, given, env).1.Some?
    ensures var port := Resolution(flags, given, env).1.value.port; var cfg := Sources(env, flags.sourceDir).value.1;
      && (given.port ==> port == flags.port)
      && (!given.port && env.app.port != 0 ==> port == env.app.port)
      && (!given.port && env.app.port == 0 && cfg.Some? && cfg.value.port != 0 ==> port == cfg.value.port)
      && (!given.port && env.app.port == 0 && (cfg.None? || cfg.value.port == 0) ==> port == flags.port)
  {
  }

  /** Who decides the strategy: a canary flag over everything, keeping its share;
      otherwise, with plain flags, a set --strategy, else the configuration, else
      what is deployed, else classic.  The replicas of a rolling deployment and
      the share of a rollout follow the configuration, then what is deployed. */
  lemma Precedence(flags: Flags, given: Given, env: Env)
    requires Resolution(flags, given, env).1.Some?
    ensures var spec := Resolution(flags, given, env).1.value; var cfg := Sources(env, flags.sourceDir).value.1;
      && (given.canary ==> spec.rollout == Some(Rollout(Canary, flags.canary)) && spec.strategy == Canary)
      && (!given.canary && (given.blueGreen || given.replicas) ==>
            spec.rollout == flags.rollout && spec.blueGreen == flags.blueGreen && spec.replicas == flags.replicas)
      && (!given.canary && spec.rollout.None? && spec.blueGreen ==> spec.strategy == BlueGreen)
      && (spec.rollout.None? && !spec.blueGreen ==> spec.strategy == if spec.replicas > 0 then Rolling else Classic)
    ensures PlainFlags(flags, given) ==>
      var strategy := Resolution(flags, given, env).1.value.strategy; var cfg := Sources(env, flags.sourceDir).value.1;
      && (flags.strategy != Unset ==> strategy == flags.strategy)
      && (flags.strategy.Unset? && cfg.Some? && cfg.value.strategy != Unset ==> strategy == cfg.value.strategy)
      && (flags.strategy.Unset? && (cfg.None? || cfg.value.strategy.Unset?) ==>
            strategy == if env.deployed.State? && env.deployed.mode != Unset then env.deployed.mode else Classic)
    ensures PlainFlags(flags, given) ==>
      var spec := Resolution(flags, given, env).1.value; var cfg := Sources(env, flags.sourceDir).value.1;
      && (spec.strategy.Rolling? ==>
            && (cfg.Some? && cfg.value.replicas > 0 ==> spec.replicas == cfg.value.replicas)
            && ((cfg.None? || cfg.value.replicas <= 0) ==>
                  spec.replicas == if env.deployed.State? && env.deployed.replicas > 0 then env.deployed.replicas else 1))
      && (spec.strategy.Canary? && cfg.None? ==> spec.rollout == Some(Rollout(Canary, 10)))
      && (spec.strategy.Canary? && cfg.Some? ==>
            cfg.value.canary.Some? && spec.rollout == Some(Rollout(Canary, cfg.value.canary.value)))
      && (spec.strategy.Progressive? ==>
            cfg.Some? && cfg.value.progressive.Some? && spec.rollout == Some(Rollout(Progressive, cfg.value.progressive.value)))
  {
  }

  /** The rest of the specification. */
  lemma SpecNamesItsSource(flags: Flags, given: Given, env: Env)
    requires Resolution(flags, given, env).1.Some?
    ensures var spec := Resolution(flags, given, env).1.value;
      && Sources(env, flags.sourceDir).Some?
      && var (dir, cfg) := Sources(env, flags.sourceDir).value;
      && spec.sourceDir == dir && env.language(dir) == Some(spec.language)
      && (spec.worker <==> cfg.Some? && cfg.value.worker)
      && (spec.worker || env.validPort(spec.port))
      && (spec.worker ==> flags.canary <= 0 && !flags.blueGreen && flags.rollout.None?)
  {
  }

  /** What the resolver rejects.  The canary flag excludes the other strategy
      flags and wants a share; without strategy flags the deployed state must be
      readable, and the strategy known and buildable. */
  lemma Rejections(flags: Flags, given: Given, env: Env)
    ensures given.canary && (given.blueGreen || given.replicas || flags.strategy != Unset || flags.canary < 1 || flags.canary > 99) ==>
      Resolution(flags, given, env).1.None?
    ensures !given.canary && !given.blueGreen && !given.replicas && (env.deployed.Unreadable? || flags.strategy.Unknown?) ==>
      Resolution(flags, given, env).1.None?
    ensures Sources(env, flags.sourceDir).Some? ==>
      var (dir, cfg) := Sources(env, flags.sourceDir).value; var worker := cfg.Some? && cfg.value.worker;
      && (env.language(dir).None? || (worker && (flags.canary > 0 || flags.blueGreen || flags.rollout.Some?)) ==>
            Resolution(flags, given, env).1.None?)
      && (env.language(dir).Some? && !worker && env.validPort(PortOf(flags, given, env, cfg)) && !given.canary && (given.blueGreen || given.replicas) ==>
            Resolution(flags, given, env).1.Some?)
      && (env.language(dir).Some? && !worker && env.validPort(PortOf(flags, given, env, cfg))
          && !given.canary && !env.deployed.Unreadable? && flags.strategy in {Classic, BlueGreen, Rolling} ==>
            Resolution(flags, given, env).1.Some?)
  {
  }

  // ---- The engine --------------------------------------------------------

  datatype Engine = WorkerEngine | RolloutEngine(strategy: Choice) | BlueGreenEngine | RollingEngine(replicas: int) | ClassicEngine

  predicate Names(e: Engine, strategy: Choice, replicas: int) {
    match e
    case WorkerEngine => false
    case RolloutEngine(s) => s == strategy && (s.Canary? || s.Progressive?)
    case BlueGreenEngine => strategy == BlueGreen
    case RollingEngine(n) => strategy == Rolling && n == replicas && n > 0
    case ClassicEngine => strategy == Classic
  }

  /** A specification a resolver can have made. */
  predicate Coherent(spec: Spec) {
    && spec.strategy == (if spec.rollout.Some? then spec.rollout.value.strategy
                         else if spec.blueGreen then BlueGreen
                         else if spec.replicas > 0 then Rolling else Classic)
    && (spec.rollout.Some? ==> spec.strategy.Canary? || spec.strategy.Progressive?)
  }

  /** runRebuildExec and, behind it, the choice in runZeroDowntimeDeploy: for
      every specification a resolver makes, the engine is the one its strategy
      names. */
  method EnterEngine(spec: Spec) returns (engine: Engine)
    requires Coherent(spec)
    ensures if spec.worker then engine == WorkerEngine else Names(engine, spec.strategy, spec.replicas)
    ensures !spec.worker ==>
      engine == match spec.strategy
                case BlueGreen => BlueGreenEngine
                case Rolling => RollingEngine(spec.replicas)
                case Classic => ClassicEngine
                case _ => RolloutEngine(spec.strategy)
  {
    if spec.worker {
      return WorkerEngine;
    }
    if spec.blueGreen || spec.replicas > 0 || spec.rollout.Some? {
      if spec.rollout.Some? {
        return RolloutEngine(spec.rollout.value.strategy);
      }
      if spec.blueGreen {
        return BlueGreenEngine;
      }
      return RollingEngine(spec.replicas);
    }
    return ClassicEngine;
  }

  /** The rollout global never holds anything but a rollout. */
  predicate Sound(flags: Flags) {
    flags.rollout.Some? ==> flags.rollout.value.strategy.Canary? || flags.rollout.value.strategy.Progressive?
  }

  /** Whatever earlier commands left in the globals, the rebuild resolver makes
      a coherent specification, and leaves the globals fit for the next one. */
  lemma RebuildIsCoherent(flags: Flags, given: Given, env: Env)
    requires Sound(flags)
    ensures var (f, spec) := Resolution(flags, given, env); Sound(f) && (spec.Some? ==> Coherent(spec.value))
  {
  }

  // ---- The workspace resolver --------------------------------------------

  datatype Service = Service(strategy: Choice, replicas: int, port: int)

  /** resolveWorkspaceStrategy: a rollout degrades to classic. */
  function WorkspaceStrategy(svc: Service, cfg: Option<Config>, deployed: Deployed): Choice {
    var s := Chosen(svc.strategy, cfg, deployed);
    if s.BlueGreen? || s.Rolling? then s else Classic
  }

  function WorkspaceReplicas(svc: Service, cfg: Option<Config>, deployed: Deployed): int {
    if !WorkspaceStrategy(svc, cfg, deployed).Rolling? then 0
    else if svc.replicas > 0 then svc.replicas
    else ReplicasFor(cfg, deployed)
  }

  /** deployWorkspaceService up to the engine: the globals are not consulted. */
  function WorkspaceSpec(svc: Service, env: Env, path: string): Option<Spec> {
    if env.configAt(path).Invalid? then None
    else
      var cfg := Contents(env.configAt(path));
      var s := WorkspaceStrategy(svc, cfg, env.deployed);
      var port :=
        if svc.port != 0 then svc.port
        else if env.app.port != 0 then env.app.port
        else if cfg.Some? then cfg.value.port else 0;
      if port == 0 || !env.validPort(port) || env.language(path).None? then None
      else Some(Spec(port, path, s, WorkspaceReplicas(svc, cfg, env.deployed), s.BlueGreen?, None, env.language(path).value, IsWorker(cfg)))
  }

  /** Who decides in a workspace: the manifest, else the service's own
      configuration, else what is deployed, for the strategy, of which a rollout
      becomes classic, and the replicas; for the port the manifest, else the
      application, else the configuration, and one must. */
  lemma WorkspacePrecedence(svc: Service, env: Env, path: string)
    requires WorkspaceSpec(svc, env, path).Some?
    ensures var strategy := WorkspaceSpec(svc, env, path).value.strategy; var cfg := Contents(env.configAt(path));
      && (svc.strategy != Unset ==> strategy == Degraded(svc.strategy))
      && (svc.strategy.Unset? && cfg.Some? && cfg.value.strategy != Unset ==> strategy == Degraded(cfg.value.strategy))
      && (svc.strategy.Unset? && (cfg.None? || cfg.value.strategy.Unset?) ==>
            strategy == if env.deployed.State? then Degraded(env.deployed.mode) else Classic)
    ensures var spec := WorkspaceSpec(svc, env, path).value; var cfg := Contents(env.configAt(path));
      && (spec.blueGreen <==> spec.strategy == BlueGreen) && spec.rollout.None?
      && (!spec.strategy.Rolling? ==> spec.replicas == 0)
      && (spec.strategy.Rolling? ==>
            && (svc.replicas > 0 ==> spec.replicas == svc.replicas)
            && (svc.replicas <= 0 && cfg.Some? && cfg.value.replicas > 0 ==> spec.replicas == cfg.value.replicas)
            && (svc.replicas <= 0 && (cfg.None? || cfg.value.replicas <= 0) ==>
                  spec.replicas == if env.deployed.State? && env.deployed.replicas > 0 then env.deployed.replicas else 1))
    ensures var spec := WorkspaceSpec(svc, env, path).value; var cfg := Contents(env.configAt(path));
      && (svc.port != 0 ==> spec.port == svc.port)
      && (svc.port == 0 && env.app.port != 0 ==> spec.port == env.app.port)
      && (svc.port == 0 && env.app.port == 0 ==> cfg.Some? && spec.port == cfg.value.port)
      && spec.port != 0 && env.validPort(spec.port)
      && spec.sourceDir == path && env.language(path) == Some(spec.language)
  {
  }

  function Degraded(s: Choice): Choice {
    match s
    case BlueGreen => BlueGreen
    case Rolling => Rolling
    case _ => Classic
  }

  lemma WorkspaceIsCoherent(svc: Service, env: Env, path: string)
    ensures WorkspaceSpec(svc, env, path).Some? ==> Coherent(WorkspaceSpec(svc, env, path).value)
  {
  }

  // ---- Plans -------------------------------------------------------------

  datatype Plan = Plan(
    port: int, portExplicit: bool, strategyOverride: Choice, flagBlueGreen: bool, flagReplicas: int, flagCanary: int,
    sourceDir: string, strategy: Choice, replicas: int, language: string)

  /** buildRebuildPlan, from the flags of the create command and its spec. */
  function PlanOf(create: Flags, given: Given, spec: Spec): Plan {
    Plan(spec.port, given.port, create.strategy, create.blueGreen, create.replicas, create.canary,
         spec.sourceDir, spec.strategy, spec.replicas, spec.language)
  }

  /** A create command: flags that were not given have their defaults. */
  predicate CreateCommand(create: Flags, given: Given) {
    && (!given.blueGreen ==> !create.blueGreen)
    && (!given.replicas ==> create.replicas == 0)
    && (!given.canary ==> create.canary == 0)
    && create.rollout.None?
  }

  /** syntheticRebuildCommand. */
  function Synthetic(plan: Plan): Given {
    Given(plan.portExplicit, plan.flagBlueGreen, plan.flagReplicas > 0, plan.flagCanary > 0)
  }

  /** What applyPlan restores onto the globals; --blue-green and --replicas keep
      whatever they hold. */
  function Restored(stale: Flags, plan: Plan): Flags {
    Flags(plan.port, plan.strategyOverride, stale.blueGreen, stale.replicas, plan.flagCanary, plan.sourceDir, None)
  }

  /** compareSpecToPlan. */
  predicate Same(spec: Spec, plan: Plan) {
    && spec.port == plan.port && spec.strategy == plan.strategy
    && (spec.strategy.Rolling? ==> spec.replicas == plan.replicas)
    && spec.sourceDir == plan.sourceDir && spec.language == plan.language
  }

  /** The plan resolves again to itself. */
  predicate Reproduces(plan: Plan, stale: Flags, env: Env) {
    var spec := Resolution(Restored(stale, plan), Synthetic(plan), env).1;
    spec.Some? && Same(spec.value, plan)
  }

  /** Every change a drift check is for is noticed: a plan that reproduces itself
      is built from its directory, in its language, on its port, with its
      strategy and, rolling, its replicas, as they are now. */
  lemma DriftIsNoticed(plan: Plan, stale: Flags, env: Env)
    requires Reproduces(plan, stale, env)
    ensures Sources(env, plan.sourceDir).Some?
    ensures var (dir, cfg) := Sources(env, plan.sourceDir).value;
      && dir == plan.sourceDir && env.language(dir) == Some(plan.language)
      && (!plan.portExplicit && env.app.port != 0 ==> env.app.port == plan.port)
      && (!plan.portExplicit && env.app.port == 0 && cfg.Some? && cfg.value.port != 0 ==> cfg.value.port == plan.port)
    ensures var spec := Resolution(Restored(stale, plan), Synthetic(plan), env).1.value;
      spec.port == plan.port && spec.strategy == plan.strategy && (plan.strategy.Rolling? ==> spec.replicas == plan.replicas)
  {
  }

  /** When a plan resolves again to itself, read off its inputs and the two
      globals that are not restored. */
  predicate Survives(plan: Plan, given: Given, cfg: Option<Config>, deployed: Deployed, blueGreen: bool, replicas: int) {
    && (IsWorker(cfg) ==> !blueGreen)
    && (if plan.flagCanary > 0 then true
        else if plan.flagBlueGreen then blueGreen
        else if plan.flagReplicas > 0 then !blueGreen && replicas == plan.flagReplicas
        else
          var s := Chosen(plan.strategyOverride, cfg, deployed);
          if given.blueGreen || given.replicas then !deployed.Unreadable? && (s.Unset? || s.Classic?) && !blueGreen && replicas <= 0
          else if s.BlueGreen? || s.Canary? || s.Progressive? then true
          else if s.Rolling? then !blueGreen
          else !blueGreen && replicas <= 0)
  }

  /** The plan round trip.  With the application, the configuration that counts
      and the deployment state unchanged, re-resolving a plan reproduces it if
      and only if `Survives` says so: always for blue-green, canary and
      progressive strategies, otherwise depending on what is left in the two
      globals. */
  lemma PlanRoundTrip(create: Flags, given: Given, env: Env, cwd: Loaded, stale: Flags)
    requires CreateCommand(create, given)
    requires Resolution(create, given, env).1.Some?
    requires var plan := PlanOf(create, given, Resolution(create, given, env).1.value);
      Sources(env.(cwd := cwd), plan.sourceDir) == Sources(env, create.sourceDir)
    ensures var plan := PlanOf(create, given, Resolution(create, given, env).1.value);
      Reproduces(plan, stale, env.(cwd := cwd)) <==>
        Survives(plan, given, Sources(env, create.sourceDir).value.1, env.deployed, stale.blueGreen, stale.replicas)
  {
  }

  /** The built directory can be named again, and its configuration, or that of
      the working directory standing in for it, is the one that counted. */
  predicate StableSource(env: Env, sourceDir: string, cwd: Loaded) {
    && Sources(env, sourceDir).Some?
    && (var dir := Sources(env, sourceDir).value.0; dir != "" && env.isDir(dir) && env.abs(dir) == Some(dir))
    && (if sourceDir == "" then env.configAt(env.app.directory) == env.cwd && (env.cwd.Missing? ==> cwd.Missing?)
        else env.configAt(env.abs(sourceDir).value).Found? || cwd == env.cwd)
  }

  /** The configuration that counts is then the same when the plan is applied. */
  lemma SourcesAreReproduced(env: Env, sourceDir: string, cwd: Loaded)
    requires !cwd.Invalid? && StableSource(env, sourceDir, cwd)
    ensures Sources(env.(cwd := cwd), Sources(env, sourceDir).value.0) == Sources(env, sourceDir)
  {
  }

  /** With fresh globals and neither --blue-green nor --replicas there is never
      a drift: for a plan made from the application's own directory, from an
      explicit source directory with a configuration of its own, or applied in
      the working directory it was made in. */
  lemma FreshPlansDoNotDrift(create: Flags, given: Given, env: Env, cwd: Loaded, stale: Flags)
    requires CreateCommand(create, given) && !given.blueGreen && !given.replicas
    requires !stale.blueGreen && stale.replicas == 0
    requires Resolution(create, given, env).1.Some? && !cwd.Invalid?
    requires StableSource(env, create.sourceDir, cwd)
    ensures Reproduces(PlanOf(create, given, Resolution(create, given, env).1.value), stale, env.(cwd := cwd))
  {
    SourcesAreReproduced(env, create.sourceDir, cwd);
    PlanRoundTrip(create, given, env, cwd, stale);
  }

  /** A plan made with --blue-green drifts in every process whose globals are
      fresh, and so does one made with --replicas. */
  lemma FlagPlansDrift(create: Flags, given: Given, env: Env, cwd: Loaded, stale: Flags)
    requires CreateCommand(create, given) && !given.canary
    requires create.blueGreen || create.replicas > 0
    requires !stale.blueGreen && stale.replicas == 0
    requires Resolution(create, given, env).1.Some?
    requires var plan := PlanOf(create, given, Resolution(create, given, env).1.value);
      Sources(env.(cwd := cwd), plan.sourceDir) == Sources(env, create.sourceDir)
    ensures !Reproduces(PlanOf(create, given, Resolution(create, given, env).1.value), stale, env.(cwd := cwd))
  {
    PlanRoundTrip(create, given, env, cwd, stale);
  }

  /** Applying a plan leaves globals behind under which the same plan still
      resolves to itself: a second apply, after a refusal say, does not drift.
      The one exception is a worker resolved to blue-green, whose second
      resolution is rejected for the global its first one set. */
  lemma ReapplyingDoesNotDrift(plan: Plan, stale: Flags, env: Env)
    requires Sound(stale) && Reproduces(plan, stale, env)
    ensures var (left, spec) := Resolution(Restored(stale, plan), Synthetic(plan), env);
      Reproduces(plan, left, env) <==> !(spec.value.worker && left.blueGreen)
  {
    var first := Resolution(Restored(stale, plan), Synthetic(plan), env);
    if !(first.1.value.worker && first.0.blueGreen) {
      var second := Resolution(Restored(first.0, plan), Synthetic(plan), env);
      assert second.0.blueGreen == first.0.blueGreen && second.0.replicas == first.0.replicas;
    }
  }

  // ---- The code ----------------------------------------------------------

  class Globals {
    var port: int
    var strategy: Choice
    var blueGreen: bool
    var replicas: int
    var canary: int
    var sourceDir: string
    var rollout: Option<Rollout>

    constructor ()
      ensures Value() == Flags(8080, Unset, false, 0, 0, "", None)
    {
      port, strategy, blueGreen, replicas, canary, sourceDir, rollout := 8080, Unset, false, 0, 0, "", None;
    }

    function Value(): Flags
      reads this
    {
      Flags(port, strategy, blueGreen, replicas, canary, sourceDir, rollout)
    }

    method Set(f: Flags)
      modifies this
      ensures Value() == f
    {
      port, strategy, blueGreen, replicas, canary, sourceDir, rollout :=
        f.port, f.strategy, f.blueGreen, f.replicas, f.canary, f.sourceDir, f.rollout;
    }

    /** applyConfigDeployStrategy. */
    method ApplyConfigDeployStrategy(given: Given, cfg: Option<Config>, deployed: Deployed) returns (ok: bool)
      modifies this`blueGreen, this`replicas, this`rollout
      ensures ok <==> Strategised(old(Value()), given, cfg, deployed).Some?
      ensures Value() == if ok then Strategised(old(Value()), given, cfg, deployed).value else old(Value())
    {
      if given.canary {
        if given.blueGreen || given.replicas { return false; }
        if strategy != Unset { return false; }
        if canary < 1 || canary > 99 { return false; }
        var plan := RolloutFor(cfg, Canary);
        if plan.None? { return false; }
        rollout := Some(plan.value.(percent := canary));
        return true;
      }
      if given.blueGreen || given.replicas { return true; }
      var chosen := strategy;
      if chosen.Unset? && cfg.Some? {
        chosen := cfg.value.strategy;
      }
      if deployed.Unreadable? { return false; }
      if chosen.Unset? && deployed.State? {
        chosen := deployed.mode;
      }
      match chosen {
        case Unset =>
        case Classic =>
        case BlueGreen => blueGreen := true;
        case Rolling =>
          replicas := 1;
          if cfg.Some? && cfg.value.replicas > 0 {
            replicas := cfg.value.replicas;
          } else if deployed.State? && deployed.replicas > 0 {
            replicas := deployed.replicas;
          }
        case Unknown(_) => return false;
        case _ =>
          var plan := RolloutFor(cfg, chosen);
          if plan.None? { return false; }
          rollout := plan;
      }
      return true;
    }

    method ResolveSources(env: Env) returns (sources: Option<(string, Option<Config>)>)
      ensures sources == Sources(env, sourceDir)
    {
      if env.cwd.Invalid? { return None; }
      var cfg := Contents(env.cwd);
      if sourceDir == "" { return Some((env.app.directory, cfg)); }
      var dir := env.abs(sourceDir);
      if dir.None? || !env.isDir(dir.value) { return None; }
      var own := env.configAt(dir.value);
      if own.Invalid? { return None; }
      return Some((dir.value, if own.Found? then Contents(own) else cfg));
    }

    /** buildRebuildSpec. */
    method BuildRebuildSpec(given: Given, env: Env) returns (spec: Option<Spec>)
      modifies this
      ensures (Value(), spec) == Resolution(old(Value()), given, env)
    {
      var sources := ResolveSources(env);
      if sources.None? { return None; }
      var (source, cfg) := sources.value;
      var usePort := port;
      if !given.port && env.app.port != 0 { usePort := env.app.port; }
      if !given.port && env.app.port == 0 && cfg.Some? && cfg.value.port != 0 { usePort := cfg.value.port; }
      var worker := IsWorker(cfg);
      if worker && (canary > 0 || blueGreen || rollout.Some?) { return None; }
      var ok := ApplyConfigDeployStrategy(given, cfg, env.deployed);
      if !ok { return None; }
      if !worker && !env.validPort(usePort) { return None; }
      var language := env.language(source);
      if language.None? { return None; }
      var effective := Classic;
      if rollout.Some? {
        effective := rollout.value.strategy;
      } else if blueGreen {
        effective := BlueGreen;
      } else if replicas > 0 {
        effective := Rolling;
      }
      return Some(Spec(usePort, source, effective, replicas, blueGreen, rollout, language.value, worker));
    }

    /** plan create rebuild. */
    method CreatePlan(create: Flags, given: Given, env: Env) returns (plan: Option<Plan>)
      requires CreateCommand(create, given)
      modifies this
      ensures Value() == Resolution(create, given, env).0
      ensures var spec := Resolution(create, given, env).1;
        plan == if spec.Some? then Some(PlanOf(create, given, spec.value)) else None
    {
      Set(create);
      var spec := BuildRebuildSpec(given, env);
      return if spec.Some? then Some(PlanOf(create, given, spec.value)) else None;
    }

    /** applyPlan up to the drift check, then the engine: what is entered is
        what the plan says. */
    method ApplyRebuildPlan(plan: Plan, env: Env) returns (engine: Option<Engine>)
      modifies this
      ensures Value() == Resolution(Restored(old(Value()), plan), Synthetic(plan), env).0
      ensures engine.Some? <==> Reproduces(plan, old(Value()), env)
      ensures engine.Some? ==> engine.value.WorkerEngine? || Names(engine.value, plan.strategy, plan.replicas)
    {
      port, strategy, canary, sourceDir, rollout := plan.port, plan.strategyOverride, plan.flagCanary, plan.sourceDir, None;
      assert Value() == Restored(old(Value()), plan);
      RebuildIsCoherent(Value(), Synthetic(plan), env);
      var spec := BuildRebuildSpec(Synthetic(plan), env);
      if spec.None? || !Same(spec.value, plan) {
        return None;
      }
      var entered := EnterEngine(spec.value);
      return Some(entered);
    }
  }

  /** An apply leaves globals in its process that can make the next plan drift:
      a classic plan applies alone, and not after a blue-green one. */
  method AppliesLeakGlobals() returns (alone: bool, after: bool)
    ensures alone && !after
  {
    var dir := "/srv/app";
    var env := Env(Missing, (d: string) => Missing, (d: string) => Some(d), (d: string) => true, App(8080, dir), NoState,
                   (p: int) => true, (d: string) => Some("go"));
    var classic := Plan(8080, false, Classic, false, 0, 0, dir, Classic, 0, "go");
    var bluegreen := Plan(8080, false, BlueGreen, false, 0, 0, dir, BlueGreen, 0, "go");
    var unused := new Globals();
    var engine := unused.ApplyRebuildPlan(classic, env);
    alone := engine.Some?;
    var used := new Globals();
    engine := used.ApplyRebuildPlan(bluegreen, env);
    engine := used.ApplyRebuildPlan(classic, env);
    after := engine.Some?;
  }
}

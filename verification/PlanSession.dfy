/** Applying several plans in one process (cmd/plan.go, applyPlan): the flag
    globals of RebuildResolution live as long as the process, the durable
    records of PlanApply belong to each plan.  An attempt that is refused after
    resolution has written the globals, so whether leaving it out of a trace
    changes a later reply is a question about what it left there. */
module PlanSession {
  import opened Options
  import opened PlanMachine
  import opened PlanApply
  import R = RebuildResolution

  /** One apply.  `early` is a refusal before resolution (precondition or
      capability), `authz` one after it; drift is computed. */
  datatype Attempt = Attempt(plan: nat, early: bool, authz: bool, script: Script)

  /** What has been executed so far: each time which plan, with what outcome. */
  type History = seq<(nat, Outcome)>

  /** The process: its flag globals, the stores of the plans it has met, and the
      executions, which decide the configuration and the deployed state that a
      later resolution reads. */
  datatype Process = Process(flags: R.Flags, stores: map<nat, Durable>, history: History)

  function StoreOf(s: Process, plan: nat): Durable {
    if plan in s.stores then s.stores[plan] else New
  }

  /** The globals after resolving a plan. */
  function Left(flags: R.Flags, plan: R.Plan, env: R.Env): R.Flags {
    R.Resolution(R.Restored(flags, plan), R.Synthetic(plan), env).0
  }

  /** The attempt gets as far as resolution. */
  predicate Resolves(s: Process, a: Attempt) {
    StoreOf(s, a.plan).status == Created && !a.early
  }

  predicate Refuses(s: Process, a: Attempt, plans: nat -> R.Plan, env: R.Env) {
    a.early || !R.Reproduces(plans(a.plan), s.flags, env) || a.authz
  }

  function Attempted(s: Process, a: Attempt, plans: nat -> R.Plan, envs: History -> R.Env): (Process, Reply) {
    var env := envs(s.history);
    var (d, reply) := ApplyPlan(StoreOf(s, a.plan), a.script.(refused := Refuses(s, a, plans, env)));
    (Process(if Resolves(s, a) then Left(s.flags, plans(a.plan), env) else s.flags,
             s.stores[a.plan := d],
             if reply.Executed? then s.history + [(a.plan, reply.outcome)] else s.history),
     reply)
  }

  /** Two processes whose plans are stored alike after the same executions. */
  ghost predicate SameStores(s: Process, t: Process) {
    s.history == t.history && forall plan: nat :: StoreOf(s, plan) == StoreOf(t, plan)
  }

  // ---- What an attempt leaves behind -------------------------------------

  /** The two globals that applying a plan does not restore. */
  function Leftover(flags: R.Flags): (bool, int) {
    (flags.blueGreen, flags.replicas)
  }

  /** No plan can tell them apart: the number of replicas matters only without
      blue-green, and only if positive. */
  predicate Alike(f: R.Flags, g: R.Flags) {
    && f.blueGreen == g.blueGreen
    && (f.blueGreen || f.replicas == g.replicas || (f.replicas <= 0 && g.replicas <= 0))
  }

  lemma AlikeReproduce(f: R.Flags, g: R.Flags, plan: R.Plan, env: R.Env)
    requires Alike(f, g)
    ensures R.Reproduces(plan, f, env) == R.Reproduces(plan, g, env)
  {
  }

  lemma AlikeLeft(f: R.Flags, g: R.Flags, plan: R.Plan, env: R.Env)
    requires Alike(f, g)
    ensures Alike(Left(f, plan, env), Left(g, plan, env))
  {
  }

  /** Something can be built: a directory that names itself, in a known language,
      on a port that will do. */
  predicate Buildable(env: R.Env, dir: string, port: int) {
    && R.Sources(env, dir).Some? && R.Sources(env, dir).value.0 == dir && env.language(dir).Some?
    && (R.IsWorker(R.Sources(env, dir).value.1) || env.validPort(port))
  }

  /** A plan made with --replicas that reproduces itself under these globals. */
  function Telling(f: R.Flags, env: R.Env, dir: string, port: int): R.Plan
    requires Buildable(env, dir, port)
  {
    R.Plan(port, true, R.Unset, false, 1, 0, dir, if f.replicas > 0 then R.Rolling else R.Classic, f.replicas, env.language(dir).value)
  }

  lemma TellingReproduces(f: R.Flags, g: R.Flags, env: R.Env, dir: string, port: int)
    requires Buildable(env, dir, port) && !g.blueGreen
    ensures R.Reproduces(Telling(g, env, dir, port), f, env) <==>
      !f.blueGreen && (f.replicas == g.replicas || (f.replicas <= 0 && g.replicas <= 0))
  {
  }

  /** Where anything can be built at all, two leftovers make no difference to any
      plan exactly when they are alike. */
  lemma AlikeIsIndistinguishable(f: R.Flags, g: R.Flags, env: R.Env, dir: string, port: int)
    requires Buildable(env, dir, port)
    ensures Alike(f, g) <==> forall plan :: R.Reproduces(plan, f, env) == R.Reproduces(plan, g, env)
  {
    if Alike(f, g) {
      forall plan ensures R.Reproduces(plan, f, env) == R.Reproduces(plan, g, env) { AlikeReproduce(f, g, plan, env); }
    } else {
      var h := if f.blueGreen then g else f;
      TellingReproduces(f, h, env, dir, port);
      TellingReproduces(g, h, env, dir, port);
      assert R.Reproduces(Telling(h, env, dir, port), f, env) != R.Reproduces(Telling(h, env, dir, port), g, env);
    }
  }

  /** The resolution of the plan takes its strategy from the configuration or
      the deployed state, and gets past the checks before it. */
  predicate FollowsStrategy(plan: R.Plan, flags: R.Flags, env: R.Env) {
    && plan.flagCanary <= 0 && !plan.flagBlueGreen && plan.flagReplicas <= 0
    && R.Sources(env, plan.sourceDir).Some? && !env.deployed.Unreadable?
    && (R.IsWorker(R.Sources(env, plan.sourceDir).value.1) ==> !flags.blueGreen)
  }

  function ChosenBy(plan: R.Plan, env: R.Env): R.Choice
    requires R.Sources(env, plan.sourceDir).Some?
  {
    R.Chosen(plan.strategyOverride, R.Sources(env, plan.sourceDir).value.1, env.deployed)
  }

  /** Resolving a plan leaves the two globals changed exactly when it resolves
      to blue-green and that was not set, or to rolling with another number of
      replicas. */
  lemma LeavesBehind(plan: R.Plan, flags: R.Flags, env: R.Env)
    ensures Leftover(Left(flags, plan, env)) != Leftover(flags) <==>
      && FollowsStrategy(plan, flags, env)
      && ((ChosenBy(plan, env).BlueGreen? && !flags.blueGreen)
          || (ChosenBy(plan, env).Rolling? && flags.replicas != R.ReplicasFor(R.Sources(env, plan.sourceDir).value.1, env.deployed)))
  {
  }

  /** Resolving the plan leaves something another plan can notice: it picks
      blue-green, or rolling with another number of replicas, over globals
      without blue-green. */
  predicate Noticeable(plan: R.Plan, flags: R.Flags, env: R.Env) {
    && FollowsStrategy(plan, flags, env) && !flags.blueGreen
    && (ChosenBy(plan, env).BlueGreen?
        || (ChosenBy(plan, env).Rolling? && flags.replicas != R.ReplicasFor(R.Sources(env, plan.sourceDir).value.1, env.deployed)))
  }

  lemma LeftAlike(plan: R.Plan, flags: R.Flags, env: R.Env)
    ensures Alike(flags, Left(flags, plan, env)) <==> !Noticeable(plan, flags, env)
  {
    LeavesBehind(plan, flags, env);
  }

  // ---- Erasing one refused attempt ---------------------------------------

  /** A stopped attempt changes no store and executes nothing. */
  lemma StoppedKeepsStores(s: Process, a: Attempt, plans: nat -> R.Plan, envs: History -> R.Env)
    requires Stopped(Attempted(s, a, plans, envs).1)
    ensures SameStores(Attempted(s, a, plans, envs).0, s)
  {
  }

  /** What refuses an attempt of a plan that has not run: its preconditions,
      before anything is resolved; a drift; or the authorization.  Everything
      else gets to the ledger. */
  lemma WhatRefuses(s: Process, a: Attempt, plans: nat -> R.Plan, envs: History -> R.Env)
    requires StoreOf(s, a.plan).status == Created
    ensures Attempted(s, a, plans, envs).1 == Refused <==>
      a.early || a.authz || !R.Reproduces(plans(a.plan), s.flags, envs(s.history))
    ensures a.early ==> Attempted(s, a, plans, envs).0.flags == s.flags
    ensures !a.early ==>
      Attempted(s, a, plans, envs).0.flags ==
        R.Resolution(R.Restored(s.flags, plans(a.plan)), R.Synthetic(plans(a.plan)), envs(s.history)).0
  {
  }

  /** Leaving a refused attempt out changes the reply of the attempt after it
      exactly when that one gets as far as the drift check, is not refused
      otherwise, and its plan reproduces itself under only one of the two
      globals: those before the refused attempt and those it left. */
  lemma NextReply(s: Process, a: Attempt, b: Attempt, plans: nat -> R.Plan, envs: History -> R.Env)
    requires Stopped(Attempted(s, a, plans, envs).1)
    ensures var after := Attempted(s, a, plans, envs).0;
      Attempted(after, b, plans, envs).1 != Attempted(s, b, plans, envs).1 <==>
        && Resolves(s, b) && !b.authz
        && R.Reproduces(plans(b.plan), after.flags, envs(s.history)) != R.Reproduces(plans(b.plan), s.flags, envs(s.history))
  {
    StoppedKeepsStores(s, a, plans, envs);
  }

  /** The reply to the first, otherwise permitted, attempt of a new plan. */
  function FirstReply(s: Process, plan: R.Plan, script: Script, envs: History -> R.Env): Reply {
    Attempted(s.(stores := map[]), Attempt(0, false, false, script), _ => plan, envs).1
  }

  /** Which refused attempts can be left out before whatever comes next, read off
      their plan, the globals, the configuration and the deployed state: those
      that do not get as far as resolution and those that resolve to nothing
      noticeable.  After one of these every attempt gets the reply it would have
      got without it; after any other, where anything can be built, some new plan
      gets another reply. */
  lemma RefusalIsErasable(s: Process, a: Attempt, plans: nat -> R.Plan, envs: History -> R.Env, dir: string, port: int)
    requires Stopped(Attempted(s, a, plans, envs).1)
    ensures var after := Attempted(s, a, plans, envs).0;
      var unnoticed := !Resolves(s, a) || !Noticeable(plans(a.plan), s.flags, envs(s.history));
      && (unnoticed ==> forall b :: Attempted(after, b, plans, envs).1 == Attempted(s, b, plans, envs).1)
      && (Buildable(envs(s.history), dir, port) ==>
            (unnoticed <==> forall plan, script :: FirstReply(after, plan, script, envs) == FirstReply(s, plan, script, envs)))
  {
    var after, env := Attempted(s, a, plans, envs).0, envs(s.history);
    LeftAlike(plans(a.plan), s.flags, env);
    if Alike(s.flags, after.flags) {
      forall b ensures Attempted(after, b, plans, envs).1 == Attempted(s, b, plans, envs).1 {
        NextReply(s, a, b, plans, envs);
        AlikeReproduce(s.flags, after.flags, plans(b.plan), env);
      }
      forall plan, script ensures FirstReply(after, plan, script, envs) == FirstReply(s, plan, script, envs) {
        AlikeReproduce(s.flags, after.flags, plan, env);
      }
    } else if Buildable(env, dir, port) {
      AlikeIsIndistinguishable(s.flags, after.flags, env, dir, port);
      var plan :| R.Reproduces(plan, s.flags, env) != R.Reproduces(plan, after.flags, env);
      FirstReplies(s, after, plan, envs);
    }
  }

  lemma FirstReplies(s: Process, t: Process, plan: R.Plan, envs: History -> R.Env)
    requires s.history == t.history
    requires R.Reproduces(plan, s.flags, envs(s.history)) != R.Reproduces(plan, t.flags, envs(s.history))
    ensures FirstReply(s, plan, Quiet, envs) != FirstReply(t, plan, Quiet, envs)
  {
  }

  const Quiet := Script(0, false, false, NoFault, true, true, true, Nil(true), true, true, true)

  // ---- Erasing all refused attempts --------------------------------------

  function Run(s: Process, xs: seq<Attempt>, plans: nat -> R.Plan, envs: History -> R.Env): Process
    decreases |xs|
  {
    if |xs| == 0 then s else Run(Attempted(s, xs[0], plans, envs).0, xs[1..], plans, envs)
  }

  function Replies(s: Process, xs: seq<Attempt>, plans: nat -> R.Plan, envs: History -> R.Env): seq<Reply>
    decreases |xs|
  {
    if |xs| == 0 then []
    else [Attempted(s, xs[0], plans, envs).1] + Replies(Attempted(s, xs[0], plans, envs).0, xs[1..], plans, envs)
  }

  function Erase(s: Process, xs: seq<Attempt>, plans: nat -> R.Plan, envs: History -> R.Env): seq<Attempt>
    decreases |xs|
  {
    if |xs| == 0 then []
    else (if Stopped(Attempted(s, xs[0], plans, envs).1) then [] else [xs[0]])
         + Erase(Attempted(s, xs[0], plans, envs).0, xs[1..], plans, envs)
  }

  /** No attempt of the trace that is stopped leaves anything noticeable. */
  predicate Neutral(s: Process, xs: seq<Attempt>, plans: nat -> R.Plan, envs: History -> R.Env)
    decreases |xs|
  {
    |xs| == 0 ||
    (var (next, reply) := Attempted(s, xs[0], plans, envs);
     && (Stopped(reply) && Resolves(s, xs[0]) ==> !Noticeable(plans(xs[0].plan), s.flags, envs(s.history)))
     && Neutral(next, xs[1..], plans, envs))
  }

  lemma StoresAlike(s: Process, t: Process, a: Attempt, plans: nat -> R.Plan, envs: History -> R.Env)
    requires SameStores(s, t)
    requires R.Reproduces(plans(a.plan), s.flags, envs(s.history)) == R.Reproduces(plans(a.plan), t.flags, envs(s.history))
    ensures var (s', r) := Attempted(s, a, plans, envs); var (t', q) := Attempted(t, a, plans, envs);
      r == q && SameStores(s', t')
  {
    assert StoreOf(s, a.plan) == StoreOf(t, a.plan);
    var s', t' := Attempted(s, a, plans, envs).0, Attempted(t, a, plans, envs).0;
    forall plan: nat ensures StoreOf(s', plan) == StoreOf(t', plan) {
      assert StoreOf(s, plan) == StoreOf(t, plan);
    }
  }

  lemma StoppedStores(s: Process, t: Process, a: Attempt, plans: nat -> R.Plan, envs: History -> R.Env)
    requires SameStores(s, t) && Stopped(Attempted(s, a, plans, envs).1)
    ensures SameStores(Attempted(s, a, plans, envs).0, t)
  {
    StoppedKeepsStores(s, a, plans, envs);
    var next := Attempted(s, a, plans, envs).0;
    forall plan: nat ensures StoreOf(next, plan) == StoreOf(t, plan) {
      assert StoreOf(next, plan) == StoreOf(s, plan);
      assert StoreOf(s, plan) == StoreOf(t, plan);
    }
  }

  lemma AttemptedAlike(s: Process, t: Process, a: Attempt, plans: nat -> R.Plan, envs: History -> R.Env)
    requires SameStores(s, t) && Alike(s.flags, t.flags)
    ensures var (s', r) := Attempted(s, a, plans, envs); var (t', q) := Attempted(t, a, plans, envs);
      r == q && SameStores(s', t') && Alike(s'.flags, t'.flags)
  {
    AlikeReproduce(s.flags, t.flags, plans(a.plan), envs(s.history));
    AlikeLeft(s.flags, t.flags, plans(a.plan), envs(s.history));
    assert StoreOf(s, a.plan) == StoreOf(t, a.plan);
    StoresAlike(s, t, a, plans, envs);
  }

  /** Over traces of several plans, executions that change what is deployed
      included: refused attempts that leave nothing noticeable are erasable,
      together and wherever they stand.  The stores end up the same and the
      remaining attempts get the same replies. */
  lemma {:induction false} NeutralRefusalsAreErasable(s: Process, t: Process, xs: seq<Attempt>, plans: nat -> R.Plan, envs: History -> R.Env)
    requires Neutral(s, xs, plans, envs) && SameStores(s, t) && Alike(s.flags, t.flags)
    ensures SameStores(Run(s, xs, plans, envs), Run(t, Erase(s, xs, plans, envs), plans, envs))
    ensures Replies(t, Erase(s, xs, plans, envs), plans, envs) == Kept(Replies(s, xs, plans, envs))
    decreases |xs|
  {
    if |xs| > 0 {
      var (next, reply) := Attempted(s, xs[0], plans, envs);
      var rest := Erase(next, xs[1..], plans, envs);
      assert Replies(s, xs, plans, envs)[1..] == Replies(next, xs[1..], plans, envs);
      if Stopped(reply) {
        StoppedStores(s, t, xs[0], plans, envs);
        LeftAlike(plans(xs[0].plan), s.flags, envs(s.history));
        NeutralRefusalsAreErasable(next, t, xs[1..], plans, envs);
        assert Erase(s, xs, plans, envs) == rest;
      } else {
        AttemptedAlike(s, t, xs[0], plans, envs);
        NeutralRefusalsAreErasable(next, Attempted(t, xs[0], plans, envs).0, xs[1..], plans, envs);
        assert Erase(s, xs, plans, envs)[1..] == rest;
      }
    }
  }

  // ---- One plan ----------------------------------------------------------

  /** The resolution of a worker to blue-green, which the global it sets makes
      impossible to repeat. */
  predicate BlueGreenWorker(plan: R.Plan, env: R.Env) {
    && plan.flagCanary <= 0 && !plan.flagBlueGreen && plan.flagReplicas <= 0
    && R.Sources(env, plan.sourceDir).Some? && R.IsWorker(R.Sources(env, plan.sourceDir).value.1)
    && ChosenBy(plan, env).BlueGreen?
  }

  /** Resolving a plan does not change whether it reproduces itself, unless it is
      a worker resolved to blue-green: that one reproduces itself once only. */
  lemma OwnLeftovers(plan: R.Plan, flags: R.Flags, env: R.Env)
    ensures !BlueGreenWorker(plan, env) ==> R.Reproduces(plan, Left(flags, plan, env), env) == R.Reproduces(plan, flags, env)
    ensures BlueGreenWorker(plan, env) && R.Reproduces(plan, flags, env) ==> !R.Reproduces(plan, Left(flags, plan, env), env)
  {
    var once := R.Resolution(R.Restored(flags, plan), R.Synthetic(plan), env);
    assert R.Restored(once.0, plan).(blueGreen := flags.blueGreen, replicas := flags.replicas) == R.Restored(flags, plan);
  }

  /** Resolving it twice leaves what resolving it once leaves. */
  lemma LeftTwice(plan: R.Plan, flags: R.Flags, env: R.Env)
    ensures Leftover(Left(Left(flags, plan, env), plan, env)) == Leftover(Left(flags, plan, env))
  {
    var once := Left(flags, plan, env);
    LeavesBehind(plan, once, env);
    LeavesBehind(plan, flags, env);
  }

  predicate OnlyPlan(xs: seq<Attempt>, plan: nat)
    decreases |xs|
  {
    |xs| == 0 || (xs[0].plan == plan && OnlyPlan(xs[1..], plan))
  }

  /** The same stores; the plan reproduces itself in both or in neither, and
      resolving it would leave the same in both. */
  ghost predicate AlikeFor(s: Process, t: Process, plan: R.Plan, env: R.Env) {
    && SameStores(s, t) && R.Reproduces(plan, s.flags, env) == R.Reproduces(plan, t.flags, env)
    && Leftover(Left(s.flags, plan, env)) == Leftover(Left(t.flags, plan, env))
  }

  lemma SameLeftovers(f: R.Flags, g: R.Flags, plan: R.Plan, env: R.Env)
    requires Leftover(f) == Leftover(g)
    ensures R.Reproduces(plan, f, env) == R.Reproduces(plan, g, env) && Left(f, plan, env) == Left(g, plan, env)
  {
    assert R.Restored(f, plan) == R.Restored(g, plan);
  }

  lemma AttemptedAlikeFor(s: Process, t: Process, a: Attempt, plans: nat -> R.Plan, envs: History -> R.Env)
    requires AlikeFor(s, t, plans(a.plan), envs(s.history))
    requires !Stopped(Attempted(s, a, plans, envs).1)
    ensures var (s', r) := Attempted(s, a, plans, envs); var (t', q) := Attempted(t, a, plans, envs);
      r == q && AlikeFor(s', t', plans(a.plan), envs(s'.history))
  {
    assert StoreOf(s, a.plan) == StoreOf(t, a.plan);
    StoresAlike(s, t, a, plans, envs);
    var s', t' := Attempted(s, a, plans, envs).0, Attempted(t, a, plans, envs).0;
    assert Resolves(s, a) && Resolves(t, a);
    SameLeftovers(s'.flags, t'.flags, plans(a.plan), envs(s'.history));
  }

  lemma StoppedAlikeFor(s: Process, t: Process, a: Attempt, plans: nat -> R.Plan, envs: History -> R.Env)
    requires AlikeFor(s, t, plans(a.plan), envs(s.history)) && !BlueGreenWorker(plans(a.plan), envs(s.history))
    requires Stopped(Attempted(s, a, plans, envs).1)
    ensures AlikeFor(Attempted(s, a, plans, envs).0, t, plans(a.plan), envs(s.history))
  {
    OwnLeftovers(plans(a.plan), s.flags, envs(s.history));
    LeftTwice(plans(a.plan), s.flags, envs(s.history));
    StoppedStores(s, t, a, plans, envs);
  }

  /** In a process that applies one plan only, every refusal is erasable, by
      drift, authorization or anything else, whatever its execution changes, for
      every plan but a worker resolved to blue-green. */
  lemma {:induction false} OnePlanRefusalsAreErasable(s: Process, t: Process, xs: seq<Attempt>, plan: nat, plans: nat -> R.Plan, envs: History -> R.Env)
    requires OnlyPlan(xs, plan) && AlikeFor(s, t, plans(plan), envs(s.history))
    requires forall h :: !BlueGreenWorker(plans(plan), envs(h))
    ensures SameStores(Run(s, xs, plans, envs), Run(t, Erase(s, xs, plans, envs), plans, envs))
    ensures Replies(t, Erase(s, xs, plans, envs), plans, envs) == Kept(Replies(s, xs, plans, envs))
    decreases |xs|
  {
    if |xs| > 0 {
      var (next, reply) := Attempted(s, xs[0], plans, envs);
      var rest := Erase(next, xs[1..], plans, envs);
      assert Replies(s, xs, plans, envs)[1..] == Replies(next, xs[1..], plans, envs);
      if Stopped(reply) {
        StoppedAlikeFor(s, t, xs[0], plans, envs);
        StoppedKeepsStores(s, xs[0], plans, envs);
        OnePlanRefusalsAreErasable(next, t, xs[1..], plan, plans, envs);
        assert Erase(s, xs, plans, envs) == rest;
      } else {
        AttemptedAlikeFor(s, t, xs[0], plans, envs);
        OnePlanRefusalsAreErasable(next, Attempted(t, xs[0], plans, envs).0, xs[1..], plan, plans, envs);
        assert Erase(s, xs, plans, envs)[1..] == rest;
      }
    }
  }

  /** For that one the exception is real: after a refusal for want of
      authorization the permitted attempt is refused for drift, while it would
      have got through as the first. */
  lemma WorkerRefusalIsNotErasable(s: Process, plan: nat, script: Script, plans: nat -> R.Plan, envs: History -> R.Env)
    requires StoreOf(s, plan).status == Created
    requires BlueGreenWorker(plans(plan), envs(s.history)) && R.Reproduces(plans(plan), s.flags, envs(s.history))
    ensures var refused, permitted := Attempt(plan, false, true, script), Attempt(plan, false, false, script);
      && Attempted(s, refused, plans, envs).1 == Refused
      && Attempted(Attempted(s, refused, plans, envs).0, permitted, plans, envs).1 == Refused
      && Attempted(s, permitted, plans, envs).1 != Refused
  {
    OwnLeftovers(plans(plan), s.flags, envs(s.history));
  }

  // ---- Another plan ------------------------------------------------------

  const Directory: string := "/srv/app"

  function AnyDirectory(dir: string): bool { true }
  function AnyPort(port: int): bool { true }
  function Same(dir: string): Option<string> { Some(dir) }
  function NoFile(dir: string): R.Loaded { R.Missing }
  function GoProject(dir: string): Option<string> { Some("go") }

  const Host := R.Env(R.Missing, NoFile, Same, AnyDirectory, R.App(8080, Directory), R.NoState, AnyPort, GoProject)
  const ClassicPlan := R.Plan(8080, false, R.Classic, false, 0, 0, Directory, R.Classic, 0, "go")
  const BlueGreenPlan := R.Plan(8080, false, R.BlueGreen, false, 0, 0, Directory, R.BlueGreen, 0, "go")
  const FreshGlobals := R.Flags(8080, R.Unset, false, 0, 0, "", None)

  function Hosts(h: History): R.Env { Host }

  function Plans(k: nat): R.Plan { if k == 0 then BlueGreenPlan else ClassicPlan }

  /** An input: in a fresh process a blue-green plan is refused for want of
      authorization, and a classic plan, which would have got through, then
      drifts. */
  lemma RefusalOfAnotherPlanIsNotErasable(script: Script)
    ensures var s := Process(FreshGlobals, map[], []);
      var refused, permitted := Attempt(0, false, true, script), Attempt(1, false, false, script);
      && Attempted(s, refused, Plans, Hosts).1 == Refused
      && Attempted(Attempted(s, refused, Plans, Hosts).0, permitted, Plans, Hosts).1 == Refused
      && Attempted(s, permitted, Plans, Hosts).1 != Refused
  {
    assert R.Reproduces(ClassicPlan, FreshGlobals, Host);
    assert Left(FreshGlobals, BlueGreenPlan, Host).blueGreen;
    assert !R.Reproduces(ClassicPlan, Left(FreshGlobals, BlueGreenPlan, Host), Host);
  }
}

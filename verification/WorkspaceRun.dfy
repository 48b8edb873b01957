/** Workspace build and deploy (cmd/workspace_build.go,
    cmd/workspace_deploy.go) on top of the worker pool and the dependency levels.

    The two share one loop: run a level through the pool, record each
    service's outcome as it ends, stop at the first failing level, save the
    workspace state either way.  A schedule per level stands for the
    interleaving the scheduler picks; the outcome of every service function is
    part of it. */
module WorkspaceRun {
  import opened Names
  import opened Options
  import opened WorkerPool
  import Topo

  datatype Event = Started(name: Name) | Finished(name: Name, ok: bool)

  // ---- One level ---------------------------------------------------------

  /** A schedule that runs the pool for `names` to its return. */
  ghost predicate Complete(names: seq<Name>, concurrency: int, acts: seq<Action>) {
    Playable(Init(|names|, concurrency), acts) && Play(Init(|names|, concurrency), acts).caller.Returned?
  }

  ghost predicate LevelSucceeded(names: seq<Name>, concurrency: int, acts: seq<Action>)
    requires Complete(names, concurrency, acts)
  {
    Play(Init(|names|, concurrency), acts).caller.error == None
  }

  function Emit(names: seq<Name>, a: Action): seq<Event> {
    match a
    case TakeSemaphore(i) => if i < |names| then [Started(names[i])] else []
    case Succeed(i) => if i < |names| then [Finished(names[i], true)] else []
    case Fail(i) => if i < |names| then [Finished(names[i], false)] else []
    case _ => []
  }

  function LevelLog(names: seq<Name>, acts: seq<Action>): seq<Event> {
    if |acts| == 0 then [] else LevelLog(names, acts[..|acts| - 1]) + Emit(names, acts[|acts| - 1])
  }

  lemma {:induction false} EmittedBy(names: seq<Name>, acts: seq<Action>, e: Event)
    ensures e in LevelLog(names, acts) <==> exists a :: a in acts && e in Emit(names, a)
  {
    if |acts| > 0 {
      var front, last := acts[..|acts| - 1], acts[|acts| - 1];
      EmittedBy(names, front, e);
      assert acts == front + [last];
    }
  }

  /** What the pool remembers about a service is what its steps did. */
  lemma {:induction false} OutcomeOf(s: Pool, acts: seq<Action>, i: nat)
    requires Inv(s) && Playable(s, acts) && i < |s.workers|
    ensures i < |Play(s, acts).workers|
    ensures var w, v := s.workers[i], Play(s, acts).workers[i];
      && (v.outcome == Succeeded <==> w.outcome == Succeeded || Succeed(i) in acts)
      && (v.outcome == Failed <==> w.outcome == Failed || Fail(i) in acts)
      && (v.runs > 0 <==> w.runs > 0 || TakeSemaphore(i) in acts)
    decreases |acts|
  {
    if |acts| > 0 {
      StepInv(s, acts[0]);
      OutcomeOf(Step(s, acts[0]), acts[1..], i);
      StepOutcome(s, acts[0], i);
      assert acts == [acts[0]] + acts[1..];
    }
  }

  lemma StepOutcome(s: Pool, a: Action, i: nat)
    requires Inv(s) && Enabled(s, a) && i < |s.workers|
    ensures var w, v := s.workers[i], Step(s, a).workers[i];
      && (v.outcome == Succeeded <==> w.outcome == Succeeded || a == Succeed(i))
      && (v.outcome == Failed <==> w.outcome == Failed || a == Fail(i))
      && (v.runs > 0 <==> w.runs > 0 || a == TakeSemaphore(i))
  {
    assert WorkerOk(s.workers[i]);
  }

  /** The log of a completed level: a service started exactly when it
      finished, it finished one way only, and the level succeeded exactly when
      every service finished well. */
  lemma LevelLogMeans(names: seq<Name>, concurrency: int, acts: seq<Action>)
    requires Distinct(names) && Complete(names, concurrency, acts)
    ensures forall e :: e in LevelLog(names, acts) ==> e.name in names
    ensures forall x :: x in names ==>
      (Started(x) in LevelLog(names, acts) <==>
        Finished(x, true) in LevelLog(names, acts) || Finished(x, false) in LevelLog(names, acts))
    ensures forall x :: x in names ==>
      !(Finished(x, true) in LevelLog(names, acts) && Finished(x, false) in LevelLog(names, acts))
    ensures LevelSucceeded(names, concurrency, acts) <==>
      forall x :: x in names ==> Finished(x, true) in LevelLog(names, acts)
  {
    var s := Init(|names|, concurrency);
    var t := Play(s, acts);
    InitInv(|names|, concurrency);
    ReturnIsTruthful(|names|, concurrency, acts);
    forall e | e in LevelLog(names, acts) ensures e.name in names { EmittedBy(names, acts, e); }
    forall i | 0 <= i < |names| ensures ServiceFacts(names, acts, t, i) {
      OutcomeOf(s, acts, i);
      EventsOf(names, acts, i);
    }
    forall x | x in names ensures exists i :: 0 <= i < |names| && names[i] == x && ServiceFacts(names, acts, t, i) {
      var i :| 0 <= i < |names| && names[i] == x;
      assert ServiceFacts(names, acts, t, i);
    }
    if forall x :: x in names ==> Finished(x, true) in LevelLog(names, acts) {
      forall i | 0 <= i < |names| ensures t.workers[i].outcome == Succeeded {
        assert names[i] in names && ServiceFacts(names, acts, t, i);
      }
    }
  }

  ghost predicate ServiceFacts(names: seq<Name>, acts: seq<Action>, t: Pool, i: nat) {
    && i < |names| && i < |t.workers| && Ended(t.workers[i])
    && (Started(names[i]) in LevelLog(names, acts) <==> t.workers[i].runs > 0)
    && (Finished(names[i], true) in LevelLog(names, acts) <==> t.workers[i].outcome == Succeeded)
    && (Finished(names[i], false) in LevelLog(names, acts) <==> t.workers[i].outcome == Failed)
  }

  /** With distinct names, an event of a service comes from its own steps. */
  lemma EventsOf(names: seq<Name>, acts: seq<Action>, i: nat)
    requires Distinct(names) && i < |names|
    ensures Started(names[i]) in LevelLog(names, acts) <==> TakeSemaphore(i) in acts
    ensures Finished(names[i], true) in LevelLog(names, acts) <==> Succeed(i) in acts
    ensures Finished(names[i], false) in LevelLog(names, acts) <==> Fail(i) in acts
  {
    EmittedBy(names, acts, Started(names[i]));
    EmittedBy(names, acts, Finished(names[i], true));
    EmittedBy(names, acts, Finished(names[i], false));
    forall a { EmitOwner(names, a, i); }
  }

  lemma EmitOwner(names: seq<Name>, a: Action, i: nat)
    requires Distinct(names) && i < |names|
    ensures Started(names[i]) in Emit(names, a) <==> a == TakeSemaphore(i)
    ensures Finished(names[i], true) in Emit(names, a) <==> a == Succeed(i)
    ensures Finished(names[i], false) in Emit(names, a) <==> a == Fail(i)
  {
  }

  // ---- All levels --------------------------------------------------------

  ghost predicate Scheduled(levels: seq<seq<Name>>, concurrency: int, schedules: seq<seq<Action>>) {
    && |schedules| == |levels|
    && (forall k :: 0 <= k < |levels| ==> Complete(levels[k], concurrency, schedules[k]))
  }

  /** How many levels start: all of them, or up to and with the first failing
      one. */
  ghost function LevelsRun(levels: seq<seq<Name>>, concurrency: int, schedules: seq<seq<Action>>, from: nat): (m: nat)
    requires Scheduled(levels, concurrency, schedules) && from <= |levels|
    ensures from <= m <= |levels|
    ensures forall k :: from <= k < m - 1 ==> LevelSucceeded(levels[k], concurrency, schedules[k])
    ensures m < |levels| ==> m > from && !LevelSucceeded(levels[m - 1], concurrency, schedules[m - 1])
    decreases |levels| - from
  {
    if from == |levels| then from
    else if LevelSucceeded(levels[from], concurrency, schedules[from]) then LevelsRun(levels, concurrency, schedules, from + 1)
    else from + 1
  }

  function MeshLog(levels: seq<seq<Name>>, schedules: seq<seq<Action>>, m: nat): seq<Event>
    requires m <= |levels| && m <= |schedules|
  {
    if m == 0 then [] else MeshLog(levels, schedules, m - 1) + LevelLog(levels[m - 1], schedules[m - 1])
  }

  /** Which level an event belongs to, and what came before it. */
  lemma {:induction false} Locate(levels: seq<seq<Name>>, schedules: seq<seq<Action>>, m: nat, t: nat) returns (k: nat)
    requires m <= |levels| && m <= |schedules| && t < |MeshLog(levels, schedules, m)|
    ensures k < m
    ensures |MeshLog(levels, schedules, k)| <= t
    ensures MeshLog(levels, schedules, k) <= MeshLog(levels, schedules, m)
    ensures MeshLog(levels, schedules, m)[t] in LevelLog(levels[k], schedules[k])
  {
    if t < |MeshLog(levels, schedules, m - 1)| {
      k := Locate(levels, schedules, m - 1, t);
    } else {
      k := m - 1;
    }
  }

  lemma InMesh(levels: seq<seq<Name>>, schedules: seq<seq<Action>>, m: nat, e: Event)
    requires m <= |levels| && m <= |schedules|
    ensures e in MeshLog(levels, schedules, m) <==> exists k :: 0 <= k < m && e in LevelLog(levels[k], schedules[k])
  {
    if e in MeshLog(levels, schedules, m) {
      var k := MeshFind(levels, schedules, m, e);
    }
    forall k | 0 <= k < m && e in LevelLog(levels[k], schedules[k]) ensures e in MeshLog(levels, schedules, m) {
      MeshHas(levels, schedules, m, k, e);
    }
  }

  lemma {:induction false} MeshFind(levels: seq<seq<Name>>, schedules: seq<seq<Action>>, m: nat, e: Event) returns (k: nat)
    requires m <= |levels| && m <= |schedules| && e in MeshLog(levels, schedules, m)
    ensures k < m && e in LevelLog(levels[k], schedules[k])
  {
    k := m - 1;
    if e in MeshLog(levels, schedules, k) { k := MeshFind(levels, schedules, k, e); }
  }

  lemma {:induction false} MeshHas(levels: seq<seq<Name>>, schedules: seq<seq<Action>>, m: nat, k: nat, e: Event)
    requires k < m && m <= |levels| && m <= |schedules| && e in LevelLog(levels[k], schedules[k])
    ensures e in MeshLog(levels, schedules, m)
  {
    if k < m - 1 { MeshHas(levels, schedules, m - 1, k, e); }
  }

  /** A chain of declared dependencies from `p[0]` to the last entry. */
  ghost predicate DependencyPath(deps: Topo.Graph, p: seq<Name>) {
    |p| >= 2 && forall i :: 0 <= i < |p| - 1 ==> p[i + 1] in Topo.DepsOf(deps, p[i])
  }

  lemma {:induction false} MembersGrow(levels: seq<seq<Name>>, j: nat, k: nat)
    requires j <= k <= |levels|
    ensures Topo.Members(levels[..j]) <= Topo.Members(levels[..k])
    decreases k - j
  {
    if j < k {
      assert levels[..k][..k - 1] == levels[..k - 1];
      MembersGrow(levels, j, k - 1);
    }
  }

  lemma DependencyPlaced(deps: Topo.Graph, levels: seq<seq<Name>>, k: nat, n: Name, d: Name)
    requires Topo.Layered(deps, levels) && k <= |levels|
    requires n in Topo.Members(levels[..k]) && d in Topo.DepsOf(deps, n)
    ensures d in Topo.Members(levels[..k])
  {
    var j := Topo.MemberLevel(levels[..k], n);
    assert Topo.LevelOk(deps, levels[..j], levels[j]);
    MembersGrow(levels, j, k);
  }

  /** Everything a service of level k reaches is placed before level k. */
  lemma {:induction false} PathPlaced(deps: Topo.Graph, levels: seq<seq<Name>>, k: nat, p: seq<Name>)
    requires Topo.Layered(deps, levels) && k < |levels|
    requires DependencyPath(deps, p) && p[0] in levels[k]
    ensures p[|p| - 1] in Topo.Members(levels[..k])
    decreases |p|
  {
    assert Topo.LevelOk(deps, levels[..k], levels[k]);
    if |p| == 2 {
      assert p[1] in Topo.DepsOf(deps, p[0]);
    } else {
      var q := p[..|p| - 1];
      PathPlaced(deps, levels, k, q);
      assert p[|p| - 2 + 1] in Topo.DepsOf(deps, p[|p| - 2]);
      DependencyPlaced(deps, levels, k, q[|q| - 1], p[|p| - 1]);
    }
  }

  /** When level k has started, everything placed before it has succeeded. */
  lemma EarlierSucceeded(deps: Topo.Graph, levels: seq<seq<Name>>, concurrency: int, schedules: seq<seq<Action>>, k: nat, d: Name)
    requires Topo.Layered(deps, levels) && Scheduled(levels, concurrency, schedules)
    requires k < LevelsRun(levels, concurrency, schedules, 0)
    requires d in Topo.Members(levels[..k])
    ensures Finished(d, true) in MeshLog(levels, schedules, k)
  {
    var j := Topo.MemberLevel(levels[..k], d);
    assert Topo.LevelOk(deps, levels[..j], levels[j]);
    assert LevelSucceeded(levels[j], concurrency, schedules[j]);
    LevelLogMeans(levels[j], concurrency, schedules[j]);
    InMesh(levels, schedules, k, Finished(d, true));
  }

  /** The log of a whole run. */
  ghost function RunLog(levels: seq<seq<Name>>, concurrency: int, schedules: seq<seq<Action>>): seq<Event>
    requires Scheduled(levels, concurrency, schedules)
  {
    MeshLog(levels, schedules, LevelsRun(levels, concurrency, schedules, 0))
  }

  predicate StartsAt(log: seq<Event>, t: nat, n: Name) {
    t < |log| && log[t] == Started(n)
  }

  /** Dependency safety, over every run: when a service starts, every service
      it transitively depends on has already finished successfully. */
  lemma DependenciesFirst(deps: Topo.Graph, levels: seq<seq<Name>>, concurrency: int, schedules: seq<seq<Action>>, t: nat, p: seq<Name>)
    requires Topo.Layered(deps, levels) && Scheduled(levels, concurrency, schedules) && DependencyPath(deps, p)
    requires StartsAt(RunLog(levels, concurrency, schedules), t, p[0])
    ensures Finished(p[|p| - 1], true) in RunLog(levels, concurrency, schedules)[..t]
  {
    var m := LevelsRun(levels, concurrency, schedules, 0);
    var k := Locate(levels, schedules, m, t);
    assert Topo.LevelOk(deps, levels[..k], levels[k]);
    LevelLogMeans(levels[k], concurrency, schedules[k]);
    PathPlaced(deps, levels, k, p);
    EarlierSucceeded(deps, levels, concurrency, schedules, k, p[|p| - 1]);
    EarlierEvent(MeshLog(levels, schedules, k), MeshLog(levels, schedules, m), t, Finished(p[|p| - 1], true));
  }

  lemma EarlierEvent(before: seq<Event>, all: seq<Event>, t: nat, e: Event)
    requires before <= all && |before| <= t <= |all| && e in before
    ensures e in all[..t]
  {
    var u :| 0 <= u < |before| && before[u] == e;
    assert all[..t][u] == e;
  }

  /** Level k does not start: the run stops before it. */
  ghost predicate StopsBefore(levels: seq<seq<Name>>, concurrency: int, schedules: seq<seq<Action>>, k: nat)
    requires Scheduled(levels, concurrency, schedules)
  {
    LevelsRun(levels, concurrency, schedules, 0) <= k
  }

  /** It stops before every level after a failing one, and only before those. */
  lemma StopsAfterAFailure(levels: seq<seq<Name>>, concurrency: int, schedules: seq<seq<Action>>, k: nat)
    requires Scheduled(levels, concurrency, schedules) && k < |levels|
    ensures StopsBefore(levels, concurrency, schedules, k) <==>
      exists j :: 0 <= j < k && !LevelSucceeded(levels[j], concurrency, schedules[j])
  {
    var m := LevelsRun(levels, concurrency, schedules, 0);
    if m <= k {
      assert !LevelSucceeded(levels[m - 1], concurrency, schedules[m - 1]);
    }
  }

  /** After a failure no later level starts: every event of the run is of a
      service placed before the level it stops at. */
  lemma FailureHaltsTheMesh(deps: Topo.Graph, levels: seq<seq<Name>>, concurrency: int, schedules: seq<seq<Action>>, k: nat)
    requires Topo.Layered(deps, levels) && Scheduled(levels, concurrency, schedules)
    requires k <= |levels| && StopsBefore(levels, concurrency, schedules, k)
    ensures forall e :: e in RunLog(levels, concurrency, schedules) ==> e.name in Topo.Members(levels[..k])
  {
    forall e | e in RunLog(levels, concurrency, schedules) ensures e.name in Topo.Members(levels[..k]) {
      var i := EventLevel(deps, levels, concurrency, schedules, e);
      MembersGrow(levels, i + 1, k);
      assert levels[..i + 1][..i] == levels[..i];
    }
  }

  /** So a service of a later level leaves none. */
  lemma LaterLevelIsSilent(deps: Topo.Graph, levels: seq<seq<Name>>, concurrency: int, schedules: seq<seq<Action>>, j: nat, e: Event)
    requires Topo.Layered(deps, levels) && Scheduled(levels, concurrency, schedules)
    requires j < |levels| && StopsBefore(levels, concurrency, schedules, j)
    ensures e in RunLog(levels, concurrency, schedules) ==> e.name !in levels[j]
  {
    FailureHaltsTheMesh(deps, levels, concurrency, schedules, j);
    assert Topo.LevelOk(deps, levels[..j], levels[j]);
  }

  lemma EventLevel(deps: Topo.Graph, levels: seq<seq<Name>>, concurrency: int, schedules: seq<seq<Action>>, e: Event) returns (i: nat)
    requires Topo.Layered(deps, levels) && Scheduled(levels, concurrency, schedules)
    requires e in RunLog(levels, concurrency, schedules)
    ensures i < LevelsRun(levels, concurrency, schedules, 0) && e.name in levels[i]
  {
    var m := LevelsRun(levels, concurrency, schedules, 0);
    InMesh(levels, schedules, m, e);
    i :| 0 <= i < m && e in LevelLog(levels[i], schedules[i]);
    assert Topo.LevelOk(deps, levels[..i], levels[i]);
    LevelLogMeans(levels[i], concurrency, schedules[i]);
  }

  /** A service never has two verdicts, and it has one exactly when it ran. */
  lemma OneVerdict(deps: Topo.Graph, levels: seq<seq<Name>>, concurrency: int, schedules: seq<seq<Action>>, m: nat, x: Name)
    requires Topo.Layered(deps, levels) && Scheduled(levels, concurrency, schedules) && m <= |levels|
    ensures var log := MeshLog(levels, schedules, m);
      && !(Finished(x, true) in log && Finished(x, false) in log)
      && (Started(x) in log <==> Finished(x, true) in log || Finished(x, false) in log)
  {
    forall k | 0 <= k < m ensures VerdictIn(levels, schedules, k, x) {
      assert Topo.LevelOk(deps, levels[..k], levels[k]);
      LevelLogMeans(levels[k], concurrency, schedules[k]);
    }
    VerdictUnion(deps, levels, schedules, m, x);
  }

  lemma {:induction false} VerdictUnion(deps: Topo.Graph, levels: seq<seq<Name>>, schedules: seq<seq<Action>>, m: nat, x: Name)
    requires Topo.Layered(deps, levels) && m <= |levels| == |schedules|
    requires forall k :: 0 <= k < m ==> VerdictIn(levels, schedules, k, x)
    ensures var log := MeshLog(levels, schedules, m);
      && !(Finished(x, true) in log && Finished(x, false) in log)
      && (Started(x) in log <==> Finished(x, true) in log || Finished(x, false) in log)
      && (Started(x) in log ==> exists k :: 0 <= k < m && x in levels[k])
  {
    if m > 0 {
      VerdictUnion(deps, levels, schedules, m - 1, x);
      assert VerdictIn(levels, schedules, m - 1, x);
      if Started(x) in MeshLog(levels, schedules, m - 1) && x in levels[m - 1] {
        var k :| 0 <= k < m - 1 && x in levels[k];
        Topo.LevelUnique(deps, levels, x, k, m - 1);
      }
    }
  }

  ghost predicate VerdictIn(levels: seq<seq<Name>>, schedules: seq<seq<Action>>, k: nat, x: Name)
    requires k < |levels| && k < |schedules|
  {
    var log := LevelLog(levels[k], schedules[k]);
    && (Started(x) in log || Finished(x, true) in log || Finished(x, false) in log ==> x in levels[k])
    && (Started(x) in log <==> Finished(x, true) in log || Finished(x, false) in log)
    && !(Finished(x, true) in log && Finished(x, false) in log)
  }

  // ---- The orchestrator --------------------------------------------------

  datatype Operation = Build | Deploy

  datatype Verdict = Verdict(operation: Operation, ok: bool)

  /** The workspace state after a log: a member's entry is overwritten by each
      of its verdicts, and a name that is not a member is ignored. */
  function Recorded(members: set<Name>, prior: map<Name, Verdict>, op: Operation, log: seq<Event>): map<Name, Verdict> {
    if |log| == 0 then prior
    else
      var before := Recorded(members, prior, op, log[..|log| - 1]);
      match log[|log| - 1]
      case Started(_) => before
      case Finished(x, ok) => if x in members then before[x := Verdict(op, ok)] else before
  }

  lemma {:induction false} RecordedAppend(members: set<Name>, prior: map<Name, Verdict>, op: Operation, a: seq<Event>, b: seq<Event>)
    ensures Recorded(members, prior, op, a + b) == Recorded(members, Recorded(members, prior, op, a), op, b)
    decreases |b|
  {
    if |b| == 0 {
      assert a + b == a;
    } else {
      var front := b[..|b| - 1];
      RecordedAppend(members, prior, op, a, front);
      assert (a + b)[..|a + b| - 1] == a + front;
    }
  }

  /** A member's entry is its verdict when it has one, else the prior entry. */
  lemma {:induction false} RecordedMeans(members: set<Name>, prior: map<Name, Verdict>, op: Operation, log: seq<Event>, x: Name)
    requires !(Finished(x, true) in log && Finished(x, false) in log)
    ensures var r := Recorded(members, prior, op, log);
      if x in members && Finished(x, true) in log then x in r && r[x] == Verdict(op, true)
      else if x in members && Finished(x, false) in log then x in r && r[x] == Verdict(op, false)
      else (x in r <==> x in prior) && (x in prior ==> r[x] == prior[x])
  {
    if |log| > 0 {
      var front, last := log[..|log| - 1], log[|log| - 1];
      assert log == front + [last];
      RecordedMeans(members, prior, op, front, x);
    }
  }

  /** The pool after k steps of a complete schedule: the rest can be played and
      ends where the whole schedule ends. */
  ghost predicate Remains(pool: Pool, names: seq<Name>, concurrency: int, acts: seq<Action>, k: nat)
    requires Complete(names, concurrency, acts)
  {
    && k <= |acts| && |pool.workers| == |names|
    && Playable(pool, acts[k..])
    && Play(pool, acts[k..]) == Play(Init(|names|, concurrency), acts)
  }

  lemma RemainsStep(pool: Pool, names: seq<Name>, concurrency: int, acts: seq<Action>, k: nat)
    requires Complete(names, concurrency, acts)
    requires Remains(pool, names, concurrency, acts, k) && k < |acts|
    ensures Enabled(pool, acts[k])
    ensures acts[k].Succeed? || acts[k].Fail? ==> acts[k].i < |names|
    ensures Remains(Step(pool, acts[k]), names, concurrency, acts, k + 1)
  {
    assert acts[k..][0] == acts[k] && acts[k..][1..] == acts[k + 1..];
  }

  /** One more step of the schedule, in the log and in the state. */
  lemma LogStep(members: set<Name>, prior: map<Name, Verdict>, op: Operation, names: seq<Name>, acts: seq<Action>, k: nat)
    requires k < |acts|
    requires acts[k].Succeed? || acts[k].Fail? ==> acts[k].i < |names|
    ensures LevelLog(names, acts[..k + 1]) == LevelLog(names, acts[..k]) + Emit(names, acts[k])
    ensures var before, a := Recorded(members, prior, op, LevelLog(names, acts[..k])), acts[k];
      Recorded(members, prior, op, LevelLog(names, acts[..k + 1])) ==
        if (a.Succeed? || a.Fail?) && names[a.i] in members then before[names[a.i] := Verdict(op, a.Succeed?)] else before
  {
    assert acts[..k + 1][..k] == acts[..k];
    RecordedAppend(members, prior, op, LevelLog(names, acts[..k]), Emit(names, acts[k]));
    EmitRecorded(members, Recorded(members, prior, op, LevelLog(names, acts[..k])), op, names, acts[k]);
  }

  lemma EmitRecorded(members: set<Name>, prior: map<Name, Verdict>, op: Operation, names: seq<Name>, a: Action)
    requires a.Succeed? || a.Fail? ==> a.i < |names|
    ensures Recorded(members, prior, op, Emit(names, a)) ==
      if (a.Succeed? || a.Fail?) && names[a.i] in members then prior[names[a.i] := Verdict(op, a.Succeed?)] else prior
  {
    if a.Succeed? || a.Fail? {
      assert Emit(names, a)[..0] == [];
    }
  }

  /** What the final state must say, given the log: an entry for exactly the
      members that ran, telling how they ended; every other entry as before. */
  ghost predicate Reflects(members: set<Name>, prior: map<Name, Verdict>, op: Operation, log: seq<Event>, results: map<Name, Verdict>) {
    forall x :: EntryOk(members, prior, op, log, results, x)
  }

  ghost predicate EntryOk(members: set<Name>, prior: map<Name, Verdict>, op: Operation, log: seq<Event>, results: map<Name, Verdict>, x: Name) {
    if x in members && Started(x) in log then
      x in results && results[x] == Verdict(op, Finished(x, true) in log)
    else
      (x in results <==> x in prior) && (x in prior ==> results[x] == prior[x])
  }

  lemma MeshReflects(deps: Topo.Graph, levels: seq<seq<Name>>, concurrency: int, schedules: seq<seq<Action>>, m: nat,
                     members: set<Name>, prior: map<Name, Verdict>, op: Operation)
    requires Topo.Layered(deps, levels) && Scheduled(levels, concurrency, schedules) && m <= |levels|
    ensures Reflects(members, prior, op, MeshLog(levels, schedules, m), Recorded(members, prior, op, MeshLog(levels, schedules, m)))
  {
    var log := MeshLog(levels, schedules, m);
    forall x ensures EntryOk(members, prior, op, log, Recorded(members, prior, op, log), x) {
      OneVerdict(deps, levels, concurrency, schedules, m, x);
      RecordedMeans(members, prior, op, log, x);
    }
  }

  lemma AllFinished(deps: Topo.Graph, levels: seq<seq<Name>>, concurrency: int, schedules: seq<seq<Action>>, x: Name, k: nat)
    requires Topo.Layered(deps, levels) && Scheduled(levels, concurrency, schedules)
    requires forall j :: 0 <= j < |levels| ==> LevelSucceeded(levels[j], concurrency, schedules[j])
    requires k < |levels| && x in levels[k]
    ensures Finished(x, true) in MeshLog(levels, schedules, |levels|)
  {
    assert Topo.LevelOk(deps, levels[..k], levels[k]);
    LevelLogMeans(levels[k], concurrency, schedules[k]);
    InMesh(levels, schedules, |levels|, Finished(x, true));
  }

  /** The first k levels ended well. */
  ghost predicate AllSucceeded(levels: seq<seq<Name>>, concurrency: int, schedules: seq<seq<Action>>, k: nat)
    requires Scheduled(levels, concurrency, schedules) && k <= |levels|
  {
    forall j :: 0 <= j < k ==> LevelSucceeded(levels[j], concurrency, schedules[j])
  }

  /** One level further, or the end of the run. */
  lemma LevelsStep(levels: seq<seq<Name>>, concurrency: int, schedules: seq<seq<Action>>, k: nat)
    requires Scheduled(levels, concurrency, schedules) && k < |levels|
    requires AllSucceeded(levels, concurrency, schedules, k)
    ensures if LevelSucceeded(levels[k], concurrency, schedules[k])
            then AllSucceeded(levels, concurrency, schedules, k + 1)
                 && LevelsRun(levels, concurrency, schedules, k) == LevelsRun(levels, concurrency, schedules, k + 1)
            else !AllSucceeded(levels, concurrency, schedules, |levels|) && LevelsRun(levels, concurrency, schedules, k) == k + 1
  {
  }

  lemma {:induction false} AllRun(levels: seq<seq<Name>>, concurrency: int, schedules: seq<seq<Action>>, k: nat)
    requires Scheduled(levels, concurrency, schedules) && k <= |levels|
    requires AllSucceeded(levels, concurrency, schedules, |levels|)
    ensures LevelsRun(levels, concurrency, schedules, k) == |levels|
    decreases |levels| - k
  {
    if k < |levels| { AllRun(levels, concurrency, schedules, k + 1); }
  }

  lemma AllEnded(deps: Topo.Graph, levels: seq<seq<Name>>, concurrency: int, schedules: seq<seq<Action>>)
    requires Topo.Layered(deps, levels) && Scheduled(levels, concurrency, schedules)
    requires AllSucceeded(levels, concurrency, schedules, |levels|)
    ensures forall k, x :: 0 <= k < |levels| && x in levels[k] ==>
      Finished(x, true) in MeshLog(levels, schedules, LevelsRun(levels, concurrency, schedules, 0))
  {
    AllRun(levels, concurrency, schedules, 0);
    forall k, x | 0 <= k < |levels| && x in levels[k] ensures Finished(x, true) in MeshLog(levels, schedules, |levels|) {
      AllFinished(deps, levels, concurrency, schedules, x, k);
    }
  }

  class Orchestrator {
    const members: set<Name>
    const operation: Operation
    var results: map<Name, Verdict>
    var saved: map<Name, Verdict>
    var log: seq<Event>

    constructor (members: set<Name>, operation: Operation, results: map<Name, Verdict>)
      ensures this.members == members && this.operation == operation
      ensures this.results == results && saved == results && log == []
    {
      this.members, this.operation := members, operation;
      this.results, this.saved, this.log := results, results, [];
    }

    /** The part of the service function that runs under the print mutex. */
    method RecordServiceResult(name: Name, ok: bool)
      modifies this`results
      ensures results == if name in members then old(results)[name := Verdict(operation, ok)] else old(results)
    {
      if name in members {
        results := results[name := Verdict(operation, ok)];
      }
    }

    /** Drives the pool over one level along a schedule, recording outcomes. */
    method RunLevel(names: seq<Name>, concurrency: int, acts: seq<Action>) returns (failed: bool)
      requires Complete(names, concurrency, acts)
      modifies this`results, this`log
      ensures failed <==> !LevelSucceeded(names, concurrency, acts)
      ensures log == old(log) + LevelLog(names, acts)
      ensures results == Recorded(members, old(results), operation, LevelLog(names, acts))
    {
      var pool := Init(|names|, concurrency);
      var k := 0;
      assert acts[0..] == acts;
      while k < |acts|
        invariant k <= |acts|
        invariant Remains(pool, names, concurrency, acts, k)
        invariant log == old(log) + LevelLog(names, acts[..k])
        invariant results == Recorded(members, old(results), operation, LevelLog(names, acts[..k]))
      {
        var a := acts[k];
        RemainsStep(pool, names, concurrency, acts, k);
        LogStep(members, old(results), operation, names, acts, k);
        if a.Succeed? {
          RecordServiceResult(names[a.i], true);
        } else if a.Fail? {
          RecordServiceResult(names[a.i], false);
        }
        log := log + Emit(names, a);
        pool := Step(pool, a);
        k := k + 1;
      }
      assert acts[..|acts|] == acts;
      failed := pool.caller.error != None;
    }

    /** Level by level until one fails. */
    method RunLevels(levels: seq<seq<Name>>, concurrency: int, schedules: seq<seq<Action>>) returns (failed: bool)
      requires Scheduled(levels, concurrency, schedules) && log == []
      modifies this`results, this`log
      ensures log == MeshLog(levels, schedules, LevelsRun(levels, concurrency, schedules, 0))
      ensures results == Recorded(members, old(results), operation, log)
      ensures failed <==> !AllSucceeded(levels, concurrency, schedules, |levels|)
    {
      var k := 0;
      while k < |levels|
        invariant k <= |levels|
        invariant log == MeshLog(levels, schedules, k)
        invariant results == Recorded(members, old(results), operation, log)
        invariant LevelsRun(levels, concurrency, schedules, 0) == LevelsRun(levels, concurrency, schedules, k)
        invariant AllSucceeded(levels, concurrency, schedules, k)
      {
        failed := RunNext(levels, concurrency, schedules, k, old(results));
        LevelsStep(levels, concurrency, schedules, k);
        if failed {
          return true;
        }
        k := k + 1;
      }
      return false;
    }

    method RunNext(levels: seq<seq<Name>>, concurrency: int, schedules: seq<seq<Action>>, k: nat, ghost prior: map<Name, Verdict>)
      returns (failed: bool)
      requires Scheduled(levels, concurrency, schedules) && k < |levels|
      requires log == MeshLog(levels, schedules, k)
      requires results == Recorded(members, prior, operation, log)
      modifies this`results, this`log
      ensures log == MeshLog(levels, schedules, k + 1)
      ensures results == Recorded(members, prior, operation, log)
      ensures failed <==> !LevelSucceeded(levels[k], concurrency, schedules[k])
    {
      RecordedAppend(members, prior, operation, log, LevelLog(levels[k], schedules[k]));
      failed := RunLevel(levels[k], concurrency, schedules[k]);
    }

    /** Build or deploy every level.  Whatever the schedules and the outcomes:
        the log is that of the levels up to the first failing one; the state
        gets an entry for exactly the members that ran; and nil is returned
        exactly when no level failed and the state reached the disk, in which
        case every service of every level ended well. */
    method RunAll(ghost deps: Topo.Graph, levels: seq<seq<Name>>, concurrency: int, schedules: seq<seq<Action>>)
      returns (failed: bool, written: bool)
      requires Topo.Layered(deps, levels) && Scheduled(levels, concurrency, schedules)
      modifies this
      ensures log == MeshLog(levels, schedules, LevelsRun(levels, concurrency, schedules, 0))
      ensures Reflects(members, old(results), operation, log, results)
      ensures saved == if written then results else old(saved)
      ensures failed <==> !written || !AllSucceeded(levels, concurrency, schedules, |levels|)
      ensures !failed ==> forall k, x :: 0 <= k < |levels| && x in levels[k] ==> Finished(x, true) in log
    {
      log := [];
      failed := RunLevels(levels, concurrency, schedules);
      MeshReflects(deps, levels, concurrency, schedules, LevelsRun(levels, concurrency, schedules, 0), members, old(results), operation);
      if !failed {
        AllEnded(deps, levels, concurrency, schedules);
      }
      written := *;
      if written {
        saved := results;
      }
      failed := failed || !written;
    }
  }
}

/** Dependency levels (internal/workspace/graph.go, TopoLevels): Kahn's
    algorithm, one level at a time, over in-degree counters that it mutates.

    `names` are the services of a workspace, which never repeat; `deps` maps a
    service to its declared dependencies, which may repeat and may be unknown. */
module Topo {
  import opened Names

  type Graph = map<Name, seq<Name>>

  datatype Result =
    | Levels(levels: seq<seq<Name>>)
    | UnknownDependency(service: Name, dependency: Name)
    | Cycle

  function DepsOf(deps: Graph, n: Name): seq<Name> {
    if n in deps then deps[n] else []
  }

  // ---- What a correct answer is ------------------------------------------

  ghost function Members(levels: seq<seq<Name>>): set<Name> {
    if |levels| == 0 then {} else Members(levels[..|levels| - 1]) + Elements(levels[|levels| - 1])
  }

  ghost predicate Needs(deps: Graph, n: Name, level: seq<Name>) {
    exists d :: d in DepsOf(deps, n) && d in level
  }

  /** A level after the levels `before`: a sorted list of new services, each
      with all its dependencies placed before it, and — outside level 0 — with
      some dependency in the level just before, so nobody waits longer than
      needed. */
  ghost predicate LevelOk(deps: Graph, before: seq<seq<Name>>, level: seq<Name>) {
    && |level| > 0 && Sorted(level) && Distinct(level)
    && (forall n :: n in level ==> n !in Members(before))
    && (forall n, d :: n in level && d in DepsOf(deps, n) ==> d in Members(before))
    && (|before| > 0 ==> forall n :: n in level ==> Needs(deps, n, before[|before| - 1]))
  }

  ghost predicate Layered(deps: Graph, levels: seq<seq<Name>>) {
    forall k :: 0 <= k < |levels| ==> LevelOk(deps, levels[..k], levels[k])
  }

  ghost predicate IsLevelling(names: seq<Name>, deps: Graph, levels: seq<seq<Name>>) {
    Members(levels) == Elements(names) && Layered(deps, levels)
  }

  ghost predicate Known(names: seq<Name>, deps: Graph) {
    forall n, d :: n in names && d in DepsOf(deps, n) ==> d in names
  }

  /** A rank that falls along every dependency: the graph is acyclic. */
  ghost predicate IsRank(names: seq<Name>, deps: Graph, rank: map<Name, nat>) {
    && (forall n :: n in names ==> n in rank)
    && (forall n, d :: n in names && d in DepsOf(deps, n) && d in names ==> rank[d] < rank[n])
  }

  // ---- Counting ----------------------------------------------------------

  function Count(x: Name, xs: seq<Name>): nat {
    if |xs| == 0 then 0 else Count(x, xs[..|xs| - 1]) + (if xs[|xs| - 1] == x then 1 else 0)
  }

  /** How many entries of a dependency list are still outside `done`. */
  ghost function Remaining(xs: seq<Name>, done: set<Name>): nat {
    if |xs| == 0 then 0 else Remaining(xs[..|xs| - 1], done) + (if xs[|xs| - 1] !in done then 1 else 0)
  }

  lemma {:induction false} RemainingAfter(xs: seq<Name>, done: set<Name>, d: Name)
    requires d !in done
    ensures Remaining(xs, done + {d}) + Count(d, xs) == Remaining(xs, done)
  {
    if |xs| > 0 { RemainingAfter(xs[..|xs| - 1], done, d); }
  }

  lemma {:induction false} RemainingZero(xs: seq<Name>, done: set<Name>)
    ensures Remaining(xs, done) == 0 <==> forall d :: d in xs ==> d in done
  {
    if |xs| > 0 {
      var front := xs[..|xs| - 1];
      RemainingZero(front, done);
      assert xs == front + [xs[|xs| - 1]];
    }
  }

  lemma {:induction false} RemainingNone(xs: seq<Name>)
    ensures Remaining(xs, {}) == |xs|
  {
    if |xs| > 0 { RemainingNone(xs[..|xs| - 1]); }
  }

  /** Occurrences among the first k entries. */
  function CountTo(x: Name, xs: seq<Name>, k: nat): nat
    requires k <= |xs|
  {
    if k == 0 then 0 else CountTo(x, xs, k - 1) + (if xs[k - 1] == x then 1 else 0)
  }

  lemma {:induction false} CountToPrefix(x: Name, xs: seq<Name>, k: nat)
    requires k <= |xs|
    ensures CountTo(x, xs, k) == Count(x, xs[..k])
  {
    if k > 0 {
      CountToPrefix(x, xs, k - 1);
      assert xs[..k][..k - 1] == xs[..k - 1];
    }
  }

  lemma CountToAll(x: Name, xs: seq<Name>)
    ensures CountTo(x, xs, |xs|) == Count(x, xs)
  {
    CountToPrefix(x, xs, |xs|);
    assert xs[..|xs|] == xs;
  }

  lemma {:induction false} CountToGrows(x: Name, xs: seq<Name>, j: nat, k: nat)
    requires j <= k <= |xs|
    ensures CountTo(x, xs, j) <= CountTo(x, xs, k)
  {
    if j < k { CountToGrows(x, xs, j, k - 1); }
  }

  lemma CountAppend(x: Name, xs: seq<Name>, y: Name)
    ensures Count(x, xs + [y]) == Count(x, xs) + (if x == y then 1 else 0)
  {
    assert (xs + [y])[..|xs|] == xs;
  }

  lemma {:induction false} CountPositive(x: Name, xs: seq<Name>)
    ensures Count(x, xs) > 0 <==> x in xs
  {
    if |xs| > 0 {
      CountPositive(x, xs[..|xs| - 1]);
      assert xs == xs[..|xs| - 1] + [xs[|xs| - 1]];
    }
  }

  function At(m: map<Name, seq<Name>>, x: Name): seq<Name> {
    if x in m then m[x] else []
  }

  // ---- Building the counters ---------------------------------------------

  /** The counters while `done` is placed: each service counts its unplaced
      dependency entries. */
  ghost predicate Counts(names: seq<Name>, deps: Graph, done: set<Name>, indegree: map<Name, int>) {
    && (forall n :: n in names <==> n in indegree)
    && (forall n :: n in names ==> indegree[n] == Remaining(DepsOf(deps, n), done))
  }

  /** Reverse edges, with multiplicity. */
  ghost predicate Reverses(names: seq<Name>, deps: Graph, dependents: map<Name, seq<Name>>) {
    forall d :: Mirror(names, deps, d, At(dependents, d))
  }

  /** `list` names each service as often as that service lists `d`. */
  ghost predicate Mirror(names: seq<Name>, deps: Graph, d: Name, list: seq<Name>) {
    && (forall n :: n in list ==> n in names)
    && (forall n :: n in names ==> Count(n, list) == Count(d, DepsOf(deps, n)))
  }

  /** The counters after the edges of `part` have been read. */
  ghost predicate Built(names: seq<Name>, part: Graph, indegree: map<Name, int>, dependents: map<Name, seq<Name>>) {
    && (forall n :: n in names <==> n in indegree)
    && (forall n :: n in names ==> indegree[n] == |DepsOf(part, n)|)
    && Reverses(names, part, dependents)
  }

  function WithEdge(part: Graph, n: Name, d: Name): Graph {
    part[n := DepsOf(part, n) + [d]]
  }

  lemma AddEdge(names: seq<Name>, part: Graph, indegree: map<Name, int>, dependents: map<Name, seq<Name>>, n: Name, d: Name)
    requires Built(names, part, indegree, dependents) && n in names
    ensures Built(names, WithEdge(part, n, d), indegree[n := indegree[n] + 1], dependents[d := At(dependents, d) + [n]])
  {
    var grown := dependents[d := At(dependents, d) + [n]];
    forall e ensures Mirror(names, WithEdge(part, n, d), e, At(grown, e)) {
      assert Mirror(names, part, e, At(dependents, e));
      MirrorGrows(names, part, n, d, e, At(dependents, e));
    }
  }

  lemma MirrorGrows(names: seq<Name>, part: Graph, n: Name, d: Name, e: Name, list: seq<Name>)
    requires Mirror(names, part, e, list) && n in names
    ensures Mirror(names, WithEdge(part, n, d), e, if e == d then list + [n] else list)
  {
    CountAppend(e, DepsOf(part, n), d);
    forall m { CountAppend(m, list, n); }
  }

  /** Naming a service with no edges yet changes nothing. */
  lemma AddEmpty(names: seq<Name>, part: Graph, indegree: map<Name, int>, dependents: map<Name, seq<Name>>, n: Name)
    requires Built(names, part, indegree, dependents) && n !in part
    ensures Built(names, part[n := []], indegree, dependents)
  {
    assert forall m :: DepsOf(part[n := []], m) == DepsOf(part, m);
    forall e ensures Mirror(names, part[n := []], e, At(dependents, e)) {
      assert Mirror(names, part, e, At(dependents, e));
    }
  }

  method AddService(names: seq<Name>, name: Name, list: seq<Name>, ghost part: Graph,
                    indegree0: map<Name, int>, dependents0: map<Name, seq<Name>>)
    returns (indegree: map<Name, int>, dependents: map<Name, seq<Name>>, unknown: bool, dependency: Name)
    requires name in names && name !in part
    requires Built(names, part, indegree0, dependents0)
    ensures unknown ==> dependency in list && dependency !in names
    ensures !unknown ==> Within(list, names) && Built(names, part[name := list], indegree, dependents)
  {
    indegree, dependents, unknown, dependency := indegree0, dependents0, false, Name("");
    var j := 0;
    AddEmpty(names, part, indegree, dependents, name);
    while j < |list|
      invariant j <= |list|
      invariant Built(names, part[name := list[..j]], indegree, dependents)
      invariant Within(list[..j], names)
    {
      if list[j] !in names {
        unknown, dependency := true, list[j];
        return;
      }
      AddNext(names, part, indegree, dependents, name, list, j);
      indegree := indegree[name := indegree[name] + 1];
      dependents := dependents[list[j] := At(dependents, list[j]) + [name]];
      j := j + 1;
    }
    assert list[..|list|] == list;
  }

  ghost predicate Within(xs: seq<Name>, names: seq<Name>) {
    forall x :: x in xs ==> x in names
  }

  lemma AddNext(names: seq<Name>, part: Graph, indegree: map<Name, int>, dependents: map<Name, seq<Name>>,
                name: Name, list: seq<Name>, j: nat)
    requires name in names && j < |list| && list[j] in names
    requires Within(list[..j], names)
    requires Built(names, part[name := list[..j]], indegree, dependents)
    ensures Within(list[..j + 1], names)
    ensures Built(names, part[name := list[..j + 1]],
                  indegree[name := indegree[name] + 1],
                  dependents[list[j] := At(dependents, list[j]) + [name]])
  {
    AddEdge(names, part[name := list[..j]], indegree, dependents, name, list[j]);
    assert list[..j + 1] == list[..j] + [list[j]];
    assert WithEdge(part[name := list[..j]], name, list[j]) == part[name := list[..j + 1]];
  }

  method BuildGraph(names: seq<Name>, deps: Graph)
    returns (indegree: map<Name, int>, dependents: map<Name, seq<Name>>, unknown: bool, service: Name, dependency: Name)
    ensures unknown ==> service in names && dependency in DepsOf(deps, service) && dependency !in names
    ensures !unknown ==> Known(names, deps) && Counts(names, deps, {}, indegree) && Reverses(names, deps, dependents)
  {
    indegree := map n | n in names :: 0;
    dependents := map[];
    unknown, service, dependency := false, Name(""), Name("");
    var unread := deps.Keys;
    ghost var part: Graph := map[];
    while unread != {}
      invariant unread <= deps.Keys
      invariant forall n :: n in part ==> n in deps && part[n] == deps[n]
      invariant forall n :: n in part <==> n in names && n in deps && n !in unread
      invariant Built(names, part, indegree, dependents)
      invariant forall n :: n in part ==> Within(part[n], names)
      decreases unread
    {
      var name :| name in unread;
      if name in names {
        indegree, dependents, unknown, dependency := AddService(names, name, deps[name], part, indegree, dependents);
        if unknown {
          service := name;
          return;
        }
        part := part[name := deps[name]];
      }
      unread := unread - {name};
    }
    PartIsWhole(names, deps, part, indegree, dependents);
  }

  lemma PartIsWhole(names: seq<Name>, deps: Graph, part: Graph, indegree: map<Name, int>, dependents: map<Name, seq<Name>>)
    requires Built(names, part, indegree, dependents)
    requires forall n :: n in names ==> DepsOf(part, n) == DepsOf(deps, n)
    ensures Counts(names, deps, {}, indegree) && Reverses(names, deps, dependents)
  {
    forall n | n in names { RemainingNone(DepsOf(deps, n)); }
    forall e ensures Mirror(names, deps, e, At(dependents, e)) {
      assert Mirror(names, part, e, At(dependents, e));
    }
  }

  // ---- Placing one level -------------------------------------------------

  /** The services whose dependencies are all in `done`. */
  ghost predicate Frontier(names: seq<Name>, deps: Graph, done: set<Name>, ready: seq<Name>) {
    && Distinct(ready)
    && (forall n :: n in ready <==> n in names && n !in done && Remaining(DepsOf(deps, n), done) == 0)
  }

  /** The placed services form a closed set. */
  ghost predicate Closed(deps: Graph, done: set<Name>) {
    forall n, d :: n in done && d in DepsOf(deps, n) ==> d in done
  }

  /** The counters while the first j reverse edges of one more service have been
      followed. */
  ghost predicate Midway(names: seq<Name>, deps: Graph, placed: set<Name>, list: seq<Name>, j: nat, indegree: map<Name, int>)
    requires j <= |list|
  {
    && (forall n :: n in names <==> n in indegree)
    && (forall n :: n in names ==> indegree[n] == Remaining(DepsOf(deps, n), placed) - CountTo(n, list, j))
  }

  /** No dependent of the service is among those to be skipped. */
  ghost predicate DependentsLater(names: seq<Name>, deps: Graph, name: Name, skip: set<Name>) {
    forall n :: n in names && name in DepsOf(deps, n) ==> n !in skip
  }

  /** `next` lists exactly the services outside `skip` whose counter is zero. */
  ghost predicate Unlocked(names: seq<Name>, skip: set<Name>, indegree: map<Name, int>, next: seq<Name>) {
    && Distinct(next)
    && (forall n :: n in names ==> n in indegree)
    && (forall n :: n in next <==> n in names && n !in skip && indegree[n] == 0)
  }

  lemma MidwayStep(names: seq<Name>, deps: Graph, placed: set<Name>, list: seq<Name>, j: nat, indegree: map<Name, int>)
    requires j < |list| && list[j] in names
    requires Midway(names, deps, placed, list, j, indegree)
    ensures Midway(names, deps, placed, list, j + 1, indegree[list[j] := indegree[list[j]] - 1])
  {
  }

  /** An edge still to be followed has not been subtracted yet. */
  lemma MidwayPositive(names: seq<Name>, deps: Graph, placed: set<Name>, name: Name, list: seq<Name>, j: nat, indegree: map<Name, int>)
    requires j < |list| && list[j] in names && name !in placed
    requires Mirror(names, deps, name, list)
    requires Midway(names, deps, placed, list, j, indegree)
    ensures indegree[list[j]] > 0
    ensures name in DepsOf(deps, list[j])
  {
    CountToGrows(list[j], list, j + 1, |list|);
    CountToAll(list[j], list);
    RemainingAfter(DepsOf(deps, list[j]), placed, name);
    CountPositive(name, DepsOf(deps, list[j]));
  }

  lemma UnlockedStep(names: seq<Name>, skip: set<Name>, indegree: map<Name, int>, next: seq<Name>, x: Name)
    requires Unlocked(names, skip, indegree, next)
    requires x in names && x !in skip && indegree[x] > 0
    ensures Unlocked(names, skip, indegree[x := indegree[x] - 1], if indegree[x] == 1 then next + [x] else next)
  {
  }

  lemma MidwayStart(names: seq<Name>, deps: Graph, placed: set<Name>, list: seq<Name>, indegree: map<Name, int>)
    requires Counts(names, deps, placed, indegree)
    ensures Midway(names, deps, placed, list, 0, indegree)
  {
  }

  lemma MidwayDone(names: seq<Name>, deps: Graph, placed: set<Name>, name: Name, list: seq<Name>, indegree: map<Name, int>)
    requires name !in placed && Mirror(names, deps, name, list)
    requires Midway(names, deps, placed, list, |list|, indegree)
    ensures Counts(names, deps, placed + {name}, indegree)
  {
    forall n | n in names ensures indegree[n] == Remaining(DepsOf(deps, n), placed + {name}) {
      CountToAll(n, list);
      RemainingAfter(DepsOf(deps, n), placed, name);
    }
  }

  /** One reverse edge: the counter goes down, and a service whose counter
      reaches zero joins the next level. */
  method FollowEdge(names: seq<Name>, deps: Graph, list: seq<Name>, name: Name, j: nat,
                    ghost placed: set<Name>, ghost skip: set<Name>, indegree0: map<Name, int>, next0: seq<Name>)
    returns (next: seq<Name>, indegree: map<Name, int>)
    requires name !in placed && Mirror(names, deps, name, list) && j < |list|
    requires DependentsLater(names, deps, name, skip)
    requires Midway(names, deps, placed, list, j, indegree0)
    requires Unlocked(names, skip, indegree0, next0)
    ensures Midway(names, deps, placed, list, j + 1, indegree)
    ensures Unlocked(names, skip, indegree, next)
  {
    assert list[j] in names;
    MidwayStep(names, deps, placed, list, j, indegree0);
    MidwayPositive(names, deps, placed, name, list, j, indegree0);
    UnlockedStep(names, skip, indegree0, next0, list[j]);
    indegree, next := indegree0[list[j] := indegree0[list[j]] - 1], next0;
    if indegree[list[j]] == 0 {
      next := next + [list[j]];
    }
  }

  method PlaceService(names: seq<Name>, deps: Graph, list: seq<Name>, name: Name,
                      ghost placed: set<Name>, ghost skip: set<Name>,
                      indegree0: map<Name, int>, next0: seq<Name>)
    returns (next: seq<Name>, indegree: map<Name, int>)
    requires name !in placed
    requires Mirror(names, deps, name, list)
    requires DependentsLater(names, deps, name, skip)
    requires Counts(names, deps, placed, indegree0)
    requires Unlocked(names, skip, indegree0, next0)
    ensures Counts(names, deps, placed + {name}, indegree)
    ensures Unlocked(names, skip, indegree, next)
  {
    indegree, next := indegree0, next0;
    MidwayStart(names, deps, placed, list, indegree);
    var j := 0;
    while j < |list|
      invariant j <= |list|
      invariant Midway(names, deps, placed, list, j, indegree)
      invariant Unlocked(names, skip, indegree, next)
    {
      next, indegree := FollowEdge(names, deps, list, name, j, placed, skip, indegree, next);
      j := j + 1;
    }
    MidwayDone(names, deps, placed, name, list, indegree);
  }

  method PlaceLevel(names: seq<Name>, deps: Graph, dependents: map<Name, seq<Name>>,
                    level: seq<Name>, before: map<Name, int>, ghost done: set<Name>)
    returns (next: seq<Name>, indegree: map<Name, int>)
    requires Reverses(names, deps, dependents)
    requires Closed(deps, done)
    requires Counts(names, deps, done, before)
    requires Frontier(names, deps, done, level)
    ensures Counts(names, deps, done + Elements(level), indegree)
    ensures Frontier(names, deps, done + Elements(level), next)
    ensures Closed(deps, done + Elements(level))
    ensures forall n :: n in next ==> Needs(deps, n, level)
  {
    indegree, next := before, [];
    ghost var skip := done + Elements(level);
    LevelClosed(names, deps, done, level);
    var i := 0;
    assert done + Elements(level[..0]) == done;
    while i < |level|
      invariant i <= |level|
      invariant Counts(names, deps, done + Elements(level[..i]), indegree)
      invariant Unlocked(names, skip, indegree, next)
    {
      var name := level[i];
      assert name in level && Mirror(names, deps, name, At(dependents, name));
      ElementsPrefix(level, i);
      assert done + Elements(level[..i + 1]) == done + Elements(level[..i]) + {name};
      next, indegree := PlaceService(names, deps, At(dependents, name), name,
                                     done + Elements(level[..i]), skip, indegree, next);
      i := i + 1;
    }
    assert level[..|level|] == level;
    NextFrontier(names, deps, done, level, indegree, next);
  }

  lemma ElementsPrefix(xs: seq<Name>, i: nat)
    requires i < |xs|
    ensures Elements(xs[..i + 1]) == Elements(xs[..i]) + {xs[i]}
    ensures Distinct(xs) ==> xs[i] !in Elements(xs[..i])
  {
    assert xs[..i + 1] == xs[..i] + [xs[i]];
  }

  lemma NextFrontier(names: seq<Name>, deps: Graph, done: set<Name>, level: seq<Name>, indegree: map<Name, int>, next: seq<Name>)
    requires Frontier(names, deps, done, level)
    requires Counts(names, deps, done + Elements(level), indegree)
    requires Unlocked(names, done + Elements(level), indegree, next)
    ensures Frontier(names, deps, done + Elements(level), next)
    ensures forall n :: n in next ==> Needs(deps, n, level)
  {
    forall n | n in next ensures Needs(deps, n, level) {
      RemainingZero(DepsOf(deps, n), done);
      RemainingZero(DepsOf(deps, n), done + Elements(level));
    }
  }

  /** Placing a frontier keeps the placed set closed, and no service of that
      set depends on a service of the level. */
  lemma LevelClosed(names: seq<Name>, deps: Graph, done: set<Name>, level: seq<Name>)
    requires Closed(deps, done) && Frontier(names, deps, done, level)
    ensures Closed(deps, done + Elements(level))
    ensures forall n, d :: n in done + Elements(level) && d in DepsOf(deps, n) ==> d in done
  {
    forall n | n in level { RemainingZero(DepsOf(deps, n), done); }
  }

  // ---- The algorithm -----------------------------------------------------

  /** Place one level and sort what it frees. */
  method NextLevel(names: seq<Name>, deps: Graph, dependents: map<Name, seq<Name>>, level: seq<Name>,
                   before: map<Name, int>, ghost done: set<Name>, ghost levels: seq<seq<Name>>)
    returns (ready: seq<Name>, indegree: map<Name, int>)
    requires Reverses(names, deps, dependents) && |level| > 0
    requires Counts(names, deps, done, before)
    requires Progress(names, deps, done, levels, level)
    ensures Counts(names, deps, done + Elements(level), indegree)
    ensures Progress(names, deps, done + Elements(level), levels + [level], ready)
    ensures |done + Elements(level)| == |done| + |level| && done !! Elements(level)
    ensures Elements(level) <= Elements(names)
  {
    ExtendLevels(names, deps, done, levels, level);
    var next;
    next, indegree := PlaceLevel(names, deps, dependents, level, before, done);
    SortKeeps(next);
    ready := Sort(next);
    assert (levels + [level])[|levels|] == level;
  }

  /** The levels are a levelling exactly when the graph is known and acyclic;
      each error names a real defect. */
  method TopoLevels(names: seq<Name>, deps: Graph) returns (r: Result)
    requires Distinct(names)
    ensures r.Levels? ==> Known(names, deps) && IsLevelling(names, deps, r.levels)
    ensures r.UnknownDependency? ==>
      r.service in names && r.dependency in DepsOf(deps, r.service) && r.dependency !in names
    ensures r.Cycle? ==> Known(names, deps) && forall rank :: !IsRank(names, deps, rank)
  {
    var indegree, dependents, unknown, service, dependency := BuildGraph(names, deps);
    if unknown {
      return UnknownDependency(service, dependency);
    }
    var ready := ZeroNames(names, indegree);
    ready := Sort(ready);
    ghost var done: set<Name> := {};
    var levels: seq<seq<Name>> := [];
    var placed := 0;
    while |ready| > 0
      invariant Counts(names, deps, done, indegree)
      invariant Progress(names, deps, done, levels, ready)
      invariant placed == |done|
      decreases Elements(names) - done
    {
      var level := ready;
      ready, indegree := NextLevel(names, deps, dependents, level, indegree, done, levels);
      levels := levels + [level];
      placed := placed + |level|;
      assert level[0] in Elements(level);
      done := done + Elements(level);
    }
    Verdict(names, deps, done, levels);
    return if placed < |names| then Cycle else Levels(levels);
  }

  /** The state of the loop: the placed services are levelled, and `ready` is
      the sorted frontier. */
  ghost predicate Progress(names: seq<Name>, deps: Graph, done: set<Name>, levels: seq<seq<Name>>, ready: seq<Name>) {
    && Closed(deps, done) && done <= Elements(names)
    && Frontier(names, deps, done, ready) && Sorted(ready)
    && Members(levels) == done
    && Layered(deps, levels)
    && (|levels| > 0 ==> forall n :: n in ready ==> Needs(deps, n, levels[|levels| - 1]))
  }

  lemma Verdict(names: seq<Name>, deps: Graph, done: set<Name>, levels: seq<seq<Name>>)
    requires Distinct(names) && Known(names, deps)
    requires Progress(names, deps, done, levels, [])
    ensures |done| < |names| ==> forall rank :: !IsRank(names, deps, rank)
    ensures |done| >= |names| ==> IsLevelling(names, deps, levels)
  {
    DistinctSize(names);
    if |done| < |names| {
      forall rank ensures !IsRank(names, deps, rank) { Stuck(names, deps, done, rank); }
    } else {
      SubsetEqual(done, Elements(names));
    }
  }

  method ZeroNames(names: seq<Name>, indegree: map<Name, int>) returns (ready: seq<Name>)
    requires Distinct(names) && forall n :: n in names ==> n in indegree
    ensures Distinct(ready) && Distinct(Sort(ready)) && Sorted(Sort(ready))
    ensures forall n :: n in ready <==> n in names && indegree[n] == 0
    ensures forall n :: n in Sort(ready) <==> n in ready
  {
    ready := [];
    var i := 0;
    while i < |names|
      invariant i <= |names| && Distinct(ready)
      invariant forall n :: n in ready <==> n in names[..i] && indegree[n] == 0
    {
      if indegree[names[i]] == 0 {
        ready := ready + [names[i]];
      }
      assert names[..i + 1] == names[..i] + [names[i]];
      i := i + 1;
    }
    assert names[..|names|] == names;
    SortKeeps(ready);
  }

  lemma SubsetEqual<T>(a: set<T>, b: set<T>)
    requires a <= b && |a| >= |b|
    ensures a == b
  {
    assert b == a + (b - a);
  }

  lemma ExtendLevels(names: seq<Name>, deps: Graph, done: set<Name>, levels: seq<seq<Name>>, level: seq<Name>)
    requires Progress(names, deps, done, levels, level) && |level| > 0
    ensures Members(levels + [level]) == done + Elements(level)
    ensures Layered(deps, levels + [level])
    ensures done !! Elements(level) && Elements(level) <= Elements(names)
    ensures |done + Elements(level)| == |done| + |level|
  {
    MembersAppend(levels, level);
    FrontierIsLevel(names, deps, done, levels, level);
    LayeredExtends(deps, levels, level);
    NewMembers(done, level);
  }

  lemma MembersAppend(levels: seq<seq<Name>>, level: seq<Name>)
    ensures Members(levels + [level]) == Members(levels) + Elements(level)
  {
    assert (levels + [level])[..|levels|] == levels;
  }

  lemma FrontierIsLevel(names: seq<Name>, deps: Graph, done: set<Name>, levels: seq<seq<Name>>, level: seq<Name>)
    requires Progress(names, deps, done, levels, level) && |level| > 0
    ensures LevelOk(deps, levels, level)
    ensures forall n :: n in level ==> n !in done && n in names
  {
    LevelClosed(names, deps, done, level);
  }

  lemma NewMembers(done: set<Name>, level: seq<Name>)
    requires Distinct(level) && forall n :: n in level ==> n !in done
    ensures |done + Elements(level)| == |done| + |level|
  {
    DistinctSize(level);
    assert done !! Elements(level);
  }

  lemma LayeredExtends(deps: Graph, levels: seq<seq<Name>>, level: seq<Name>)
    requires Layered(deps, levels) && LevelOk(deps, levels, level)
    ensures Layered(deps, levels + [level])
  {
    var grown := levels + [level];
    forall k | 0 <= k < |grown| ensures LevelOk(deps, grown[..k], grown[k]) {
      if k < |levels| {
        assert grown[..k] == levels[..k];
        assert LevelOk(deps, levels[..k], levels[k]);
      } else {
        assert grown[..k] == levels;
      }
    }
  }

  /** When no service is ready but some are unplaced, every unplaced service
      waits for another unplaced one, so no rank exists. */
  lemma Stuck(names: seq<Name>, deps: Graph, done: set<Name>, rank: map<Name, nat>)
    requires Known(names, deps)
    requires done <= Elements(names) && done != Elements(names)
    requires Frontier(names, deps, done, [])
    ensures !IsRank(names, deps, rank)
  {
    if IsRank(names, deps, rank) {
      assert !(Elements(names) <= done);
      var n :| n in Elements(names) && n !in done;
      Descend(names, deps, done, rank, n);
    }
  }

  lemma {:induction false} Descend(names: seq<Name>, deps: Graph, done: set<Name>, rank: map<Name, nat>, n: Name)
    requires Known(names, deps) && IsRank(names, deps, rank)
    requires Frontier(names, deps, done, [])
    requires n in names && n !in done
    ensures false
    decreases rank[n]
  {
    RemainingZero(DepsOf(deps, n), done);
    assert n !in [];
    var d :| d in DepsOf(deps, n) && d !in done;
    Descend(names, deps, done, rank, d);
  }

  // ---- What callers use --------------------------------------------------

  lemma {:induction false} MemberLevel(levels: seq<seq<Name>>, n: Name) returns (k: nat)
    requires n in Members(levels)
    ensures k < |levels| && n in levels[k]
  {
    k := |levels| - 1;
    if n !in levels[k] { k := MemberLevel(levels[..k], n); }
  }

  lemma {:induction false} LevelMember(levels: seq<seq<Name>>, n: Name, k: nat)
    requires k < |levels| && n in levels[k]
    ensures n in Members(levels)
  {
    if k < |levels| - 1 { LevelMember(levels[..|levels| - 1], n, k); }
  }

  /** A service sits in one level only. */
  lemma LevelUnique(deps: Graph, levels: seq<seq<Name>>, n: Name, j: nat, k: nat)
    requires Layered(deps, levels) && j < |levels| && k < |levels| && n in levels[j] && n in levels[k]
    ensures j == k
  {
    if j < k { LevelMember(levels[..k], n, j); }
    if k < j { LevelMember(levels[..j], n, k); }
  }

  ghost function LevelOf(levels: seq<seq<Name>>, n: Name): (k: nat)
    requires n in Members(levels)
    ensures k < |levels| && n in levels[k]
  {
    var last := |levels| - 1;
    if n in levels[last] then last else LevelOf(levels[..last], n)
  }

  /** A levelling is a certificate of acyclicity, so the algorithm answers
      Cycle exactly on cyclic graphs. */
  lemma LevellingIsRank(names: seq<Name>, deps: Graph, levels: seq<seq<Name>>) returns (rank: map<Name, nat>)
    requires IsLevelling(names, deps, levels)
    ensures IsRank(names, deps, rank)
  {
    rank := map n | n in Members(levels) :: LevelOf(levels, n);
    forall n, d | n in names && d in DepsOf(deps, n) && d in names ensures rank[d] < rank[n] {
      assert n in Members(levels) && d in Members(levels);
      var k := LevelOf(levels, n);
      assert LevelOk(deps, levels[..k], levels[k]);
      var j := MemberLevel(levels[..k], d);
      LevelUnique(deps, levels, d, j, LevelOf(levels, d));
    }
  }
}

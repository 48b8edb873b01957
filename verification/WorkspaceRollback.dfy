/** Whole-workspace rollback (cmd/workspace_rollback.go): the services in
    reverse dependency order, one at a time, stopping at the first one that is
    unregistered or fails. */
module WorkspaceRollback {
  import opened Names
  import Topo

  function Flatten(levels: seq<seq<Name>>): seq<Name> {
    if |levels| == 0 then [] else Flatten(levels[..|levels| - 1]) + levels[|levels| - 1]
  }

  /** internal/workspace/graph.go, TopoOrder; also flattenWorkspaceLevels. */
  method FlattenLevels(levels: seq<seq<Name>>) returns (order: seq<Name>)
    ensures order == Flatten(levels)
  {
    order := [];
    for k := 0 to |levels|
      invariant order == Flatten(levels[..k])
    {
      assert levels[..k + 1][..k] == levels[..k];
      order := order + levels[k];
    }
    assert levels[..|levels|] == levels;
  }

  function Reversed<T>(xs: seq<T>): (r: seq<T>)
    ensures |r| == |xs|
    ensures forall k :: 0 <= k < |xs| ==> r[k] == xs[|xs| - 1 - k]
  {
    seq(|xs|, k requires 0 <= k < |xs| => xs[|xs| - 1 - k])
  }

  /** reverseNames fills a fresh slice from the back. */
  method ReverseNames(names: seq<Name>) returns (r: seq<Name>)
    ensures r == Reversed(names)
  {
    var out := new Name[|names|];
    for i := 0 to |names|
      invariant forall k :: 0 <= k < i ==> out[|names| - 1 - k] == names[k]
    {
      out[|names| - 1 - i] := names[i];
    }
    r := out[..];
    forall k | 0 <= k < |names| ensures r[k] == Reversed(names)[k] {
      assert r[k] == out[|names| - 1 - (|names| - 1 - k)];
    }
  }

  lemma {:induction false} FlattenMembers(levels: seq<seq<Name>>)
    ensures Elements(Flatten(levels)) == Topo.Members(levels)
  {
    if |levels| > 0 {
      var front := levels[..|levels| - 1];
      FlattenMembers(front);
      forall x ensures x in Flatten(levels) <==> x in Elements(Flatten(front)) || x in levels[|levels| - 1] {}
    }
  }

  /** In the flattened order every dependency stands before its dependent. */
  ghost predicate Forward(deps: Topo.Graph, order: seq<Name>) {
    forall j, d :: 0 <= j < |order| && d in Topo.DepsOf(deps, order[j]) ==> d in order[..j]
  }

  lemma {:induction false} FlattenForward(deps: Topo.Graph, levels: seq<seq<Name>>)
    requires Topo.Layered(deps, levels)
    ensures Forward(deps, Flatten(levels))
    ensures Distinct(Flatten(levels))
  {
    if |levels| > 0 {
      var front, last := levels[..|levels| - 1], levels[|levels| - 1];
      assert Topo.LevelOk(deps, front, last);
      forall k | 0 <= k < |front| ensures Topo.LevelOk(deps, front[..k], front[k]) {
        assert front[..k] == levels[..k];
        assert Topo.LevelOk(deps, levels[..k], levels[k]);
      }
      FlattenForward(deps, front);
      FlattenMembers(front);
      ForwardAppend(deps, Flatten(front), last);
    }
  }

  lemma ForwardAppend(deps: Topo.Graph, order: seq<Name>, level: seq<Name>)
    requires Forward(deps, order) && Distinct(order) && Distinct(level)
    requires forall n :: n in level ==> n !in Elements(order)
    requires forall n, d :: n in level && d in Topo.DepsOf(deps, n) ==> d in Elements(order)
    ensures Forward(deps, order + level) && Distinct(order + level)
  {
    var all := order + level;
    forall j, d | 0 <= j < |all| && d in Topo.DepsOf(deps, all[j]) ensures d in all[..j] {
      if j < |order| {
        assert all[..j] == order[..j];
      } else {
        assert all[j] in level;
        assert all[j] == level[j - |order|];
        assert d in Elements(order);
        var i :| 0 <= i < |order| && order[i] == d;
        assert all[..j][i] == d;
      }
    }
    forall i, j | 0 <= i < j < |all| ensures all[i] != all[j] {
      if i < |order| && j >= |order| { assert all[i] in order && all[j] in level; }
    }
  }

  /** A set of rolled-back services that holds every service depending on one
      of its members: no consumer is left on an already reverted provider. */
  ghost predicate ClosedUnderDependents(names: seq<Name>, deps: Topo.Graph, rolled: seq<Name>) {
    forall n {:trigger Covered(deps, n, rolled)} :: n in names ==> Covered(deps, n, rolled)
  }

  ghost predicate Covered(deps: Topo.Graph, n: Name, rolled: seq<Name>) {
    n !in rolled ==> forall t :: 0 <= t < |rolled| ==> rolled[t] !in Topo.DepsOf(deps, n)
  }

  /** It was closed at every moment. */
  ghost predicate AlwaysClosed(names: seq<Name>, deps: Topo.Graph, rolled: seq<Name>) {
    forall k {:trigger rolled[..k]} :: 0 <= k <= |rolled| ==> ClosedUnderDependents(names, deps, rolled[..k])
  }

  /** Dependents stand after their dependencies. */
  ghost predicate Ordered(deps: Topo.Graph, order: seq<Name>) {
    forall i, j :: 0 <= i < |order| && 0 <= j < |order| && Edge(deps, order, i, j) ==> i < j
  }

  predicate Edge(deps: Topo.Graph, order: seq<Name>, i: nat, j: nat)
    requires i < |order| && j < |order|
  {
    order[i] in Topo.DepsOf(deps, order[j])
  }

  lemma ForwardOrdered(deps: Topo.Graph, order: seq<Name>)
    requires Forward(deps, order) && Distinct(order)
    ensures Ordered(deps, order)
  {
    forall i, j | 0 <= i < |order| && 0 <= j < |order| && Edge(deps, order, i, j) ensures i < j {
      DependentLater(deps, order, j, i);
    }
  }

  /** Every prefix of the reversed order is closed, so stopping anywhere is
      safe. */
  lemma PrefixClosed(deps: Topo.Graph, order: seq<Name>, k: nat)
    requires Ordered(deps, order) && k <= |order|
    ensures ClosedUnderDependents(order, deps, Reversed(order)[..k])
  {
    forall n | n in order ensures Covered(deps, n, Reversed(order)[..k]) {
      var j :| 0 <= j < |order| && order[j] == n;
      PrefixCovers(deps, order, k, j);
    }
  }

  /** A dependent stands in the reversed prefix when its dependency does. */
  lemma PositionCovered(deps: Topo.Graph, order: seq<Name>, k: nat, j: nat, t: nat)
    requires Ordered(deps, order) && t < k <= |order| && j < |order|
    requires Edge(deps, order, |order| - 1 - t, j)
    ensures |order| - k <= j
  {
  }

  lemma PrefixCovers(deps: Topo.Graph, order: seq<Name>, k: nat, j: nat)
    requires Ordered(deps, order) && k <= |order| && j < |order|
    ensures Covered(deps, order[j], Reversed(order)[..k])
  {
    var rolled := Reversed(order)[..k];
    forall t | 0 <= t < k && rolled[t] in Topo.DepsOf(deps, order[j]) ensures order[j] in rolled {
      PrefixAt(order, k, t);
      PositionCovered(deps, order, k, j, t);
      PrefixHas(order, k, j);
    }
  }

  lemma PrefixAt(order: seq<Name>, k: nat, t: nat)
    requires t < k <= |order|
    ensures Reversed(order)[..k][t] == order[|order| - 1 - t]
  {
  }

  lemma PrefixHas(order: seq<Name>, k: nat, j: nat)
    requires k <= |order| && |order| - k <= j < |order|
    ensures order[j] in Reversed(order)[..k]
  {
    PrefixAt(order, k, |order| - 1 - j);
  }

  lemma DependentLater(deps: Topo.Graph, order: seq<Name>, j: nat, i: nat)
    requires Forward(deps, order) && Distinct(order) && i < |order| && j < |order|
    requires order[i] in Topo.DepsOf(deps, order[j])
    ensures i < j
  {
    assert order[i] in order[..j];
  }

  /** Closure along one edge gives closure along whole dependency chains. */
  lemma {:induction false} ChainClosed(names: seq<Name>, deps: Topo.Graph, rolled: seq<Name>, p: seq<Name>)
    requires ClosedUnderDependents(names, deps, rolled)
    requires |p| > 0 && (forall i :: 0 <= i < |p| ==> p[i] in names)
    requires forall i :: 0 <= i < |p| - 1 ==> p[i + 1] in Topo.DepsOf(deps, p[i])
    requires p[|p| - 1] in rolled
    ensures p[0] in rolled
    decreases |p|
  {
    if |p| > 1 {
      ChainClosed(names, deps, rolled, p[1..]);
      assert p[0 + 1] in Topo.DepsOf(deps, p[0]);
      var t :| 0 <= t < |rolled| && rolled[t] == p[1];
      assert Covered(deps, p[0], rolled);
    }
  }

  datatype Verdict = RolledBack | RollbackFailed

  class Rollback {
    var results: map<Name, Verdict>
    var saved: map<Name, Verdict>
    var rolled: seq<Name>

    constructor (prior: map<Name, Verdict>)
      ensures results == saved == prior && rolled == []
    {
      results, saved, rolled := prior, prior, [];
    }

    /** The loop of orchestrateWorkspaceRollback.  Wherever it stops, what has
        been rolled back is a prefix of the reversed order, closed under
        dependents; only the service it stopped at is recorded as failed, and
        entries of services it did not reach are as before; and nil means every
        service was rolled back. */
    method RunAll(names: seq<Name>, deps: Topo.Graph, levels: seq<seq<Name>>, registered: Name -> bool, succeeds: Name -> bool)
      returns (failed: bool, written: bool)
      requires Topo.IsLevelling(names, deps, levels)
      modifies this
      ensures rolled <= Reversed(Flatten(levels))
      ensures AlwaysClosed(names, deps, rolled)
      ensures Entries(old(results), Reversed(Flatten(levels)), |rolled|, |rolled| < |Flatten(levels)|, results)
      ensures |rolled| < |Flatten(levels)| ==>
        var x := Reversed(Flatten(levels))[|rolled|]; !(registered(x) && succeeds(x))
      ensures saved == if written then results else old(saved)
      ensures !failed <==> written && |rolled| == |Flatten(levels)|
      ensures !failed ==> Elements(rolled) == Elements(names)
    {
      var forward := FlattenLevels(levels);
      var order := ReverseNames(forward);
      FlattenForward(deps, levels);
      FlattenMembers(levels);
      rolled := [];
      failed := RollBackInOrder(order, registered, succeeds);
      ForwardOrdered(deps, forward);
      ReversedDistinct(forward);
      ReversedAlwaysClosed(names, deps, forward);
      PrefixAlwaysClosed(names, deps, order, rolled);
      OutcomesEntries(old(results), order, |rolled|, failed);
      ReversedElements(forward);
      assert order[..|order|] == order;
      written := *;
      if written { saved := results; }
      failed := failed || !written;
    }

    method RollBackInOrder(order: seq<Name>, registered: Name -> bool, succeeds: Name -> bool) returns (failed: bool)
      requires rolled == []
      modifies this`results, this`rolled
      ensures rolled <= order && (failed <==> |rolled| < |order|)
      ensures failed ==> !(registered(order[|rolled|]) && succeeds(order[|rolled|]))
      ensures results == Outcomes(old(results), order, |rolled|, failed)
    {
      var i := 0;
      while i < |order|
        invariant i <= |order| && rolled == order[..i]
        invariant results == Outcomes(old(results), order, i, false)
      {
        var name := order[i];
        if !registered(name) || !succeeds(name) {
          results := results[name := RollbackFailed];
          return true;
        }
        results := results[name := RolledBack];
        rolled := rolled + [name];
        i := i + 1;
      }
      return false;
    }
  }

  /** The state after n services were rolled back, with the next one failed or
      not reached. */
  function Outcomes(prior: map<Name, Verdict>, order: seq<Name>, n: nat, failed: bool): map<Name, Verdict>
    requires n <= |order| && (failed ==> n < |order|)
    decreases n, failed
  {
    if failed then Outcomes(prior, order, n, false)[order[n] := RollbackFailed]
    else if n == 0 then prior else Outcomes(prior, order, n - 1, false)[order[n - 1] := RolledBack]
  }

  /** One service's entry in that state. */
  predicate Entry(prior: map<Name, Verdict>, order: seq<Name>, n: nat, failed: bool, results: map<Name, Verdict>, x: Name)
    requires n <= |order| && (failed ==> n < |order|)
  {
    if x in order[..n] then x in results && results[x] == RolledBack
    else if failed && x == order[n] then x in results && results[x] == RollbackFailed
    else (x in results <==> x in prior) && (x in prior ==> results[x] == prior[x])
  }

  ghost predicate Entries(prior: map<Name, Verdict>, order: seq<Name>, n: nat, failed: bool, results: map<Name, Verdict>)
    requires n <= |order| && (failed ==> n < |order|)
  {
    forall x :: Entry(prior, order, n, failed, results, x)
  }

  lemma OutcomesEntries(prior: map<Name, Verdict>, order: seq<Name>, n: nat, failed: bool)
    requires n <= |order| && (failed ==> n < |order|) && Distinct(order)
    ensures Entries(prior, order, n, failed, Outcomes(prior, order, n, failed))
  {
    forall x ensures Entry(prior, order, n, failed, Outcomes(prior, order, n, failed), x) {
      OutcomesMean(prior, order, n, failed, x);
    }
  }

  lemma {:induction false} OutcomesMean(prior: map<Name, Verdict>, order: seq<Name>, n: nat, failed: bool, x: Name)
    requires n <= |order| && (failed ==> n < |order|) && Distinct(order)
    ensures Entry(prior, order, n, failed, Outcomes(prior, order, n, failed), x)
    decreases n, failed
  {
    if failed {
      OutcomesMean(prior, order, n, false, x);
    } else if n > 0 {
      OutcomesMean(prior, order, n - 1, false, x);
      assert order[..n] == order[..n - 1] + [order[n - 1]];
    }
  }

  lemma ReversedElements(xs: seq<Name>)
    ensures Elements(Reversed(xs)) == Elements(xs)
  {
    forall x | x in xs ensures x in Reversed(xs) {
      var k :| 0 <= k < |xs| && xs[k] == x;
      assert Reversed(xs)[|xs| - 1 - k] == x;
    }
  }

  lemma ReversedDistinct(xs: seq<Name>)
    requires Distinct(xs)
    ensures Distinct(Reversed(xs))
  {
  }

  lemma ReversedAlwaysClosed(names: seq<Name>, deps: Topo.Graph, forward: seq<Name>)
    requires Ordered(deps, forward) && Elements(forward) == Elements(names)
    ensures AlwaysClosed(names, deps, Reversed(forward))
  {
    forall k | 0 <= k <= |Reversed(forward)| ensures ClosedUnderDependents(names, deps, Reversed(forward)[..k]) {
      PrefixClosed(deps, forward, k);
      SameNames(names, forward, deps, Reversed(forward)[..k]);
    }
  }

  lemma PrefixAlwaysClosed(names: seq<Name>, deps: Topo.Graph, order: seq<Name>, rolled: seq<Name>)
    requires AlwaysClosed(names, deps, order) && rolled <= order
    ensures AlwaysClosed(names, deps, rolled)
  {
    forall k | 0 <= k <= |rolled| ensures ClosedUnderDependents(names, deps, rolled[..k]) {
      assert rolled[..k] == order[..k];
    }
  }

  lemma SameNames(names: seq<Name>, forward: seq<Name>, deps: Topo.Graph, rolled: seq<Name>)
    requires ClosedUnderDependents(forward, deps, rolled) && Elements(forward) == Elements(names)
    ensures ClosedUnderDependents(names, deps, rolled)
  {
    forall n | n in names ensures Covered(deps, n, rolled) {
      assert n in Elements(names);
      assert n in forward;
      assert Covered(deps, n, rolled);
    }
  }
}

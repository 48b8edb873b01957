/** Do a plan's stored status and the envelope stored under its key agree?  Over
    all runs of PlanMachine: the two are written by different best-effort steps,
    the status by the process that executed or by a replay, the envelope by the
    owner's deferred finish, by somebody else's, or by the ledger closing an
    orphan.

    A completion is foreign when it is not the owner's own finish.  It always
    stores a failure, so it is harmless exactly when the owner cannot record a
    success any more. */
module PlanAgreement {
  import opened PlanMachine

  /** Both are there and tell different stories. */
  predicate Disagree(w: World) {
    w.status != Created && w.entry.Complete? && w.status != StatusOf(w.entry.envelope)
  }

  /** An in-progress entry is completed by something else than its owner's
      deferred finish. */
  predicate Foreign(w: World, a: Action)
    requires Enabled(w, a)
  {
    w.entry.InProgress? && Step(w, a).entry.Complete? && !(a.Finish? && a.p == w.entry.owner)
  }

  /** The owner has recorded a success, or still may. */
  predicate MaySucceed(w: World) {
    w.entry.InProgress? &&
    (w.status == Applied ||
     match At(w, w.entry.owner)
     case Granted => true
     case Engine => true
     case Marking(o) => o.Nil?
     case _ => false)
  }

  /** Foreign completions happen only when they are harmless. */
  ghost predicate Harmless(w: World, acts: seq<Action>)
    requires Playable(w, acts)
    decreases |acts|
  {
    |acts| == 0 || ((Foreign(w, acts[0]) ==> !MaySucceed(w)) && Harmless(Step(w, acts[0]), acts[1..]))
  }

  /** On the way from the grant to the end of the execution. */
  predicate OnGrant(pc: Pc) {
    pc.Granted? || pc.Engine? || pc.Marking? || pc.Finishing?
  }

  /** Where one process may be, given the entry and the status. */
  predicate ProcOk(w: World, p: nat) {
    var pc := At(w, p);
    match w.entry
    case Absent =>
      w.granted == 0 ==> !OnGrant(pc) && !pc.Replaying?
    case InProgress(owner) =>
      && (OnGrant(pc) ==> p == owner)
      && !pc.Replaying?
      && (pc.Granted? || pc.Engine? || pc.Marking? ==> w.status == Created)
      && (pc.Finishing? ==> w.status == Created || w.status == TerminalStatus(pc.outcome))
    case Complete(e) =>
      && !pc.Granted? && !pc.Engine?
      && (pc.Marking? ==> TerminalStatus(pc.outcome) == StatusOf(e))
      && (pc.Replaying? ==> pc.envelope == e)
  }

  ghost predicate Consistent(w: World) {
    && Inv(w) && !Disagree(w)
    && (w.entry.Absent? && w.granted == 0 ==> w.status == Created)
    && forall p: nat :: ProcOk(w, p)
  }

  lemma GrantedOnce(w: World, a: Action)
    requires Consistent(w) && Enabled(w, a) && (a.Begin? || a.BeginError?) && w.entry == Absent
    ensures w.granted == 0
  {
    assert At(w, a.p) == Window;
  }

  /** The process that moves. */
  lemma MoverOk(w: World, a: Action)
    requires Consistent(w) && Enabled(w, a) && (a == Evict ==> EvictSafe(w)) && (Foreign(w, a) ==> !MaySucceed(w))
    requires a != CloseInProgress && a != Evict
    ensures ProcOk(Step(w, a), a.p)
  {
    assert ProcOk(w, a.p);
  }

  /** A process that does not move. */
  lemma OtherOk(w: World, a: Action, q: nat)
    requires Consistent(w) && Enabled(w, a) && (a == Evict ==> EvictSafe(w)) && (Foreign(w, a) ==> !MaySucceed(w))
    requires a == CloseInProgress || a == Evict || a.p != q
    ensures ProcOk(Step(w, a), q)
  {
    StepMoves(w, a, q);
    assert ProcOk(w, q);
    if (a.Begin? || a.BeginError?) && w.entry == Absent { GrantedOnce(w, a); }
    if a != CloseInProgress && a != Evict { assert ProcOk(w, a.p); }
  }

  lemma StatusOk(w: World, a: Action)
    requires Consistent(w) && Enabled(w, a) && (a == Evict ==> EvictSafe(w)) && (Foreign(w, a) ==> !MaySucceed(w))
    ensures !Disagree(Step(w, a))
    ensures Step(w, a).entry.Absent? && Step(w, a).granted == 0 ==> Step(w, a).status == Created
  {
    if a != CloseInProgress && a != Evict { assert ProcOk(w, a.p); }
  }

  lemma ConsistentStep(w: World, a: Action)
    requires Consistent(w) && Enabled(w, a) && (a == Evict ==> EvictSafe(w)) && (Foreign(w, a) ==> !MaySucceed(w))
    ensures Consistent(Step(w, a))
  {
    StepInv(w, a);
    StatusOk(w, a);
    forall q: nat ensures ProcOk(Step(w, a), q) {
      if a == CloseInProgress || a == Evict || a.p != q {
        OtherOk(w, a, q);
      } else {
        MoverOk(w, a);
      }
    }
  }

  lemma {:induction false} ConsistentAlong(w: World, acts: seq<Action>)
    requires Consistent(w) && Playable(w, acts) && Guarded(w, acts) && Harmless(w, acts)
    ensures Consistent(Play(w, acts))
    decreases |acts|
  {
    if |acts| > 0 {
      ConsistentStep(w, acts[0]);
      ConsistentAlong(Step(w, acts[0]), acts[1..]);
    }
  }

  /** Agreement over every run of any number of processes, with crashes, lost
      writes, refusals and safe evictions: as long as every foreign completion
      is harmless, a terminal status and a stored envelope tell the same story. */
  lemma StatusAgreesWithEnvelope(acts: seq<Action>)
    requires Playable(Fresh, acts) && Guarded(Fresh, acts) && Harmless(Fresh, acts)
    ensures !Disagree(Play(Fresh, acts))
  {
    ConsistentAlong(Fresh, acts);
  }

  // ---- A harmful completion breaks it ------------------------------------

  /** Nothing but the owner's own way to a recorded success: no crash, no
      eviction, no lost write. */
  predicate Plain(a: Action, owner: nat) {
    a == Enter(owner) || a == EngineReturns(owner, Nil(true)) || a == Mark(owner, true)
  }

  predicate AllPlain(acts: seq<Action>, owner: nat) {
    forall k :: 0 <= k < |acts| ==> Plain(acts[k], owner)
  }

  lemma MarkDisagrees(w: World, p: nat) returns (acts: seq<Action>)
    requires At(w, p).Marking? && At(w, p).outcome.Nil? && w.entry == Complete(Failure)
    ensures Playable(w, acts) && Disagree(Play(w, acts)) && AllPlain(acts, p)
  {
    acts := PlayStep(w, Mark(p, true), Step(w, Mark(p, true)), []);
  }

  lemma EngineDisagrees(w: World, p: nat) returns (acts: seq<Action>)
    requires At(w, p) == Engine && w.entry == Complete(Failure)
    ensures Playable(w, acts) && Disagree(Play(w, acts)) && AllPlain(acts, p)
  {
    var t := Step(w, EngineReturns(p, Nil(true)));
    acts := MarkDisagrees(t, p);
    acts := PlayStep(w, EngineReturns(p, Nil(true)), t, acts);
  }

  /** Exactly then: a foreign completion of an entry whose owner may still
      record a success, or has, is followed by a disagreement, at once or as
      soon as the owner succeeds, with every write arriving. */
  lemma HarmfulCompletionDisagrees(w: World, a: Action) returns (acts: seq<Action>)
    requires Consistent(w) && Enabled(w, a) && Foreign(w, a) && MaySucceed(w)
    ensures Playable(Step(w, a), acts) && Disagree(Play(Step(w, a), acts))
    ensures AllPlain(acts, w.entry.owner)
  {
    var owner := w.entry.owner;
    var t := Step(w, a);
    if a != CloseInProgress { assert ProcOk(w, a.p); }
    if w.status == Applied {
      acts := [];
    } else {
      StepMoves(w, a, owner);
      match At(w, owner) {
        case Granted =>
          acts := EngineDisagrees(Step(t, Enter(owner)), owner);
          acts := PlayStep(t, Enter(owner), Step(t, Enter(owner)), acts);
        case Engine => acts := EngineDisagrees(t, owner);
        case _ => acts := MarkDisagrees(t, owner);
      }
    }
  }

  // ---- It happens --------------------------------------------------------

  /** From the entry of process 0 into the engine on. */
  lemma SecondCompletesFirst(w: World) returns (acts: seq<Action>)
    requires At(w, 0) == Engine && At(w, 1) == Idle && w.entry == InProgress(0) && w.status == Created
    ensures Playable(w, acts) && Play(w, acts).entry == Complete(Failure) && At(Play(w, acts), 0) == Engine
    ensures forall k :: 0 <= k < |acts| ==> acts[k] in {Load(1), Begin(1), CompleteAfterError(1, true)}
  {
    var w1 := Step(w, Load(1));
    var w2 := Step(w1, Begin(1));
    acts := PlayStep(w2, CompleteAfterError(1, true), Step(w2, CompleteAfterError(1, true)), []);
    acts := PlayStep(w1, Begin(1), w2, acts);
    acts := PlayStep(w, Load(1), w1, acts);
  }

  lemma FirstEnters() returns (acts: seq<Action>)
    ensures acts == [Load(0), Begin(0), Enter(0)] && Playable(Fresh, acts)
    ensures var t := Play(Fresh, acts);
      At(t, 0) == Engine && At(t, 1) == Idle && t.entry == InProgress(0) && t.status == Created
  {
    var w1 := Step(Fresh, Load(0));
    var w2 := Step(w1, Begin(0));
    acts := PlayStep(w2, Enter(0), Step(w2, Enter(0)), []);
    acts := PlayStep(w1, Begin(0), w2, acts);
    acts := PlayStep(Fresh, Load(0), w1, acts);
  }

  lemma {:induction false} PlayConcat(w: World, a: seq<Action>, b: seq<Action>)
    requires Playable(w, a) && Playable(Play(w, a), b)
    ensures Playable(w, a + b) && Play(w, a + b) == Play(Play(w, a), b)
    decreases |a|
  {
    if |a| == 0 {
      assert a + b == b;
    } else {
      PlayConcat(Step(w, a[0]), a[1..], b);
      var longer := PlayStep(w, a[0], Step(w, a[0]), a[1..] + b);
      assert a + b == longer;
    }
  }

  /** Neither a crash, nor an eviction, nor the ledger closing an entry, nor a
      lost write. */
  predicate Orderly(a: Action) {
    !a.Crash? && a != Evict && a != CloseInProgress
    && (a.CompleteAfterError? || a.Reconcile? || a.Mark? || a.Finish? ==> a.written)
  }

  /** A run of two processes in which every write arrives and nobody crashes:
      the plan ends up applied while its key replays a failure. */
  lemma AppliedPlanReplaysAFailure() returns (acts: seq<Action>)
    ensures Playable(Fresh, acts) && forall k :: 0 <= k < |acts| ==> Orderly(acts[k])
    ensures Play(Fresh, acts).status == Applied && Play(Fresh, acts).entry == Complete(Failure)
  {
    var first := FirstEnters();
    var w1 := Play(Fresh, first);
    var second := SecondCompletesFirst(w1);
    var third := EngineDisagrees(Play(w1, second), 0);
    PlayConcat(w1, second, third);
    PlayConcat(Fresh, first, second + third);
    acts := first + (second + third);
    EntryStays(Play(w1, second), third, 0);
  }

  /** The owner's way to a success does not touch the entry. */
  lemma {:induction false} EntryStays(w: World, acts: seq<Action>, p: nat)
    requires Playable(w, acts) && AllPlain(acts, p)
    ensures Play(w, acts).entry == w.entry
    decreases |acts|
  {
    if |acts| > 0 {
      assert Plain(acts[0], p);
      forall k | 0 <= k < |acts[1..]| ensures Plain(acts[1..][k], p) { assert acts[1..][k] == acts[k + 1]; }
      EntryStays(Step(w, acts[0]), acts[1..], p);
    }
  }
}

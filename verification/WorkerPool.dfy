/** The bounded goroutine pool behind one dependency level of a workspace
    (cmd/workspace.go, runParallelLevel), as interleaved atomic steps.

    One step is one blocking or shared-memory operation of one goroutine: a
    `select` arm, the end of the service function, a channel send, the cancel
    call, the semaphore release, or the wait-group decrement.  A schedule is
    any sequence of such steps, so a statement about all schedules is a
    statement about all interleavings. */
module WorkerPool {
  import opened Options

  /** Where one goroutine is.  Unspawned goroutines are loop iterations the
      caller has not reached yet. */
  datatype Pc =
    | Unspawned
    | Selecting      // blocked in the select between cancellation and the semaphore
    | Running        // inside the service function
    | Sending        // the function failed; about to send on the error channel
    | Cancelling     // error sent; about to cancel the context
    | Releasing      // running the deferred semaphore release
    | Exiting        // running the deferred wg.Done
    | Exited

  datatype Outcome = Pending | Skipped | Succeeded | Failed

  datatype Worker = Worker(pc: Pc, runs: nat, outcome: Outcome)

  datatype Caller = Spawning | Waiting | Returned(error: Option<nat>)

  /** `held` is the number of tokens in the semaphore channel, `errs` the
      content of the error channel (the index of the failing service). */
  datatype Pool = Pool(
    capacity: nat,
    workers: seq<Worker>,
    spawned: nat,
    held: nat,
    cancelled: bool,
    errs: seq<nat>,
    caller: Caller)

  datatype Action =
    | Spawn
    | AllSpawned
    | TakeCancelled(i: nat)
    | TakeSemaphore(i: nat)
    | Succeed(i: nat)
    | Fail(i: nat)
    | Send(i: nat)
    | Cancel(i: nat)
    | Release(i: nat)
    | Finish(i: nat)
    | Return

  /** An empty level returns at once; a concurrency below one means one; the
      pool never has more tokens than services. */
  function Init(size: nat, concurrency: int): Pool {
    var wanted := if concurrency < 1 then 1 else concurrency;
    Pool(if wanted > size then size else wanted,
         seq(size, _ => Worker(Unspawned, 0, Pending)),
         0, 0, false, [],
         if size == 0 then Returned(None) else Spawning)
  }

  predicate At(s: Pool, i: nat, pc: Pc) {
    i < |s.workers| && s.workers[i].pc == pc
  }

  predicate Enabled(s: Pool, a: Action) {
    match a
    case Spawn => s.caller == Spawning && s.spawned < |s.workers| && At(s, s.spawned, Unspawned)
    case AllSpawned => s.caller == Spawning && s.spawned == |s.workers|
    case TakeCancelled(i) => At(s, i, Selecting) && s.cancelled
    case TakeSemaphore(i) => At(s, i, Selecting) && s.held < s.capacity
    case Succeed(i) => At(s, i, Running)
    case Fail(i) => At(s, i, Running)
    case Send(i) => At(s, i, Sending) && |s.errs| < |s.workers|
    case Cancel(i) => At(s, i, Cancelling)
    case Release(i) => At(s, i, Releasing) && s.held > 0
    case Finish(i) => At(s, i, Exiting)
    case Return => s.caller == Waiting && forall i :: 0 <= i < |s.workers| ==> s.workers[i].pc == Exited
  }

  function Move(s: Pool, i: nat, pc: Pc): Pool
    requires i < |s.workers|
  {
    s.(workers := s.workers[i := s.workers[i].(pc := pc)])
  }

  function Settle(s: Pool, i: nat, pc: Pc, outcome: Outcome): Pool
    requires i < |s.workers|
  {
    s.(workers := s.workers[i := s.workers[i].(pc := pc, outcome := outcome)])
  }

  function Step(s: Pool, a: Action): Pool
    requires Enabled(s, a)
  {
    match a
    case Spawn => Move(s, s.spawned, Selecting).(spawned := s.spawned + 1)
    case AllSpawned => s.(caller := Waiting)
    case TakeCancelled(i) => Settle(s, i, Exiting, Skipped)
    case TakeSemaphore(i) =>
      s.(held := s.held + 1,
         workers := s.workers[i := s.workers[i].(pc := Running, runs := s.workers[i].runs + 1)])
    case Succeed(i) => Settle(s, i, Releasing, Succeeded)
    case Fail(i) => Settle(s, i, Sending, Failed)
    case Send(i) => Move(s, i, Cancelling).(errs := s.errs + [i])
    case Cancel(i) => Move(s, i, Releasing).(cancelled := true)
    case Release(i) => Move(s, i, Exiting).(held := s.held - 1)
    case Finish(i) => Move(s, i, Exited)
    case Return => s.(caller := Returned(if |s.errs| > 0 then Some(s.errs[0]) else None))
  }

  /** A schedule that can be played from `s`. */
  predicate Playable(s: Pool, acts: seq<Action>)
    decreases |acts|
  {
    |acts| == 0 || (Enabled(s, acts[0]) && Playable(Step(s, acts[0]), acts[1..]))
  }

  function Play(s: Pool, acts: seq<Action>): Pool
    requires Playable(s, acts)
    decreases |acts|
  {
    if |acts| == 0 then s else Play(Step(s, acts[0]), acts[1..])
  }

  // ---- Counting workers --------------------------------------------------

  function Count(ws: seq<Worker>, f: Worker -> bool): nat {
    if |ws| == 0 then 0 else Count(ws[..|ws| - 1], f) + (if f(ws[|ws| - 1]) then 1 else 0)
  }

  lemma {:induction false} CountUpdate(ws: seq<Worker>, i: nat, w: Worker, f: Worker -> bool)
    requires i < |ws|
    ensures Count(ws[i := w], f) == Count(ws, f) - (if f(ws[i]) then 1 else 0) + (if f(w) then 1 else 0)
  {
    var last := |ws| - 1;
    if i == last {
      assert ws[i := w][..last] == ws[..last];
    } else {
      CountUpdate(ws[..last], i, w, f);
      assert ws[i := w][..last] == ws[..last][i := w];
    }
  }

  lemma {:induction false} CountLimits(ws: seq<Worker>, f: Worker -> bool)
    ensures Count(ws, f) <= |ws|
    ensures Count(ws, f) == |ws| <==> forall i :: 0 <= i < |ws| ==> f(ws[i])
    ensures Count(ws, f) == 0 <==> forall i :: 0 <= i < |ws| ==> !f(ws[i])
  {
    if |ws| > 0 {
      var front := ws[..|ws| - 1];
      CountLimits(front, f);
      assert forall i :: 0 <= i < |front| ==> front[i] == ws[i];
    }
  }

  lemma {:induction false} CountMonotone(ws: seq<Worker>, f: Worker -> bool, g: Worker -> bool)
    requires forall w :: f(w) ==> g(w)
    ensures Count(ws, f) <= Count(ws, g)
  {
    if |ws| > 0 { CountMonotone(ws[..|ws| - 1], f, g); }
  }

  predicate Holds(w: Worker) {
    w.pc.Running? || w.pc.Sending? || w.pc.Cancelling? || w.pc.Releasing?
  }

  predicate Sent(w: Worker) {
    w.outcome == Failed && !w.pc.Sending?
  }

  predicate InFlight(w: Worker) { w.pc.Running? }

  // ---- The invariant -----------------------------------------------------

  /** What a single goroutine's record may look like. */
  predicate WorkerOk(w: Worker) {
    match w.pc
    case Unspawned => w.runs == 0 && w.outcome == Pending
    case Selecting => w.runs == 0 && w.outcome == Pending
    case Running => w.runs == 1 && w.outcome == Pending
    case Sending => w.runs == 1 && w.outcome == Failed
    case Cancelling => w.runs == 1 && w.outcome == Failed
    case Releasing => w.runs == 1 && (w.outcome == Failed || w.outcome == Succeeded)
    case Exiting => Ended(w)
    case Exited => Ended(w)
  }

  predicate Ended(w: Worker) {
    (w.outcome == Skipped && w.runs == 0) || (w.runs == 1 && (w.outcome == Failed || w.outcome == Succeeded))
  }

  /** The two channels hold exactly the tokens and errors the goroutines put
      there. */
  ghost predicate CountsOk(s: Pool) {
    && (|s.workers| > 0 ==> s.capacity > 0)
    && s.held <= s.capacity
    && s.held == Count(s.workers, Holds)
    && |s.errs| == Count(s.workers, Sent)
  }

  ghost predicate WorkersOk(s: Pool) {
    && s.spawned <= |s.workers|
    && (forall i :: 0 <= i < |s.workers| ==> WorkerOk(s.workers[i]))
    && (forall i :: 0 <= i < |s.workers| ==> (s.workers[i].pc == Unspawned <==> s.spawned <= i))
  }

  ghost predicate Reported(s: Pool, e: nat) {
    e < |s.workers| && s.workers[e].outcome == Failed
  }

  ghost predicate CancelOk(s: Pool) {
    && (s.cancelled ==> |s.errs| > 0)
    && (forall e :: e in s.errs ==> Reported(s, e))
    && (forall i :: 0 <= i < |s.workers| && s.workers[i].outcome == Skipped ==> s.cancelled)
  }

  ghost predicate CallerOk(s: Pool) {
    && (s.caller == Spawning || s.spawned == |s.workers|)
    && (s.caller.Returned? ==>
          && (forall i :: 0 <= i < |s.workers| ==> s.workers[i].pc == Exited)
          && s.caller.error == (if |s.errs| > 0 then Some(s.errs[0]) else None))
  }

  ghost predicate Inv(s: Pool) {
    CountsOk(s) && WorkersOk(s) && CancelOk(s) && CallerOk(s)
  }

  lemma InitInv(size: nat, concurrency: int)
    ensures Inv(Init(size, concurrency))
  {
    CountLimits(Init(size, concurrency).workers, Holds);
    CountLimits(Init(size, concurrency).workers, Sent);
  }

  /** The one worker a step of a goroutine touches. */
  function Touched(s: Pool, a: Action): nat
    requires !a.AllSpawned? && !a.Return?
  {
    if a.Spawn? then s.spawned else a.i
  }

  lemma StepTouches(s: Pool, a: Action)
    requires Enabled(s, a) && !a.AllSpawned? && !a.Return?
    ensures Touched(s, a) < |s.workers| == |Step(s, a).workers|
    ensures Step(s, a).workers == s.workers[Touched(s, a) := Step(s, a).workers[Touched(s, a)]]
  {
  }

  lemma StepHeld(s: Pool, a: Action)
    requires Inv(s) && Enabled(s, a)
    ensures Step(s, a).held == Count(Step(s, a).workers, Holds) && Step(s, a).held <= s.capacity
  {
    if !a.AllSpawned? && !a.Return? {
      StepTouches(s, a);
      CountUpdate(s.workers, Touched(s, a), Step(s, a).workers[Touched(s, a)], Holds);
    }
  }

  lemma StepErrs(s: Pool, a: Action)
    requires Inv(s) && Enabled(s, a)
    ensures |Step(s, a).errs| == Count(Step(s, a).workers, Sent)
  {
    if !a.AllSpawned? && !a.Return? {
      StepTouches(s, a);
      assert WorkerOk(s.workers[Touched(s, a)]);
      CountUpdate(s.workers, Touched(s, a), Step(s, a).workers[Touched(s, a)], Sent);
    }
  }

  lemma StepWorkers(s: Pool, a: Action)
    requires WorkersOk(s) && Enabled(s, a)
    ensures WorkersOk(Step(s, a))
  {
    if !a.AllSpawned? && !a.Return? {
      StepTouches(s, a);
      var i := Touched(s, a);
      assert WorkerOk(s.workers[i]) && (s.workers[i].pc == Unspawned <==> s.spawned <= i);
      assert WorkerOk(Step(s, a).workers[i]);
    }
  }

  lemma StepCancel(s: Pool, a: Action)
    requires Inv(s) && Enabled(s, a)
    ensures CancelOk(Step(s, a))
  {
    var t := Step(s, a);
    forall e | e in t.errs ensures Reported(t, e) {
      if e in s.errs { assert Reported(s, e); }
    }
    if a.Cancel? {
      assert Sent(s.workers[a.i]);
      CountLimits(s.workers, Sent);
    }
  }

  lemma StepCaller(s: Pool, a: Action)
    requires Inv(s) && Enabled(s, a)
    ensures CallerOk(Step(s, a))
  {
  }

  lemma StepInv(s: Pool, a: Action)
    requires Inv(s) && Enabled(s, a)
    ensures Inv(Step(s, a))
  {
    StepHeld(s, a);
    StepErrs(s, a);
    StepWorkers(s, a);
    StepCancel(s, a);
    StepCaller(s, a);
  }

  lemma {:induction false} PlayInv(s: Pool, acts: seq<Action>)
    requires Inv(s) && Playable(s, acts)
    ensures Inv(Play(s, acts))
    decreases |acts|
  {
    if |acts| > 0 {
      StepInv(s, acts[0]);
      PlayInv(Step(s, acts[0]), acts[1..]);
    }
  }

  // ---- Main results ------------------------------------------------------

  /** Safety of every interleaving: at most max(1, concurrency) services are
      inside their function, each service runs at most once, and a service is
      skipped only when another one has failed. */
  lemma PoolIsBounded(size: nat, concurrency: int, acts: seq<Action>)
    requires Playable(Init(size, concurrency), acts)
    ensures var s := Play(Init(size, concurrency), acts);
      && |s.workers| == size
      && Count(s.workers, InFlight) <= (if concurrency < 1 then 1 else concurrency)
      && (forall i :: 0 <= i < size ==> s.workers[i].runs <= 1)
      && (forall i :: 0 <= i < size && s.workers[i].outcome == Skipped ==>
            exists j :: 0 <= j < size && j != i && s.workers[j].outcome == Failed)
  {
    InitInv(size, concurrency);
    PlayInv(Init(size, concurrency), acts);
    PlayShape(Init(size, concurrency), acts);
    var s := Play(Init(size, concurrency), acts);
    CountMonotone(s.workers, InFlight, Holds);
    forall i | 0 <= i < size && s.workers[i].outcome == Skipped
      ensures exists j :: 0 <= j < size && j != i && s.workers[j].outcome == Failed
    {
      assert Reported(s, s.errs[0]);
    }
  }

  lemma {:induction false} PlayShape(s: Pool, acts: seq<Action>)
    requires Playable(s, acts)
    ensures |Play(s, acts).workers| == |s.workers| && Play(s, acts).capacity == s.capacity
    decreases |acts|
  {
    if |acts| > 0 { PlayShape(Step(s, acts[0]), acts[1..]); }
  }

  /** A goroutine that wants to send its error always finds room: the channel
      was made with one slot per service. */
  lemma ErrorSendNeverBlocks(s: Pool, i: nat)
    requires Inv(s) && At(s, i, Sending)
    ensures Enabled(s, Send(i))
  {
    CountLimits(s.workers, Sent);
  }

  /** No reachable state is stuck before the caller has returned. */
  lemma NoDeadlock(s: Pool) returns (a: Action)
    requires Inv(s) && !s.caller.Returned?
    ensures Enabled(s, a)
  {
    if s.caller == Spawning {
      return if s.spawned < |s.workers| then Spawn else AllSpawned;
    }
    if forall i :: 0 <= i < |s.workers| ==> s.workers[i].pc == Exited {
      return Return;
    }
    var i :| 0 <= i < |s.workers| && s.workers[i].pc != Exited;
    if s.workers[i].pc == Selecting {
      if s.cancelled { return TakeCancelled(i); }
      if s.held < s.capacity { return TakeSemaphore(i); }
      CountLimits(s.workers, Holds);
      var j :| 0 <= j < |s.workers| && Holds(s.workers[j]);
      i := j;
    }
    CountLimits(s.workers, Holds);
    match s.workers[i].pc {
      case Running => return Succeed(i);
      case Sending => ErrorSendNeverBlocks(s, i); return Send(i);
      case Cancelling => return Cancel(i);
      case Releasing => return Release(i);
      case Exiting => return Finish(i);
    }
  }

  function Rank(pc: Pc): nat {
    match pc
    case Unspawned => 7
    case Selecting => 6
    case Running => 5
    case Sending => 4
    case Cancelling => 3
    case Releasing => 2
    case Exiting => 1
    case Exited => 0
  }

  function TotalRank(ws: seq<Worker>): nat {
    if |ws| == 0 then 0 else TotalRank(ws[..|ws| - 1]) + Rank(ws[|ws| - 1].pc)
  }

  function Measure(s: Pool): nat {
    TotalRank(s.workers) + (match s.caller case Spawning => 2 case Waiting => 1 case Returned(_) => 0)
  }

  lemma {:induction false} TotalRankUpdate(ws: seq<Worker>, i: nat, w: Worker)
    requires i < |ws|
    ensures TotalRank(ws[i := w]) == TotalRank(ws) - Rank(ws[i].pc) + Rank(w.pc)
  {
    var last := |ws| - 1;
    if i == last {
      assert ws[i := w][..last] == ws[..last];
    } else {
      TotalRankUpdate(ws[..last], i, w);
      assert ws[i := w][..last] == ws[..last][i := w];
    }
  }

  /** Every step decreases the measure, so every schedule is finite. */
  lemma StepDecreases(s: Pool, a: Action)
    requires Enabled(s, a)
    ensures Measure(Step(s, a)) < Measure(s)
  {
    if !a.AllSpawned? && !a.Return? {
      StepTouches(s, a);
      TotalRankUpdate(s.workers, Touched(s, a), Step(s, a).workers[Touched(s, a)]);
    }
  }

  /** Together: from any reachable state some schedule reaches the return, and
      no schedule is longer than the measure allows. */
  lemma {:induction false} AlwaysReturns(s: Pool) returns (acts: seq<Action>)
    requires Inv(s)
    ensures Playable(s, acts) && Play(s, acts).caller.Returned?
    decreases Measure(s)
  {
    if s.caller.Returned? {
      acts := [];
    } else {
      var a := NoDeadlock(s);
      StepInv(s, a);
      StepDecreases(s, a);
      var rest := AlwaysReturns(Step(s, a));
      acts := [a] + rest;
      assert acts[1..] == rest;
    }
  }

  lemma {:induction false} SchedulesAreFinite(s: Pool, acts: seq<Action>)
    requires Playable(s, acts)
    ensures |acts| <= Measure(s)
    decreases |acts|
  {
    if |acts| > 0 {
      StepDecreases(s, acts[0]);
      SchedulesAreFinite(Step(s, acts[0]), acts[1..]);
    }
  }

  /** The contract of the call.  When it returns, no service is still running
      and no token is held; it returns nil exactly when every service ran and
      succeeded, and otherwise the error of a service that really failed. */
  lemma ReturnIsTruthful(size: nat, concurrency: int, acts: seq<Action>)
    requires Playable(Init(size, concurrency), acts)
    requires Play(Init(size, concurrency), acts).caller.Returned?
    ensures var s := Play(Init(size, concurrency), acts);
      && |s.workers| == size
      && s.held == 0
      && (forall i :: 0 <= i < size ==> s.workers[i].pc == Exited && Ended(s.workers[i]))
      && (s.caller.error == None <==> forall i :: 0 <= i < size ==> s.workers[i].outcome == Succeeded && s.workers[i].runs == 1)
      && (s.caller.error.Some? ==> s.caller.error.value < size && s.workers[s.caller.error.value].outcome == Failed)
  {
    InitInv(size, concurrency);
    PlayInv(Init(size, concurrency), acts);
    PlayShape(Init(size, concurrency), acts);
    var s := Play(Init(size, concurrency), acts);
    CountLimits(s.workers, Holds);
    CountLimits(s.workers, Sent);
    if |s.errs| > 0 { assert Reported(s, s.errs[0]); }
  }

  /** The error returned is the first one sent. */
  function FirstSent(acts: seq<Action>): Option<nat> {
    if |acts| == 0 then None
    else if acts[0].Send? then Some(acts[0].i)
    else FirstSent(acts[1..])
  }

  lemma {:induction false} ErrorsInOrder(s: Pool, acts: seq<Action>)
    requires Playable(s, acts)
    ensures var t := Play(s, acts);
      if |s.errs| > 0 then |t.errs| > 0 && t.errs[0] == s.errs[0]
      else (|t.errs| > 0 <==> FirstSent(acts).Some?) && (|t.errs| > 0 ==> t.errs[0] == FirstSent(acts).value)
    decreases |acts|
  {
    if |acts| > 0 { ErrorsInOrder(Step(s, acts[0]), acts[1..]); }
  }

  lemma FirstErrorWins(size: nat, concurrency: int, acts: seq<Action>)
    requires Playable(Init(size, concurrency), acts)
    requires Play(Init(size, concurrency), acts).caller.Returned?
    ensures Play(Init(size, concurrency), acts).caller.error == FirstSent(acts)
  {
    InitInv(size, concurrency);
    PlayInv(Init(size, concurrency), acts);
    ErrorsInOrder(Init(size, concurrency), acts);
  }

  // ---- The bound is reached ----------------------------------------------

  /** Spawn and start services one after the other. */
  lemma {:induction false} Fill(s: Pool, m: nat) returns (acts: seq<Action>)
    requires Inv(s) && s.caller == Spawning && s.spawned == s.held == Count(s.workers, InFlight) <= m <= s.capacity
    requires m <= |s.workers|
    ensures Playable(s, acts) && Count(Play(s, acts).workers, InFlight) == m
    decreases m - s.spawned
  {
    var k := s.spawned;
    if k == m {
      acts := [];
    } else {
      assert s.workers[k].pc == Unspawned;
      var s1 := Step(s, Spawn);
      StepInv(s, Spawn);
      CountUpdate(s.workers, k, s1.workers[k], InFlight);
      var s2 := Step(s1, TakeSemaphore(k));
      StepInv(s1, TakeSemaphore(k));
      CountUpdate(s1.workers, k, s2.workers[k], InFlight);
      acts := Fill(s2, m);
      PlayCons(s1, TakeSemaphore(k), acts);
      PlayCons(s, Spawn, [TakeSemaphore(k)] + acts);
      acts := [Spawn] + ([TakeSemaphore(k)] + acts);
    }
  }

  /** The bound is tight: some schedule has as many services inside their
      functions at once as there are, or as the concurrency allows. */
  lemma BoundIsReached(size: nat, concurrency: int) returns (acts: seq<Action>)
    ensures Playable(Init(size, concurrency), acts)
    ensures var allowed := if concurrency < 1 then 1 else concurrency;
      Count(Play(Init(size, concurrency), acts).workers, InFlight) == if size < allowed then size else allowed
  {
    var s := Init(size, concurrency);
    InitInv(size, concurrency);
    CountLimits(s.workers, InFlight);
    if size == 0 {
      acts := [];
    } else {
      acts := Fill(s, s.capacity);
    }
  }

  // ---- Starting after the cancellation -----------------------------------

  /** The function of this service has not been entered, and could still be. */
  predicate Undecided(s: Pool, i: nat) {
    At(s, i, Unspawned) || At(s, i, Selecting)
  }

  lemma PlayCons(s: Pool, a: Action, acts: seq<Action>)
    requires Enabled(s, a) && Playable(Step(s, a), acts)
    ensures Playable(s, [a] + acts) && Play(s, [a] + acts) == Play(Step(s, a), acts)
  {
    assert ([a] + acts)[1..] == acts;
  }

  /** A step by the holder of a token, towards giving it back. */
  function Unwind(s: Pool, j: nat): Action
    requires j < |s.workers|
  {
    match s.workers[j].pc
    case Running => Succeed(j)
    case Sending => Send(j)
    case Cancelling => Cancel(j)
    case _ => Release(j)
  }

  /** What brings an undecided service closer to its semaphore token: its own
      spawning, or a token holder's next step. */
  lemma Approach(s: Pool, i: nat) returns (a: Action)
    requires Inv(s) && Undecided(s, i) && !(At(s, i, Selecting) && s.held < s.capacity)
    ensures Enabled(s, a) && Undecided(Step(s, a), i)
    ensures s.cancelled ==> Step(s, a).cancelled
  {
    if At(s, i, Unspawned) {
      assert s.workers[i].pc == Unspawned;
      return Spawn;
    }
    CountLimits(s.workers, Holds);
    var j :| 0 <= j < |s.workers| && Holds(s.workers[j]);
    if s.workers[j].pc == Sending { ErrorSendNeverBlocks(s, j); }
    return Unwind(s, j);
  }

  /** The cancellation is only advisory: from every reachable state, cancelled
      or not, some schedule starts any service that is not decided yet. */
  lemma {:induction false} StartAfterCancelIsPossible(s: Pool, i: nat) returns (acts: seq<Action>)
    requires Inv(s) && Undecided(s, i)
    ensures Playable(s, acts) && Enabled(Play(s, acts), TakeSemaphore(i))
    ensures s.cancelled ==> Play(s, acts).cancelled
    decreases Measure(s)
  {
    if At(s, i, Selecting) && s.held < s.capacity {
      acts := [];
    } else {
      var a := Approach(s, i);
      StepInv(s, a);
      StepDecreases(s, a);
      acts := StartAfterCancelIsPossible(Step(s, a), i);
      PlayCons(s, a, acts);
      acts := [a] + acts;
    }
  }

  /** A schedule after which service i is started although the level has been
      cancelled. */
  predicate StartsLate(size: nat, concurrency: int, acts: seq<Action>, i: nat) {
    && Playable(Init(size, concurrency), acts)
    && Play(Init(size, concurrency), acts).cancelled
    && Enabled(Play(Init(size, concurrency), acts), TakeSemaphore(i))
  }

  /** A service inside its function fails and cancels; then another starts. */
  lemma FailThenStart(s: Pool, i: nat, j: nat) returns (acts: seq<Action>)
    requires Inv(s) && At(s, i, Running) && Undecided(s, j)
    ensures Playable(s, acts) && Play(s, acts).cancelled && Enabled(Play(s, acts), TakeSemaphore(j))
  {
    var s1 := Step(s, Fail(i));
    StepInv(s, Fail(i));
    ErrorSendNeverBlocks(s1, i);
    var s2 := Step(s1, Send(i));
    StepInv(s1, Send(i));
    var s3 := Step(s2, Cancel(i));
    StepInv(s2, Cancel(i));
    acts := StartAfterCancelIsPossible(s3, j);
    PlayCons(s2, Cancel(i), acts);
    PlayCons(s1, Send(i), [Cancel(i)] + acts);
    PlayCons(s, Fail(i), [Send(i)] + ([Cancel(i)] + acts));
    acts := [Fail(i)] + ([Send(i)] + ([Cancel(i)] + acts));
  }

  /** The first service fails and cancels before the second is spawned. */
  lemma TwoCanStartLate(size: nat, concurrency: int) returns (acts: seq<Action>)
    requires size >= 2
    ensures StartsLate(size, concurrency, acts, 1)
  {
    var s := Init(size, concurrency);
    InitInv(size, concurrency);
    var s1 := Step(s, Spawn);
    StepInv(s, Spawn);
    var s2 := Step(s1, TakeSemaphore(0));
    StepInv(s1, TakeSemaphore(0));
    acts := FailThenStart(s2, 0, 1);
    PlayCons(s1, TakeSemaphore(0), acts);
    PlayCons(s, Spawn, [TakeSemaphore(0)] + acts);
    acts := [Spawn] + ([TakeSemaphore(0)] + acts);
  }

  /** Somebody else has failed. */
  lemma LateStartNeedsAnother(size: nat, concurrency: int, acts: seq<Action>, i: nat)
    requires StartsLate(size, concurrency, acts, i)
    ensures size >= 2
  {
    InitInv(size, concurrency);
    PlayInv(Init(size, concurrency), acts);
    PlayShape(Init(size, concurrency), acts);
    var t := Play(Init(size, concurrency), acts);
    assert Reported(t, t.errs[0]);
    assert WorkerOk(t.workers[i]);
  }

  /** Exactly the levels of at least two services can start one after the
      cancellation, whatever the concurrency. */
  lemma LateStartNeedsTwo(size: nat, concurrency: int)
    ensures (exists acts, i :: StartsLate(size, concurrency, acts, i)) <==> size >= 2
  {
    if size >= 2 {
      var acts := TwoCanStartLate(size, concurrency);
    }
    forall acts, i | StartsLate(size, concurrency, acts, i) ensures size >= 2 {
      LateStartNeedsAnother(size, concurrency, acts, i);
    }
  }
}

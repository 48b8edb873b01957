/** Plan application (cmd/plan.go, applyPlan) by any number of processes, as a
    step machine over the two durable facts that decide execution: the plan's
    stored status and its entry in the request-key ledger.

    One step is one durable read or write, or the entry into the engine.  A
    process may crash at any step, every best-effort write may be lost, and
    every check before the ledger is an oracle that may refuse.  The ledger
    operations follow internal/ops/ledger.go: BeginKey inserts the key if it is
    absent and otherwise replays, or errors when the entry is in progress;
    CompleteKeyData completes whatever in-progress entry the key has, whoever
    owns it; a completed entry may be evicted. */
module PlanMachine {
  datatype Status = Created | Applied | Failed

  datatype Envelope = Success | Failure

  datatype Entry = Absent | InProgress(owner: nat) | Complete(envelope: Envelope)

  /** What the engine returned: nil (with or without a staged success
      envelope), an ordinary error, or the verify-failed error with or without
      a staged verification outcome. */
  datatype Outcome = Nil(staged: bool) | Error | VerifyFailed(verification: bool)

  datatype Pc =
    | Idle
    | Window                      // loaded the plan as created, validating it
    | BeginFailed                 // the ledger refused; the deferred finish is due
    | Replaying(envelope: Envelope)
    | Granted                     // the ledger said execute; engine not entered yet
    | Engine
    | Marking(outcome: Outcome)   // plan status write is due
    | Finishing(outcome: Outcome) // the deferred finish is due
    | Dead

  /** `granted` counts how often the ledger stored the key as in progress, with
      an error or without; `entered` how often the engine was entered. */
  datatype World = World(status: Status, entry: Entry, procs: map<nat, Pc>, granted: nat, entered: nat)

  datatype Action =
    | Load(p: nat)
    | Refuse(p: nat)
    | Begin(p: nat)
    | BeginError(p: nat, stored: bool)   // storing a new entry may write it and still fail
    | CompleteAfterError(p: nat, written: bool)
    | Reconcile(p: nat, written: bool)
    | Enter(p: nat)
    | EngineReturns(p: nat, outcome: Outcome)
    | Mark(p: nat, written: bool)
    | Finish(p: nat, written: bool)
    | Crash(p: nat)
    | CloseInProgress             // an orphaned or abandoned entry is closed as indeterminate
    | Evict

  function At(w: World, p: nat): Pc {
    if p in w.procs then w.procs[p] else Idle
  }

  function Goto(w: World, p: nat, pc: Pc): World {
    w.(procs := w.procs[p := pc])
  }

  predicate Enabled(w: World, a: Action) {
    match a
    case Load(p) => At(w, p) == Idle
    case Refuse(p) => At(w, p) == Window
    case Begin(p) => At(w, p) == Window
    case BeginError(p, _) => At(w, p) == Window
    case CompleteAfterError(p, _) => At(w, p) == BeginFailed
    case Reconcile(p, _) => At(w, p).Replaying?
    case Enter(p) => At(w, p) == Granted
    case EngineReturns(p, _) => At(w, p) == Engine
    case Mark(p, _) => At(w, p).Marking?
    case Finish(p, _) => At(w, p).Finishing?
    case Crash(p) => At(w, p) != Dead
    case CloseInProgress => w.entry.InProgress?
    case Evict => w.entry.Complete?
  }

  /** CompleteKeyData: only an in-progress entry changes. */
  function Completed(entry: Entry, e: Envelope): Entry {
    if entry.InProgress? then Complete(e) else entry
  }

  function StatusOf(e: Envelope): Status {
    match e case Success => Applied case Failure => Failed
  }

  /** recordPlanTerminal: any error marks the plan failed. */
  function TerminalStatus(o: Outcome): Status {
    if o.Nil? then Applied else Failed
  }

  /** finish: a nil return without a staged envelope completes nothing. */
  function FinishedEntry(entry: Entry, o: Outcome): Entry {
    match o
    case Nil(staged) => if staged then Completed(entry, Success) else entry
    case _ => Completed(entry, Failure)
  }

  function Step(w: World, a: Action): World
    requires Enabled(w, a)
  {
    match a
    case Load(p) => Goto(w, p, if w.status == Created then Window else Idle)
    case Refuse(p) => Goto(w, p, Idle)
    case Begin(p) =>
      (match w.entry
       case Absent => Goto(w, p, Granted).(entry := InProgress(p), granted := w.granted + 1)
       case InProgress(_) => Goto(w, p, BeginFailed)
       case Complete(e) => Goto(w, p, Replaying(e)))
    case BeginError(p, stored) =>
      if stored && w.entry == Absent then Goto(w, p, BeginFailed).(entry := InProgress(p), granted := w.granted + 1)
      else Goto(w, p, BeginFailed)
    case CompleteAfterError(p, written) =>
      Goto(w, p, Idle).(entry := if written then Completed(w.entry, Failure) else w.entry)
    case Reconcile(p, written) =>
      Goto(w, p, Idle).(status := if written then StatusOf(At(w, p).envelope) else w.status)
    case Enter(p) => Goto(w, p, Engine).(entered := w.entered + 1)
    case EngineReturns(p, o) => Goto(w, p, Marking(o))
    case Mark(p, written) =>
      Goto(w, p, Finishing(At(w, p).outcome)).(status := if written then TerminalStatus(At(w, p).outcome) else w.status)
    case Finish(p, written) =>
      Goto(w, p, Idle).(entry := if written then FinishedEntry(w.entry, At(w, p).outcome) else w.entry)
    case Crash(p) => Goto(w, p, Dead)
    case CloseInProgress => w.(entry := Complete(Failure))
    case Evict => w.(entry := Absent)
  }

  predicate Playable(w: World, acts: seq<Action>)
    decreases |acts|
  {
    |acts| == 0 || (Enabled(w, acts[0]) && Playable(Step(w, acts[0]), acts[1..]))
  }

  function Play(w: World, acts: seq<Action>): World
    requires Playable(w, acts)
    decreases |acts|
  {
    if |acts| == 0 then w else Play(Step(w, acts[0]), acts[1..])
  }

  const Fresh := World(Created, Absent, map[], 0, 0)

  // ---- When eviction is harmless -----------------------------------------

  /** No process is between reading the plan as created and asking the ledger. */
  ghost predicate NoWindow(w: World) {
    forall p :: At(w, p) != Window
  }

  /** A completed entry may go once the stored status refuses every later
      apply and nobody is still acting on an older reading of it. */
  ghost predicate EvictSafe(w: World) {
    w.status != Created && NoWindow(w)
  }

  ghost predicate Guarded(w: World, acts: seq<Action>)
    requires Playable(w, acts)
    decreases |acts|
  {
    |acts| == 0 || ((acts[0] == Evict ==> EvictSafe(w)) && Guarded(Step(w, acts[0]), acts[1..]))
  }

  // ---- At most once ------------------------------------------------------

  /** Whoever holds the grant is the only one, and has not entered yet. */
  ghost predicate GrantOk(w: World) {
    && w.entered <= w.granted <= 1
    && (forall p :: At(w, p) == Granted ==> w.granted == 1 && w.entered == 0)
    && (forall p, q :: At(w, p) == Granted && At(w, q) == Granted ==> p == q)
  }

  /** Once the key has been stored, the ledger still has the key, or nobody
      can get past the stored status any more. */
  ghost predicate Spent(w: World) {
    w.granted > 0 ==> w.entry != Absent || EvictSafe(w)
  }

  ghost predicate Inv(w: World) {
    GrantOk(w) && Spent(w) && (w.entry != Absent ==> w.granted > 0)
  }

  lemma StepInv(w: World, a: Action)
    requires Inv(w) && Enabled(w, a)
    requires a == Evict ==> EvictSafe(w)
    ensures Inv(Step(w, a))
  {
    StepGrant(w, a);
    StepSpent(w, a);
  }

  /** A step moves at most the process it names. */
  lemma StepMoves(w: World, a: Action, p: nat)
    requires Enabled(w, a)
    requires a == CloseInProgress || a == Evict || a.p != p
    ensures At(Step(w, a), p) == At(w, p)
  {
  }

  lemma StepGrant(w: World, a: Action)
    requires Inv(w) && Enabled(w, a)
    requires a == Evict ==> EvictSafe(w)
    ensures GrantOk(Step(w, a))
  {
    var t := Step(w, a);
    if a.Begin? || a.BeginError? {
      assert At(w, a.p) == Window;
    }
    forall p | At(t, p) == Granted ensures t.granted == 1 && t.entered == 0 {
      if a == CloseInProgress || a == Evict || a.p != p { StepMoves(w, a, p); }
    }
    forall p, q | At(t, p) == Granted && At(t, q) == Granted ensures p == q {
      if a == CloseInProgress || a == Evict || a.p != p { StepMoves(w, a, p); }
      if a == CloseInProgress || a == Evict || a.p != q { StepMoves(w, a, q); }
    }
  }

  lemma StepSpent(w: World, a: Action)
    requires Inv(w) && Enabled(w, a)
    requires a == Evict ==> EvictSafe(w)
    ensures Spent(Step(w, a)) && (Step(w, a).entry != Absent ==> Step(w, a).granted > 0)
  {
    var t := Step(w, a);
    if EvictSafe(w) {
      forall p ensures At(t, p) != Window {
        if a == CloseInProgress || a == Evict || a.p != p { StepMoves(w, a, p); }
      }
    }
    if a.Begin? || a.BeginError? {
      assert At(w, a.p) == Window;
    }
  }

  lemma {:induction false} PlayInv(w: World, acts: seq<Action>)
    requires Inv(w) && Playable(w, acts) && Guarded(w, acts)
    ensures Inv(Play(w, acts))
    decreases |acts|
  {
    if |acts| > 0 {
      StepInv(w, acts[0]);
      PlayInv(Step(w, acts[0]), acts[1..]);
    }
  }

  /** At most once, over every run of any number of processes: the engine is
      entered at most once as long as the key is evicted only when EvictSafe
      holds.  Nothing is assumed about crashes, lost writes, refusals, or about
      who completes whose entry. */
  lemma AtMostOnce(acts: seq<Action>)
    requires Playable(Fresh, acts) && Guarded(Fresh, acts)
    ensures Play(Fresh, acts).entered <= Play(Fresh, acts).granted <= 1
  {
    PlayInv(Fresh, acts);
  }

  lemma PlayStep(w: World, a: Action, t: World, acts: seq<Action>) returns (longer: seq<Action>)
    requires Enabled(w, a) && t == Step(w, a) && Playable(t, acts)
    ensures longer == [a] + acts
    ensures Playable(w, longer) && Play(w, longer) == Play(t, acts)
  {
    longer := [a] + acts;
    assert longer[1..] == acts;
  }

  // ---- Serialized applies ------------------------------------------------

  predicate Busy(pc: Pc) { !pc.Idle? && !pc.Dead? }

  /** Applies do not overlap, and the key is evicted only after the stored
      status is terminal. */
  ghost predicate Serial(w: World, acts: seq<Action>)
    requires Playable(w, acts)
    decreases |acts|
  {
    |acts| == 0 ||
    ( && (acts[0].Load? ==> forall q :: !Busy(At(w, q)))
      && (acts[0] == Evict ==> w.status != Created)
      && Serial(Step(w, acts[0]), acts[1..]))
  }

  ghost predicate OneAtATime(w: World) {
    && (forall p, q :: Busy(At(w, p)) && Busy(At(w, q)) ==> p == q)
    && (forall p :: At(w, p) == Window ==> w.status == Created)
  }

  lemma StepOneAtATime(w: World, a: Action)
    requires OneAtATime(w) && Enabled(w, a)
    requires a.Load? ==> forall q :: !Busy(At(w, q))
    ensures OneAtATime(Step(w, a))
  {
    var t := Step(w, a);
    forall p | Busy(At(t, p)) ensures Busy(At(w, p)) || a == Load(p) {
      if a == CloseInProgress || a == Evict || a.p != p { StepMoves(w, a, p); }
    }
    forall p | At(t, p) == Window ensures t.status == Created {
      if a == CloseInProgress || a == Evict || a.p != p { StepMoves(w, a, p); }
    }
  }

  /** For serialized applies the guard is just the stored status. */
  lemma {:induction false} SerialIsGuarded(w: World, acts: seq<Action>)
    requires OneAtATime(w) && Playable(w, acts) && Serial(w, acts)
    ensures Guarded(w, acts)
    decreases |acts|
  {
    if |acts| > 0 {
      StepOneAtATime(w, acts[0]);
      SerialIsGuarded(Step(w, acts[0]), acts[1..]);
    }
  }

  lemma SerialAtMostOnce(acts: seq<Action>)
    requires Playable(Fresh, acts) && Serial(Fresh, acts)
    ensures Play(Fresh, acts).entered <= 1
  {
    SerialIsGuarded(Fresh, acts);
    AtMostOnce(acts);
  }

  // ---- The guard is exact ------------------------------------------------

  /** The guard is exact: evicting in any other state lets the ledger take the
      key, and the engine be entered, once more. */
  lemma UnsafeEvictionGrantsAgain(w: World) returns (acts: seq<Action>)
    requires Inv(w) && w.entry.Complete? && !EvictSafe(w)
    ensures Playable(w, acts) && |acts| > 0 && acts[0] == Evict
    ensures Play(w, acts).granted == 2 && Play(w, acts).entered == w.entered + 1
  {
    var t := Step(w, Evict);
    if NoWindow(w) {
      var p := UnusedPid(w.procs.Keys);
      var u := Step(t, Load(p));
      acts := GrantAndEnter(u, p);
      acts := PlayStep(t, Load(p), u, acts);
    } else {
      var p :| At(w, p) == Window;
      assert At(t, p) == Window;
      acts := GrantAndEnter(t, p);
    }
    acts := PlayStep(w, Evict, t, acts);
  }

  lemma GrantAndEnter(w: World, p: nat) returns (acts: seq<Action>)
    requires At(w, p) == Window && w.entry == Absent
    ensures acts == [Begin(p), Enter(p)]
    ensures Playable(w, acts)
    ensures Play(w, acts).granted == w.granted + 1 && Play(w, acts).entered == w.entered + 1
  {
    var t := Step(w, Begin(p));
    acts := PlayStep(t, Enter(p), Step(t, Enter(p)), []);
    acts := PlayStep(w, Begin(p), t, acts);
  }

  lemma {:induction false} UnusedPid(used: set<nat>) returns (p: nat)
    ensures p !in used
  {
    p := Bound(used);
  }

  ghost function Bound(s: set<nat>): (b: nat)
    ensures forall x :: x in s ==> x < b
  {
    if s == {} then 0 else
      var x :| x in s;
      var rest := Bound(s - {x});
      assert forall y :: y in s ==> y == x || y in s - {x};
      if x < rest then rest else x + 1
  }

  /** The ledger's own rule (evict completed entries only) does not imply the
      guard.  Process 0 is inside the engine; process 1 finds the key in
      progress, errors, and its deferred finish completes the entry of process
      0; the completed entry is evicted; process 2 enters the engine too. */
  lemma OverlappingApplyDefeatsTheLedger() returns (acts: seq<Action>)
    ensures Playable(Fresh, acts)
    ensures Play(Fresh, acts).entered == 2
    ensures At(Play(Fresh, acts), 0) == Engine && At(Play(Fresh, acts), 2) == Engine
    ensures forall k :: 0 <= k < |acts| ==> !acts[k].Crash? && acts[k] != CloseInProgress
  {
    var w1 := World(Created, Absent, map[0 := Window], 0, 0);
    var w2 := World(Created, InProgress(0), map[0 := Granted], 1, 0);
    acts := SecondErrsThirdEnters();
    acts := PlayStep(w2, Enter(0), OneInEngine, acts);
    acts := PlayStep(w1, Begin(0), w2, acts);
    acts := PlayStep(Fresh, Load(0), w1, acts);
  }

  const OneInEngine := World(Created, InProgress(0), map[0 := Engine], 1, 1)

  lemma SecondErrsThirdEnters() returns (acts: seq<Action>)
    ensures Playable(OneInEngine, acts)
    ensures var w := Play(OneInEngine, acts); w.entered == 2 && At(w, 0) == Engine && At(w, 2) == Engine
    ensures forall k :: 0 <= k < |acts| ==> !acts[k].Crash? && acts[k] != CloseInProgress
  {
    var w4 := World(Created, InProgress(0), map[0 := Engine, 1 := Window], 1, 1);
    var w5 := World(Created, InProgress(0), map[0 := Engine, 1 := BeginFailed], 1, 1);
    var w6 := World(Created, Complete(Failure), map[0 := Engine, 1 := Idle], 1, 1);
    acts := ThirdEnters();
    acts := PlayStep(w5, CompleteAfterError(1, true), w6, acts);
    acts := PlayStep(w4, Begin(1), w5, acts);
    acts := PlayStep(OneInEngine, Load(1), w4, acts);
  }

  lemma ThirdEnters() returns (acts: seq<Action>)
    ensures var w := World(Created, Complete(Failure), map[0 := Engine, 1 := Idle], 1, 1);
      Playable(w, acts) && Play(w, acts).entered == 2 && At(Play(w, acts), 0) == Engine && At(Play(w, acts), 2) == Engine
    ensures forall k :: 0 <= k < |acts| ==> !acts[k].Crash? && acts[k] != CloseInProgress
  {
    var w6 := World(Created, Complete(Failure), map[0 := Engine, 1 := Idle], 1, 1);
    var w7 := w6.(entry := Absent);
    var w8 := World(Created, Absent, map[0 := Engine, 1 := Idle, 2 := Window], 1, 1);
    var w9 := World(Created, InProgress(2), map[0 := Engine, 1 := Idle, 2 := Granted], 2, 1);
    var w10 := World(Created, InProgress(2), map[0 := Engine, 1 := Idle, 2 := Engine], 2, 2);
    acts := PlayStep(w9, Enter(2), w10, []);
    acts := PlayStep(w8, Begin(2), w9, acts);
    acts := PlayStep(w7, Load(2), w8, acts);
    acts := PlayStep(w6, Evict, w7, acts);
  }
}

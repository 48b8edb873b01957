/** One apply of a plan, as cmd/plan.go and cmd/oprun.go run it: the status
    gates, the refusals, the operation runner with its deferred finish, the
    engine, and the best-effort terminal writes.

    A `Script` fixes everything the environment decides during one apply.  The
    method `PlanStore.Apply` follows the code; `ApplyPlan` is its meaning, and
    the lemmas below are about that meaning and about sequences of applies. */
module PlanApply {
  import opened Options
  import opened PlanMachine

  datatype RecordStatus = Running | RecordSucceeded | RecordFailed

  /** What survives a process: the stored plan status, the ledger entry, the
      operation records and (as history) how often the engine was entered. */
  datatype Durable = Durable(status: Status, entry: Entry, records: seq<RecordStatus>, entered: nat)

  /** BeginKey errors: a conflict, a full or unreadable ledger or a write that
      failed; or the new entry was written, and syncing the directory failed. */
  datatype BeginFault = NoFault | Fails | FailsStored

  datatype Script = Script(
    pid: nat,
    refused: bool,           // precondition, capability, resolution, drift or authorization
    orphanClosed: bool,      // loading the ledger closes an in-progress entry whose owner is gone
    begin: BeginFault,
    parses: bool,            // the stored envelope parses, so that its status is known
    replayPrinted: bool,     // the stored envelope reached stdout
    recordCreated: bool,
    outcome: Outcome,
    statusWritten: bool,     // MarkApplied / MarkFailed
    recordWritten: bool,     // MarkSucceeded / MarkFailed on the record
    completeWritten: bool)   // CompleteKeyData

  datatype Reply =
    | AlreadyApplied
    | AlreadyFailed
    | Refused
    | BeginErrored
    | ReplayErrored
    | Replayed(envelope: Envelope)
    | Executed(outcome: Outcome)

  // ---- Meaning -----------------------------------------------------------

  /** finish: success, or a committed rollback whose verification failed. */
  function RecordOf(o: Outcome): RecordStatus {
    if o.Nil? || o == VerifyFailed(true) then RecordSucceeded else RecordFailed
  }

  function OnLoad(entry: Entry, x: Script): Entry {
    if x.orphanClosed && entry.InProgress? then Complete(Failure) else entry
  }

  function ApplyPlan(d: Durable, x: Script): (Durable, Reply) {
    if d.status == Applied then (d, AlreadyApplied)
    else if d.status == Failed then (d, AlreadyFailed)
    else if x.refused then (d, Refused)
    else
      var entry := OnLoad(d.entry, x);
      if x.begin.Fails? || entry.InProgress? then
        (d.(entry := if x.completeWritten then Completed(entry, Failure) else entry), BeginErrored)
      else if entry.Complete? then
        if !x.replayPrinted then (d.(entry := entry), ReplayErrored)
        else (d.(entry := entry, status := if x.statusWritten && x.parses then StatusOf(entry.envelope) else d.status), Replayed(entry.envelope))
      else if x.begin.FailsStored? then
        (d.(entry := if x.completeWritten then Complete(Failure) else InProgress(x.pid)), BeginErrored)
      else
        (Durable(if x.statusWritten then TerminalStatus(x.outcome) else d.status,
                 if x.completeWritten then FinishedEntry(InProgress(x.pid), x.outcome) else InProgress(x.pid),
                 if x.recordCreated then d.records + [if x.recordWritten then RecordOf(x.outcome) else Running] else d.records,
                 d.entered + 1),
         Executed(x.outcome))
  }

  /** The entry an execution leaves: its owner's envelope, if one was staged and
      stored, else still in progress. */
  predicate Left(x: Script, after: Entry) {
    if !x.completeWritten || x.outcome == Nil(false) then after == InProgress(x.pid)
    else after == Complete(if x.outcome.Nil? then Success else Failure)
  }

  /** The record it leaves, if one could be created. */
  predicate Recorded(x: Script, before: seq<RecordStatus>, after: seq<RecordStatus>) {
    if !x.recordCreated then after == before
    else after == before + [
      if !x.recordWritten then Running
      else if x.outcome.Nil? || x.outcome == VerifyFailed(true) then RecordSucceeded else RecordFailed]
  }

  /** The key replays this envelope: it is stored, or the entry of a dead owner
      has just been closed. */
  predicate Replays(x: Script, before: Entry, e: Envelope) {
    before == Complete(e) || (before.InProgress? && x.orphanClosed && e.Failure?)
  }

  /** What a reply says about the store before and after: exactly one of these
      cases applies to any apply. */
  ghost predicate Answers(b: Durable, x: Script, a: Durable, r: Reply) {
    match r
    case AlreadyApplied => b.status == Applied && a == b
    case AlreadyFailed => b.status == Failed && a == b
    case Refused => b.status == Created && x.refused && a == b
    case Executed(o) =>
      && b.status == Created && !x.refused && x.begin.NoFault? && b.entry.Absent?
      && o == x.outcome && a.entered == b.entered + 1
      && a.status == (if !x.statusWritten then Created else if o.Nil? then Applied else Failed)
      && Left(x, a.entry) && Recorded(x, b.records, a.records)
    case Replayed(e) =>
      && b.status == Created && !x.refused && !x.begin.Fails? && x.replayPrinted && Replays(x, b.entry, e)
      && a.entry == Complete(e) && a.records == b.records && a.entered == b.entered
      && a.status == (if !x.statusWritten || !x.parses then Created else if e.Success? then Applied else Failed)
    case ReplayErrored =>
      && b.status == Created && !x.refused && !x.begin.Fails? && !x.replayPrinted
      && a.entry.Complete? && Replays(x, b.entry, a.entry.envelope) && a == b.(entry := a.entry)
    case BeginErrored =>
      && b.status == Created && !x.refused && a == b.(entry := a.entry)
      && match b.entry
         case Absent =>
           !x.begin.NoFault? && a.entry ==
             (if x.begin.Fails? then Absent else if x.completeWritten then Complete(Failure) else InProgress(x.pid))
         case InProgress(_) =>
           (x.begin.Fails? || !x.orphanClosed) && a.entry == (if x.orphanClosed || x.completeWritten then Complete(Failure) else b.entry)
         case Complete(_) => x.begin.Fails? && a.entry == b.entry
  }

  lemma Answered(d: Durable, x: Script)
    ensures Answers(d, x, ApplyPlan(d, x).0, ApplyPlan(d, x).1)
  {
  }

  // ---- The code ----------------------------------------------------------

  /** The operation runner of one command invocation. */
  class OpRun {
    const store: PlanStore
    const script: Script
    var rec: Option<nat>
    var replayed: bool
    var replayedStatus: Option<Envelope>
    var verification: bool
    var successEnv: bool

    constructor (store: PlanStore, script: Script)
      ensures this.store == store && this.script == script
      ensures rec == None && !replayed && replayedStatus == None && !verification && !successEnv
    {
      this.store, this.script := store, script;
      rec, replayed, replayedStatus, verification, successEnv := None, false, None, false, false;
    }

    /** The key is consulted first; the operation record exists only on the
        execute path. */
    method BeginIdempotency() returns (isReplay: bool, failed: bool)
      requires rec == None && !replayed && replayedStatus == None && store.status == Created
      modifies this, store
      ensures store.status == old(store.status) && store.entered == old(store.entered)
      ensures verification == old(verification) && successEnv == old(successEnv)
      ensures var entry := OnLoad(old(store.entry), script);
        if script.begin.Fails? || entry.InProgress? then
          failed && !isReplay && !replayed && rec == None && store.entry == entry && store.records == old(store.records)
        else if entry.Complete? then
          && replayed && replayedStatus == (if script.parses then Some(entry.envelope) else None) && rec == None
          && store.entry == entry && store.records == old(store.records)
          && failed == !script.replayPrinted && isReplay == !failed
        else if script.begin.FailsStored? then
          && failed && !isReplay && !replayed && rec == None
          && store.entry == InProgress(script.pid) && store.records == old(store.records)
        else
          && !failed && !isReplay && !replayed && store.entry == InProgress(script.pid)
          && (if script.recordCreated
              then rec == Some(|old(store.records)|) && store.records == old(store.records) + [Running]
              else rec == None && store.records == old(store.records))
    {
      store.entry := OnLoad(store.entry, script);
      if script.begin.Fails? || store.entry.InProgress? {
        return false, true;
      }
      if store.entry.Complete? {
        replayed := true;
        if script.parses {
          replayedStatus := Some(store.entry.envelope);
        }
        if !script.replayPrinted {
          return false, true;
        }
        return true, false;
      }
      store.entry := InProgress(script.pid);
      if script.begin.FailsStored? {
        return false, true;
      }
      if script.recordCreated {
        rec := Some(|store.records|);
        store.records := store.records + [Running];
      }
      return false, false;
    }

    /** Deferred with the command's named error, before BeginIdempotency runs:
        it also sees the errors of that call. */
    method Finish(error: Option<Outcome>)
      requires rec.Some? ==> rec.value < |store.records|
      requires error.Some? ==> !error.value.Nil?
      modifies store
      ensures store.status == old(store.status) && store.entered == old(store.entered)
      ensures store.records ==
        if rec.None? || !script.recordWritten then old(store.records)
        else old(store.records)[rec.value :=
          if error.None? || (error.value.VerifyFailed? && verification) then RecordSucceeded else RecordFailed]
      ensures store.entry ==
        if replayed || !script.completeWritten then old(store.entry)
        else if error.Some? then Completed(old(store.entry), Failure)
        else if successEnv then Completed(old(store.entry), Success) else old(store.entry)
    {
      if rec.Some? && script.recordWritten {
        var ok := error.None? || (error.value.VerifyFailed? && verification);
        store.records := store.records[rec.value := if ok then RecordSucceeded else RecordFailed];
      }
      if replayed || (error.None? && !successEnv) {
        return;
      }
      if script.completeWritten && store.entry.InProgress? {
        store.entry := Complete(if error.Some? then Failure else Success);
      }
    }
  }

  class PlanStore {
    var status: Status
    var entry: Entry
    var records: seq<RecordStatus>
    var entered: nat

    constructor ()
      ensures Value() == New
    {
      status, entry, records, entered := Created, Absent, [], 0;
    }

    function Value(): Durable
      reads this
    {
      Durable(status, entry, records, entered)
    }

    /** reconcilePlanAfterReplay: only for a plan that was loaded as created. */
    method ReconcileAfterReplay(loaded: Status, op: OpRun)
      requires op.store == this
      modifies this
      ensures Value() == old(Value()).(status :=
        if loaded == Created && op.script.statusWritten && op.replayedStatus.Some? then StatusOf(op.replayedStatus.value) else old(status))
    {
      if loaded != Created {
        return;
      }
      if op.script.statusWritten && op.replayedStatus.Some? {
        status := StatusOf(op.replayedStatus.value);
      }
    }

    /** recordPlanTerminal. */
    method RecordTerminal(error: bool, written: bool)
      modifies this`status
      ensures status == if written then (if error then Failed else Applied) else old(status)
    {
      if written {
        status := if error then Failed else Applied;
      }
    }

    /** From the engine on: what it returns is staged, recorded and, by the
        deferred finish, completed. */
    method Conclude(op: OpRun)
      requires op.store == this && entry.InProgress? && !op.replayed && !op.verification && !op.successEnv
      requires op.rec.Some? ==> op.rec.value == |records| - 1
      modifies this, op
      ensures status == if op.script.statusWritten then TerminalStatus(op.script.outcome) else old(status)
      ensures entry == if op.script.completeWritten then FinishedEntry(old(entry), op.script.outcome) else old(entry)
      ensures entered == old(entered) + 1
      ensures records ==
        if old(op.rec).Some? && op.script.recordWritten then old(records)[..|old(records)| - 1] + [RecordOf(op.script.outcome)]
        else old(records)
    {
      var outcome := op.script.outcome;
      entered := entered + 1;
      match outcome {
        case Nil(staged) => op.successEnv := staged;
        case VerifyFailed(staged) => op.verification := staged;
        case Error =>
      }
      RecordTerminal(!outcome.Nil?, op.script.statusWritten);
      op.Finish(if outcome.Nil? then None else Some(outcome));
    }

    /** The part of applyPlan behind the last gate: consult the ledger, then
        replay or execute. */
    method Operate(x: Script) returns (reply: Reply)
      requires status == Created && !x.refused
      modifies this
      ensures (Value(), reply) == ApplyPlan(old(Value()), x)
    {
      var op := new OpRun(this, x);
      var isReplay, failed := op.BeginIdempotency();
      if failed {
        op.Finish(Some(Error));
        return if op.replayed then ReplayErrored else BeginErrored;
      }
      if isReplay {
        ReconcileAfterReplay(Created, op);
        op.Finish(None);
        return Replayed(entry.envelope);
      }
      Conclude(op);
      assert records == ApplyPlan(old(Value()), x).0.records;
      return Executed(x.outcome);
    }

    /** applyPlan: everything durable ends as the meaning says, and so does the
        reply.  In its own terms: a terminal status answers for itself; an
        execution replies what the engine returned, and stores it; a replay
        carries the stored envelope, which, written, becomes the status; and
        nothing else enters the engine, adds a record or makes the plan
        terminal. */
    method Apply(x: Script) returns (reply: Reply)
      modifies this
      ensures (Value(), reply) == ApplyPlan(old(Value()), x)
      ensures Answers(old(Value()), x, Value(), reply)
      ensures reply.AlreadyApplied? <==> old(status) == Applied
      ensures reply.AlreadyFailed? <==> old(status) == Failed
      ensures reply.Executed? ==> reply.outcome == x.outcome && entered == old(entered) + 1
      ensures reply.Executed? && x.statusWritten ==> (status == Applied <==> reply.outcome.Nil?) && status != Created
      ensures reply.Replayed? ==> entry == Complete(reply.envelope)
    {
      Answered(Value(), x);
      if status == Applied { return AlreadyApplied; }
      if status == Failed { return AlreadyFailed; }
      if x.refused { return Refused; }
      reply := Operate(x);
    }
  }

  const New := Durable(Created, Absent, [], 0)

  // ---- One apply is a run of the step machine ----------------------------

  ghost predicate Shows(w: World, d: Durable) {
    w.status == d.status && w.entry == d.entry && w.entered == d.entered
  }

  /** Every apply that is not interrupted is a run of one process of the step
      machine, so what the machine guarantees holds of applies. */
  lemma ApplyIsARun(d: Durable, x: Script, w: World) returns (acts: seq<Action>)
    requires Shows(w, d) && At(w, x.pid) == Idle
    ensures Playable(w, acts)
    ensures Shows(Play(w, acts), ApplyPlan(d, x).0) && At(Play(w, acts), x.pid) == Idle
    ensures forall k :: 0 <= k < |acts| ==> acts[k] != Evict && !acts[k].Crash?
  {
    var p := x.pid;
    var w1 := Step(w, Load(p));
    if d.status != Created {
      acts := PlayStep(w, Load(p), w1, []);
    } else if x.refused {
      acts := PlayStep(w1, Refuse(p), Step(w1, Refuse(p)), []);
      acts := PlayStep(w, Load(p), w1, acts);
    } else if x.orphanClosed && d.entry.InProgress? {
      var w2 := Step(w1, CloseInProgress);
      acts := LedgerRun(d.(entry := Complete(Failure)), x, w2);
      acts := PlayStep(w1, CloseInProgress, w2, acts);
      acts := PlayStep(w, Load(p), w1, acts);
    } else {
      acts := LedgerRun(d, x, w1);
      acts := PlayStep(w, Load(p), w1, acts);
    }
  }

  lemma LedgerRun(d: Durable, x: Script, w: World) returns (acts: seq<Action>)
    requires Shows(w, d) && At(w, x.pid) == Window && d.status == Created && !x.refused
    requires OnLoad(d.entry, x) == d.entry
    ensures Playable(w, acts)
    ensures Shows(Play(w, acts), ApplyPlan(d, x).0) && At(Play(w, acts), x.pid) == Idle
    ensures forall k :: 0 <= k < |acts| ==> acts[k] != Evict && !acts[k].Crash?
  {
    var p := x.pid;
    if x.begin.Fails? || d.entry.InProgress? || (x.begin.FailsStored? && d.entry.Absent?) {
      var b := BeginError(p, x.begin.FailsStored?);
      var w1 := Step(w, b);
      var a := CompleteAfterError(p, x.completeWritten);
      acts := PlayStep(w1, a, Step(w1, a), []);
      acts := PlayStep(w, b, w1, acts);
    } else if d.entry.Complete? {
      var w1 := Step(w, Begin(p));
      var a := Reconcile(p, x.replayPrinted && x.parses && x.statusWritten);
      acts := PlayStep(w1, a, Step(w1, a), []);
      acts := PlayStep(w, Begin(p), w1, acts);
    } else {
      var w1 := Step(w, Begin(p));
      var w2 := Step(w1, Enter(p));
      acts := EngineRun(x, w2);
      acts := PlayStep(w1, Enter(p), w2, acts);
      acts := PlayStep(w, Begin(p), w1, acts);
    }
  }

  lemma EngineRun(x: Script, w: World) returns (acts: seq<Action>)
    requires At(w, x.pid) == Engine && w.entry == InProgress(x.pid)
    ensures Playable(w, acts)
    ensures var t := Play(w, acts);
      && t.status == (if x.statusWritten then TerminalStatus(x.outcome) else w.status)
      && t.entry == (if x.completeWritten then FinishedEntry(w.entry, x.outcome) else w.entry)
      && t.entered == w.entered && At(t, x.pid) == Idle
    ensures forall k :: 0 <= k < |acts| ==> acts[k] != Evict && !acts[k].Crash?
  {
    var p := x.pid;
    var w1 := Step(w, EngineReturns(p, x.outcome));
    var w2 := Step(w1, Mark(p, x.statusWritten));
    acts := PlayStep(w2, PlanMachine.Action.Finish(p, x.completeWritten), Step(w2, PlanMachine.Action.Finish(p, x.completeWritten)), []);
    acts := PlayStep(w1, Mark(p, x.statusWritten), w2, acts);
    acts := PlayStep(w, EngineReturns(p, x.outcome), w1, acts);
  }

  // ---- Sequences of applies ----------------------------------------------

  function Run(d: Durable, xs: seq<Script>): Durable
    decreases |xs|
  {
    if |xs| == 0 then d else Run(ApplyPlan(d, xs[0]).0, xs[1..])
  }

  function Replies(d: Durable, xs: seq<Script>): seq<Reply>
    decreases |xs|
  {
    if |xs| == 0 then [] else [ApplyPlan(d, xs[0]).1] + Replies(ApplyPlan(d, xs[0]).0, xs[1..])
  }

  /** The replies of an apply stopped before the ledger. */
  predicate Stopped(r: Reply) {
    r == AlreadyApplied || r == AlreadyFailed || r == Refused
  }

  function Kept(rs: seq<Reply>): seq<Reply> {
    if |rs| == 0 then [] else (if Stopped(rs[0]) then [] else [rs[0]]) + Kept(rs[1..])
  }

  /** The trace without its stopped attempts. */
  function Erase(d: Durable, xs: seq<Script>): seq<Script>
    decreases |xs|
  {
    if |xs| == 0 then []
    else (if Stopped(ApplyPlan(d, xs[0]).1) then [] else [xs[0]]) + Erase(ApplyPlan(d, xs[0]).0, xs[1..])
  }

  /** Refusals are erasable: a trace and the same trace without its stopped
      attempts leave the same plan status, ledger entry, operation records and
      engine history, and the remaining attempts get the same replies. */
  lemma {:induction false} RefusalsAreErasable(d: Durable, xs: seq<Script>)
    ensures Run(d, Erase(d, xs)) == Run(d, xs)
    ensures Replies(d, Erase(d, xs)) == Kept(Replies(d, xs))
    decreases |xs|
  {
    if |xs| > 0 {
      var next := ApplyPlan(d, xs[0]).0;
      RefusalsAreErasable(next, xs[1..]);
      var rest := Erase(next, xs[1..]);
      assert Replies(d, xs)[1..] == Replies(next, xs[1..]);
      if Stopped(ApplyPlan(d, xs[0]).1) {
        assert next == d;
        assert Erase(d, xs) == rest;
      } else {
        assert Erase(d, xs)[1..] == rest;
      }
    }
  }

  function ExecutedCount(rs: seq<Reply>): nat {
    if |rs| == 0 then 0 else (if rs[0].Executed? then 1 else 0) + ExecutedCount(rs[1..])
  }

  /** Over any sequence of applies of a new plan, whatever writes are lost, at
      most one reply is an execution, and the engine history counts it. */
  lemma {:induction false} OneExecution(d: Durable, xs: seq<Script>)
    requires d.entered > 0 ==> d.entry != Absent
    ensures Run(d, xs).entered == d.entered + ExecutedCount(Replies(d, xs))
    ensures ExecutedCount(Replies(d, xs)) <= if d.entered > 0 || d.entry != Absent then 0 else 1
    decreases |xs|
  {
    if |xs| > 0 {
      var next := ApplyPlan(d, xs[0]).0;
      OneExecution(next, xs[1..]);
      assert Replies(d, xs)[1..] == Replies(next, xs[1..]);
    }
  }

  /** A terminal status is the end: nothing durable ever changes again. */
  lemma {:induction false} TerminalIsFinal(d: Durable, xs: seq<Script>)
    requires d.status != Created
    ensures Run(d, xs) == d
    decreases |xs|
  {
    if |xs| > 0 { TerminalIsFinal(d, xs[1..]); }
  }

  // ---- Do the three records agree? ---------------------------------------

  /** Every terminal write of the execution arrives. */
  predicate AllWritten(x: Script) {
    x.statusWritten && x.recordCreated && x.recordWritten && x.completeWritten
  }

  lemma {:induction false} RunConcat(d: Durable, xs: seq<Script>, ys: seq<Script>)
    ensures Run(d, xs + ys) == Run(Run(d, xs), ys)
    decreases |xs|
  {
    if |xs| == 0 {
      assert xs + ys == ys;
    } else {
      assert (xs + ys)[0] == xs[0] && (xs + ys)[1..] == xs[1..] + ys;
      RunConcat(ApplyPlan(d, xs[0]).0, xs[1..], ys);
    }
  }

  /** Serialized applies never let status and envelope disagree, whatever writes
      are lost and whichever orphans the ledger closes: a status is only ever
      written by the one execution or by a replay of the stored envelope. */
  ghost predicate Settled(d: Durable) {
    && (d.status != Created && d.entry.Complete? ==> d.status == StatusOf(d.entry.envelope))
    && (d.status != Created ==> d.entry != Absent)
    && (d.entered > 0 ==> d.entry != Absent)
  }

  lemma {:induction false} SettledAlong(d: Durable, xs: seq<Script>)
    requires Settled(d)
    ensures Settled(Run(d, xs))
    decreases |xs|
  {
    if |xs| > 0 { SettledAlong(ApplyPlan(d, xs[0]).0, xs[1..]); }
  }

  /** Record agreement over traces.  In any trace that contains an execution
      whose terminal writes all arrive, whatever comes before and after: in the
      end the plan is applied iff the engine returned nil; the stored envelope
      agrees, unless the engine staged none; and the operation record, the last
      one there is, succeeded iff the engine returned nil or the rollback
      committed and only its verification failed, which is the only
      disagreement. */
  lemma RecordsAgree(d: Durable, before: seq<Script>, x: Script, after: seq<Script>)
    requires Settled(d) && ApplyPlan(Run(d, before), x).1.Executed? && AllWritten(x)
    ensures var end := Run(d, before + ([x] + after));
      && ApplyPlan(Run(d, before), x).1 == Executed(x.outcome)
      && |end.records| == |Run(d, before).records| + 1
      && var record := end.records[|end.records| - 1];
      && (end.status == Applied <==> x.outcome.Nil?)
      && (end.status == Failed <==> !x.outcome.Nil?)
      && (end.entry == Complete(if x.outcome.Nil? then Success else Failure) <==> x.outcome != Nil(false))
      && (record == RecordSucceeded <==> x.outcome.Nil? || x.outcome == VerifyFailed(true))
      && (record == RecordFailed <==> !x.outcome.Nil? && x.outcome != VerifyFailed(true))
      && ((record == RecordSucceeded) != (end.status == Applied) <==> x.outcome == VerifyFailed(true))
  {
    var mid := Run(d, before);
    RunConcat(d, before, [x] + after);
    assert ([x] + after)[1..] == after;
    TerminalIsFinal(ApplyPlan(mid, x).0, after);
  }

  /** A lost status write heals, however late: after an execution that stored
      its envelope, any trace of attempts leaves the plan created or as the
      execution would have left it, and the next attempt that gets through makes
      it the latter and changes nothing else. */
  lemma ReplayReconciles(d: Durable, x: Script, xs: seq<Script>, y: Script)
    requires ApplyPlan(d, x).1.Executed? && x.completeWritten && x.outcome != Nil(false) && !x.statusWritten
    requires !y.refused && !y.begin.Fails? && y.parses && y.replayPrinted && y.statusWritten
    ensures ApplyPlan(Run(ApplyPlan(d, x).0, xs), y).0 == ApplyPlan(d, x.(statusWritten := true)).0
    ensures var middle := Run(ApplyPlan(d, x).0, xs);
      middle.status == Created ==> ApplyPlan(middle, y).1 == Replayed(ApplyPlan(d, x).0.entry.envelope)
  {
    CompleteStays(ApplyPlan(d, x).0, xs);
  }

  /** With the envelope stored, only the status can still change, and only to
      the envelope's. */
  lemma {:induction false} CompleteStays(d: Durable, xs: seq<Script>)
    requires d.entry.Complete?
    ensures Run(d, xs) == d || Run(d, xs) == d.(status := StatusOf(d.entry.envelope))
    ensures ExecutedCount(Replies(d, xs)) == 0
    decreases |xs|
  {
    if |xs| > 0 {
      CompleteStays(ApplyPlan(d, xs[0]).0, xs[1..]);
      assert Replies(d, xs)[1..] == Replies(ApplyPlan(d, xs[0]).0, xs[1..]);
    }
  }

  /** An interrupted execution is never run again: when both terminal writes
      were lost and the process is gone, any trace of attempts executes nothing,
      and the next one that gets through leaves the plan failed and its key
      replaying a failure, whatever the engine really did. */
  lemma InterruptedIsClosed(d: Durable, x: Script, xs: seq<Script>, y: Script)
    requires ApplyPlan(d, x).1.Executed? && !x.completeWritten && !x.statusWritten
    requires !y.refused && !y.begin.Fails? && y.orphanClosed && y.parses && y.replayPrinted && y.statusWritten
    ensures var left := ApplyPlan(d, x).0;
      && ExecutedCount(Replies(left, xs)) == 0
      && ApplyPlan(Run(left, xs), y).0 == left.(status := Failed, entry := Complete(Failure))
  {
    InterruptedStays(ApplyPlan(d, x).0, xs);
  }

  lemma {:induction false} InterruptedStays(d: Durable, xs: seq<Script>)
    requires d.status == Created && d.entry.InProgress?
    ensures var end := Run(d, xs);
      || end == d
      || end == d.(entry := Complete(Failure))
      || end == d.(entry := Complete(Failure), status := Failed)
    ensures ExecutedCount(Replies(d, xs)) == 0
    decreases |xs|
  {
    if |xs| > 0 {
      var next := ApplyPlan(d, xs[0]).0;
      assert Replies(d, xs)[1..] == Replies(next, xs[1..]);
      if next.entry.InProgress? {
        InterruptedStays(next, xs[1..]);
      } else {
        CompleteStays(next, xs[1..]);
      }
    }
  }

  /** The deferred finish also runs when the ledger refuses: a live owner's
      in-progress entry is then completed with a failure by somebody else.  From
      then on no attempt executes, none of them ever makes the plan applied, and
      the key replays a failure, whatever the owner's engine still returns. */
  lemma ForeignCompletion(d: Durable, x: Script, xs: seq<Script>)
    requires d.status == Created && d.entry.InProgress? && !x.refused && !x.orphanClosed && x.completeWritten
    ensures ApplyPlan(d, x).1 == BeginErrored
    ensures var end := Run(ApplyPlan(d, x).0, xs);
      && end.entry == Complete(Failure) && end.status != Applied
      && end.entered == d.entered && end.records == d.records
      && ExecutedCount(Replies(ApplyPlan(d, x).0, xs)) == 0
      && forall o: Outcome :: FinishedEntry(end.entry, o) == Complete(Failure)
  {
    CompleteStays(ApplyPlan(d, x).0, xs);
  }

  /** A begin that fails although the key is new.  If nothing was stored, nothing
      has changed.  If the entry was, the plan is spent without an execution: in
      any trace of attempts from then on nothing executes, none makes the plan
      applied, and the next one that gets through leaves it failed with its key
      replaying a failure. */
  lemma FailedBegin(d: Durable, x: Script, xs: seq<Script>, y: Script)
    requires d.status == Created && d.entry == Absent && !x.refused && !x.begin.NoFault?
    requires !y.refused && !y.begin.Fails? && y.orphanClosed && y.parses && y.replayPrinted && y.statusWritten
    ensures ApplyPlan(d, x).1 == BeginErrored
    ensures x.begin.Fails? ==> ApplyPlan(d, x).0 == d
    ensures x.begin.FailsStored? ==>
      var left := ApplyPlan(d, x).0;
      && ExecutedCount(Replies(left, xs)) == 0 && Run(left, xs).status != Applied
      && ApplyPlan(Run(left, xs), y).0 == d.(status := Failed, entry := Complete(Failure))
  {
    var left := ApplyPlan(d, x).0;
    if x.begin.FailsStored? {
      if x.completeWritten { CompleteStays(left, xs); } else { InterruptedStays(left, xs); }
    }
  }
}

/** Matrix runs on the real lock file: the machines of RunLock and MatrixResume
    side by side.  A process goes on with its run once its exclusive creation of
    the lock file has succeeded, whoever else is past the lock; that nobody is,
    MatrixResume assumes and the file has to provide. */
module MatrixLock {
  import opened Options
  import opened MatrixRun
  import opened MatrixResume
  import RunLock

  datatype State = State(file: RunLock.World, run: World)

  datatype Move =
    | OnFile(op: RunLock.Action)  // a step of AcquireRunLock that does not decide it
    | Take(a: Action)             // the file is created: a resume or the creating build begins
    | Work(a: Action)             // a step of a process that has the lock; it may release it
    | Die(p: nat)

  /** Beginning without asking whether anybody else is past the lock. */
  function Taken(w: World, a: Action): World
    requires a.Acquire? || a.Create?
  {
    var t := Goto(w, a.p, if a.Acquire? then Locked else Session(Initial(w.disk.snapshot.cells)));
    t.(holder := Some(a.p), created := w.created || a.Create?)
  }

  ghost predicate CanMove(s: State, m: Move) {
    match m
    case OnFile(a) =>
      RunLock.Enabled(s.file, a) && !a.Release? && !a.Crash? && !(a.Open? && s.file.file.None?)
    case Take(a) =>
      && (a.Acquire? || (a.Create? && !s.run.created))
      && RunLock.Enabled(s.file, RunLock.Open(a.p)) && s.file.file.None?
    case Work(a) =>
      && !a.Acquire? && !a.Create? && !a.Crash?
      && Enabled(s.run, a) && RunLock.At(s.file, a.p) == RunLock.Holding
    case Die(p) => RunLock.Enabled(s.file, RunLock.Crash(p)) && Enabled(s.run, Crash(p))
  }

  ghost function Next(s: State, m: Move): State
    requires CanMove(s, m)
  {
    match m
    case OnFile(a) => s.(file := RunLock.Step(s.file, a))
    case Take(a) => State(RunLock.Step(s.file, RunLock.Open(a.p)), Taken(s.run, a))
    case Work(a) =>
      var t := Step(s.run, a);
      State(if Holds(At(t, a.p)) then s.file else RunLock.Step(s.file, RunLock.Release(a.p)), t)
    case Die(p) => State(RunLock.Step(s.file, RunLock.Crash(p)), Step(s.run, Crash(p)))
  }

  /** Removals find what was judged stale. */
  predicate SafeMove(s: State, m: Move) {
    m.OnFile? ==> RunLock.Guarded(s.file, m.op)
  }

  // ---- The file provides the lock ----------------------------------------

  /** The same processes own the lock file and are past the lock, and the dead
      are the same. */
  ghost predicate Agrees(s: State) {
    forall p: nat ::
      && (RunLock.Acquired(RunLock.At(s.file, p)) <==> Holds(At(s.run, p)))
      && (RunLock.At(s.file, p) == RunLock.Dead <==> At(s.run, p) == Dead)
  }

  ghost predicate Together(s: State) {
    RunLock.Inv(s.file) && LockInv(s.run) && Agrees(s)
  }

  /** A file is created only when the lock is free there too. */
  lemma TakeIsEnabled(s: State, m: Move)
    requires Together(s) && CanMove(s, m) && m.Take?
    ensures Enabled(s.run, m.a) && Taken(s.run, m.a) == Step(s.run, m.a)
  {
    forall q: nat ensures !Holds(At(s.run, q)) {
      assert !RunLock.Acquired(RunLock.At(s.file, q));
    }
    assert RunLock.At(s.file, m.a.p) != RunLock.Dead;
  }

  lemma FileStays(l: RunLock.World, a: RunLock.Action, q: nat)
    requires RunLock.Enabled(l, a) && q != a.p
    ensures RunLock.At(RunLock.Step(l, a), q) == RunLock.At(l, q)
  {
  }

  function Mover(m: Move): nat {
    match m
    case OnFile(a) => a.p
    case Take(a) => a.p
    case Work(a) => a.p
    case Die(p) => p
  }

  lemma OthersAgree(s: State, m: Move, q: nat)
    requires Together(s) && CanMove(s, m) && q != Mover(m)
    ensures RunLock.At(Next(s, m).file, q) == RunLock.At(s.file, q) && At(Next(s, m).run, q) == At(s.run, q)
  {
    match m
    case OnFile(a) => FileStays(s.file, a, q);
    case Take(a) => FileStays(s.file, RunLock.Open(a.p), q);
    case Work(a) =>
      OthersStay(s.run, a, q);
      if !Holds(At(Step(s.run, a), a.p)) { FileStays(s.file, RunLock.Release(a.p), q); }
    case Die(p) => FileStays(s.file, RunLock.Crash(p), q); OthersStay(s.run, Crash(p), q);
  }

  lemma MoverAgrees(s: State, m: Move)
    requires Together(s) && CanMove(s, m)
    ensures var t, p := Next(s, m), Mover(m);
      && (RunLock.Acquired(RunLock.At(t.file, p)) <==> Holds(At(t.run, p)))
      && (RunLock.At(t.file, p) == RunLock.Dead <==> At(t.run, p) == Dead)
  {
    var p := Mover(m);
    assert RunLock.Acquired(RunLock.At(s.file, p)) <==> Holds(At(s.run, p));
    assert RunLock.At(s.file, p) == RunLock.Dead <==> At(s.run, p) == Dead;
  }

  lemma MoveKeeps(s: State, m: Move)
    requires Together(s) && CanMove(s, m) && SafeMove(s, m)
    ensures Together(Next(s, m))
  {
    var t := Next(s, m);
    MoverAgrees(s, m);
    forall q: nat | q != Mover(m)
      ensures RunLock.Acquired(RunLock.At(t.file, q)) <==> Holds(At(t.run, q))
      ensures RunLock.At(t.file, q) == RunLock.Dead <==> At(t.run, q) == Dead
    {
      OthersAgree(s, m, q);
    }
    match m
    case OnFile(a) => RunLock.InvStep(s.file, a);
    case Take(a) =>
      RunLock.InvStep(s.file, RunLock.Open(a.p));
      TakeIsEnabled(s, m);
      LockStep(s.run, a);
    case Work(a) =>
      LockStep(s.run, a);
      if !Holds(At(t.run, a.p)) { RunLock.InvStep(s.file, RunLock.Release(a.p)); }
    case Die(p) =>
      RunLock.InvStep(s.file, RunLock.Crash(p));
      LockStep(s.run, Crash(p));
  }

  // ---- Runs of both ------------------------------------------------------

  ghost predicate CanRun(s: State, ms: seq<Move>)
    decreases |ms|
  {
    |ms| == 0 || (CanMove(s, ms[0]) && CanRun(Next(s, ms[0]), ms[1..]))
  }

  ghost function After(s: State, ms: seq<Move>): State
    requires CanRun(s, ms)
    decreases |ms|
  {
    if |ms| == 0 then s else After(Next(s, ms[0]), ms[1..])
  }

  ghost predicate SafeRun(s: State, ms: seq<Move>)
    requires CanRun(s, ms)
    decreases |ms|
  {
    |ms| == 0 || (SafeMove(s, ms[0]) && SafeRun(Next(s, ms[0]), ms[1..]))
  }

  /** What a run of both is for the matrix run alone. */
  function Sessions(ms: seq<Move>): seq<Action> {
    if |ms| == 0 then []
    else
      (match ms[0]
       case OnFile(_) => []
       case Take(a) => [a]
       case Work(a) => [a]
       case Die(p) => [Crash(p)]) + Sessions(ms[1..])
  }

  /** On the lock file, over every run whose removals find what was judged
      stale, the processes do exactly what MatrixResume lets them do with an
      exclusive lock, so everything proved there holds here. */
  lemma {:induction false} LockFileServes(s: State, ms: seq<Move>)
    requires Together(s) && CanRun(s, ms) && SafeRun(s, ms)
    ensures Together(After(s, ms))
    ensures Playable(s.run, Sessions(ms)) && Play(s.run, Sessions(ms)) == After(s, ms).run
    decreases |ms|
  {
    if |ms| > 0 {
      var m, rest := ms[0], Sessions(ms[1..]);
      MoveKeeps(s, m);
      LockFileServes(Next(s, m), ms[1..]);
      match m
      case OnFile(_) => assert Sessions(ms) == rest;
      case Take(a) => TakeIsEnabled(s, m); PlayCons(s.run, a, rest);
      case Work(a) => PlayCons(s.run, a, rest);
      case Die(p) => PlayCons(s.run, Crash(p), rest);
    }
  }

  function Fresh(ids: set<nat>): State {
    State(RunLock.Unlocked, Created(ids))
  }

  lemma FreshTogether(ids: set<nat>)
    ensures Together(Fresh(ids))
  {
  }

  /** So from the creation on at most one process is past the lock. */
  lemma OneSession(ids: set<nat>, ms: seq<Move>, p: nat, q: nat)
    requires CanRun(Fresh(ids), ms) && SafeRun(Fresh(ids), ms)
    requires Holds(At(After(Fresh(ids), ms).run, p)) && Holds(At(After(Fresh(ids), ms).run, q))
    ensures p == q
  {
    FreshTogether(ids);
    LockFileServes(Fresh(ids), ms);
  }

  // ---- What an unsafe removal does to a run ------------------------------

  lemma RunCons(s: State, m: Move, rest: seq<Move>)
    requires CanMove(s, m) && CanRun(Next(s, m), rest)
    ensures CanRun(s, [m] + rest) && After(s, [m] + rest) == After(Next(s, m), rest)
  {
    assert ([m] + rest)[1..] == rest;
  }

  lemma {:induction false} RunConcat(s: State, a: seq<Move>, b: seq<Move>)
    requires CanRun(s, a) && CanRun(After(s, a), b)
    ensures CanRun(s, a + b) && After(s, a + b) == After(After(s, a), b)
    decreases |a|
  {
    if |a| == 0 {
      assert a + b == b;
    } else {
      RunConcat(Next(s, a[0]), a[1..], b);
      RunCons(s, a[0], a[1..] + b);
      assert a + b == [a[0]] + (a[1..] + b);
    }
  }

  /** Whenever a removal takes a live owner's file, the next process to open
      comes past the lock beside that owner. */
  lemma UnsafeRemovalLetsIn(s: State, p: nat, r: nat) returns (ms: seq<Move>)
    requires Together(s) && CanMove(s, OnFile(RunLock.Remove(p))) && !SafeMove(s, OnFile(RunLock.Remove(p)))
    requires RunLock.At(s.file, r) == RunLock.Idle
    ensures CanRun(s, ms)
    ensures var t, q := After(s, ms), s.file.file.value.owner;
      && q != r && Holds(At(s.run, q)) && At(t.run, q) == At(s.run, q) && At(t.run, r) == Locked
      && RunLock.At(t.file, r) == RunLock.Holding
      && t.run.disk == s.run.disk && t.run.executed == s.run.executed
  {
    var q := s.file.file.value.owner;
    assert RunLock.Acquired(RunLock.At(s.file, q)) && !Holds(At(s.run, r));
    var s1 := Next(s, OnFile(RunLock.Remove(p)));
    var s2 := Next(s1, OnFile(RunLock.Begin(r)));
    var s3 := Next(s2, Take(Acquire(r)));
    RunCons(s3, OnFile(RunLock.Write(r)), []);
    RunCons(s2, Take(Acquire(r)), [OnFile(RunLock.Write(r))]);
    RunCons(s1, OnFile(RunLock.Begin(r)), [Take(Acquire(r))] + [OnFile(RunLock.Write(r))]);
    ms := [OnFile(RunLock.Begin(r))] + ([Take(Acquire(r))] + [OnFile(RunLock.Write(r))]);
    RunCons(s, OnFile(RunLock.Remove(p)), ms);
    ms := [OnFile(RunLock.Remove(p))] + ms;
  }

  /** Past the lock, a resume starts what it does not see as final, whoever else
      is executing. */
  lemma ResumeBeside(s: State, r: nat, n: nat, c: nat) returns (ms: seq<Move>)
    requires At(s.run, r) == Locked && RunLock.At(s.file, r) == RunLock.Holding
    requires !Terminal(s.run.disk.snapshot.status) && c in s.run.disk.snapshot.cells && !CellsSeen(s.run.disk, n)[c].Final?
    ensures CanRun(s, ms)
    ensures var t := After(s, ms);
      && t.run.executed == s.run.executed + [(r, c)] && At(t.run, r).Session? && c in At(t.run, r).run.cells && At(t.run, r).run.cells[c] == Running
      && forall q: nat :: q != r ==> At(t.run, q) == At(s.run, q)
  {
    assert !AllFinal(LoadedSeen(s.run.disk, n).cells);
    var s1 := Next(s, Work(Load(r, Sees(n))));
    var s2 := Next(s1, Work(Persist(r, true, true)));
    RunCons(s2, Work(Start(r, c, Written)), []);
    RunCons(s1, Work(Persist(r, true, true)), [Work(Start(r, c, Written))]);
    RunCons(s, Work(Load(r, Sees(n))), [Work(Persist(r, true, true))] + [Work(Start(r, c, Written))]);
    ms := [Work(Load(r, Sees(n)))] + ([Work(Persist(r, true, true))] + [Work(Start(r, c, Written))]);
  }

  /** So the guard is what keeps a combination from being built twice at once:
      after an unsafe removal a second session may start the combination its
      owner is executing. */
  lemma UnsafeRemovalRunsTwice(s: State, p: nat, r: nat, n: nat, c: nat) returns (ms: seq<Move>)
    requires Together(s) && CanMove(s, OnFile(RunLock.Remove(p))) && !SafeMove(s, OnFile(RunLock.Remove(p)))
    requires RunLock.At(s.file, r) == RunLock.Idle
    requires !Terminal(s.run.disk.snapshot.status) && c in s.run.disk.snapshot.cells && !CellsSeen(s.run.disk, n)[c].Final?
    ensures CanRun(s, ms)
    ensures var t, q := After(s, ms), s.file.file.value.owner;
      && q != r && t.run.executed == s.run.executed + [(r, c)]
      && At(t.run, q) == At(s.run, q) && Holds(At(t.run, q)) && At(t.run, r).Session? && c in At(t.run, r).run.cells && At(t.run, r).run.cells[c] == Running
  {
    var first := UnsafeRemovalLetsIn(s, p, r);
    var second := ResumeBeside(After(s, first), r, n, c);
    RunConcat(s, first, second);
    ms := first + second;
  }
}

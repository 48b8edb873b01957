/** The execution lock of a matrix run (internal/matrix/history.go,
    AcquireRunLock) as the file steps it is made of: create exclusively, write
    the process id, and, when the file exists, read it and remove it if its
    owner is dead or its contents are no process id.

    Creating and writing are two steps, and so are reading and removing. */
module RunLock {
  import opened Options

  /** The lock file: who created it, and whether the id has been written. */
  datatype File = File(owner: nat, written: bool)

  datatype Pc =
    | Idle
    | Opening(attempt: nat)
    | Reading(attempt: nat)    // the file existed
    | Stale(attempt: nat)      // judged the file stale, about to remove it
    | Created                  // created the file, id not written yet
    | Holding
    | Dead

  datatype World = World(file: Option<File>, procs: map<nat, Pc>)

  datatype Action = Begin(p: nat) | Open(p: nat) | Write(p: nat) | Read(p: nat) | Remove(p: nat) | Release(p: nat) | Crash(p: nat)

  const Attempts: nat := 3

  function At(w: World, p: nat): Pc {
    if p in w.procs then w.procs[p] else Idle
  }

  function Goto(w: World, p: nat, pc: Pc): World {
    w.(procs := w.procs[p := pc])
  }

  predicate Enabled(w: World, a: Action) {
    match a
    case Begin(p) => At(w, p) == Idle
    case Open(p) => At(w, p).Opening?
    case Write(p) => At(w, p) == Created
    case Read(p) => At(w, p).Reading?
    case Remove(p) => At(w, p).Stale?
    case Release(p) => At(w, p) == Holding
    case Crash(p) => At(w, p) != Dead
  }

  /** Unreadable contents count as stale, and so does a dead owner. */
  predicate LooksStale(w: World, f: File) {
    !f.written || At(w, f.owner) == Dead
  }

  function Step(w: World, a: Action): World
    requires Enabled(w, a)
  {
    match a
    case Begin(p) => Goto(w, p, Opening(0))
    case Open(p) =>
      if w.file.None? then Goto(w, p, Created).(file := Some(File(p, false)))
      else Goto(w, p, Reading(At(w, p).attempt))
    case Write(p) =>
      Goto(w, p, Holding).(file := if w.file == Some(File(p, false)) then Some(File(p, true)) else w.file)
    case Read(p) =>
      if w.file.Some? && LooksStale(w, w.file.value) then Goto(w, p, Stale(At(w, p).attempt)) else Goto(w, p, Idle)
    case Remove(p) =>
      Goto(w, p, if At(w, p).attempt + 1 < Attempts then Opening(At(w, p).attempt + 1) else Idle).(file := None)
    case Release(p) => Goto(w, p, Idle).(file := None)
    case Crash(p) => Goto(w, p, Dead)
  }

  predicate Playable(w: World, acts: seq<Action>)
    decreases |acts|
  {
    |acts| == 0 || (Enabled(w, acts[0]) && Playable(Step(w, acts[0]), acts[1..]))
  }

  function Play(w: World, acts: seq<Action>): World
    requires Playable(w, acts)
    decreases |acts|
  {
    if |acts| == 0 then w else Play(Step(w, acts[0]), acts[1..])
  }

  /** The acquisition succeeded: the creation is what decides it. */
  predicate Acquired(pc: Pc) {
    pc.Created? || pc.Holding?
  }

  /** Whoever acquired the lock owns the file at its path. */
  ghost predicate Inv(w: World) {
    && (forall p: nat :: Acquired(At(w, p)) ==> w.file.Some? && w.file.value.owner == p)
    && (w.file.Some? ==> Acquired(At(w, w.file.value.owner)) || At(w, w.file.value.owner) == Dead)
  }

  /** A removal takes only what was judged: a dead owner's file, or none. */
  predicate Guarded(w: World, a: Action) {
    a.Remove? && w.file.Some? ==> At(w, w.file.value.owner) == Dead
  }

  lemma InvStep(w: World, a: Action)
    requires Enabled(w, a) && Guarded(w, a) && Inv(w)
    ensures Inv(Step(w, a))
  {
    var t := Step(w, a);
    forall q: nat | q != a.p ensures At(t, q) == At(w, q) {}
  }

  ghost predicate GuardedRun(w: World, acts: seq<Action>)
    requires Playable(w, acts)
    decreases |acts|
  {
    |acts| == 0 || (Guarded(w, acts[0]) && GuardedRun(Step(w, acts[0]), acts[1..]))
  }

  lemma {:induction false} InvAlong(w: World, acts: seq<Action>)
    requires Playable(w, acts) && GuardedRun(w, acts) && Inv(w)
    ensures Inv(Play(w, acts))
    decreases |acts|
  {
    if |acts| > 0 {
      InvStep(w, acts[0]);
      InvAlong(Step(w, acts[0]), acts[1..]);
    }
  }

  /** An acquirer opens the file at most three times. */
  predicate FewAttempts(pc: Pc) {
    match pc
    case Opening(n) => n < 3
    case Reading(n) => n < 3
    case Stale(n) => n < 3
    case _ => true
  }

  lemma {:induction false} AttemptsBounded(w: World, acts: seq<Action>)
    requires Playable(w, acts) && forall p: nat :: FewAttempts(At(w, p))
    ensures forall p: nat :: FewAttempts(At(Play(w, acts), p))
    decreases |acts|
  {
    if |acts| > 0 {
      var t := Step(w, acts[0]);
      assert FewAttempts(At(w, acts[0].p));
      forall p: nat ensures FewAttempts(At(t, p)) {
        if p != acts[0].p { assert At(t, p) == At(w, p) && FewAttempts(At(w, p)); }
      }
      AttemptsBounded(t, acts[1..]);
    }
  }

  const Unlocked := World(None, map[])

  /** Mutual exclusion over every run in which each removal still finds what was
      judged stale: at most one process has acquired the lock, crashes and
      reclaims included. */
  lemma MutualExclusion(acts: seq<Action>, p: nat, q: nat)
    requires Playable(Unlocked, acts) && GuardedRun(Unlocked, acts)
    requires Acquired(At(Play(Unlocked, acts), p)) && Acquired(At(Play(Unlocked, acts), q))
    ensures p == q
  {
    InvAlong(Unlocked, acts);
  }

  lemma PlayCons(w: World, a: Action, rest: seq<Action>)
    requires Enabled(w, a) && Playable(Step(w, a), rest)
    ensures Playable(w, [a] + rest) && Play(w, [a] + rest) == Play(Step(w, a), rest)
  {
    assert ([a] + rest)[1..] == rest;
  }

  /** The guard is exact: whenever a removal takes a live owner's file, anybody
      who opens next acquires the lock beside that owner. */
  lemma UnguardedRemovalBreaksExclusion(w: World, p: nat, r: nat)
    requires Enabled(w, Remove(p)) && !Guarded(w, Remove(p)) && Inv(w)
    requires At(w, r) == Idle
    ensures Playable(w, [Remove(p), Begin(r), Open(r)])
    ensures var t := Play(w, [Remove(p), Begin(r), Open(r)]); var q := w.file.value.owner;
      q != r && Acquired(At(t, q)) && Acquired(At(t, r))
  {
    var w1 := Step(w, Remove(p));
    var w2 := Step(w1, Begin(r));
    PlayCons(w2, Open(r), []);
    PlayCons(w1, Begin(r), [Open(r)]);
    PlayCons(w, Remove(p), [Begin(r), Open(r)]);
    assert [Begin(r)] + [Open(r)] == [Begin(r), Open(r)];
    assert [Remove(p)] + [Begin(r), Open(r)] == [Remove(p), Begin(r), Open(r)];
  }

  /** It does happen, without any crash: the second process reads the file
      between the creation and the write, takes it for unreadable, removes it
      and acquires the lock too. */
  lemma TwoOwnersWithoutACrash() returns (acts: seq<Action>)
    ensures Playable(Unlocked, acts)
    ensures Acquired(At(Play(Unlocked, acts), 1)) && Acquired(At(Play(Unlocked, acts), 2))
    ensures forall k :: 0 <= k < |acts| ==> !acts[k].Crash?
  {
    var w1 := Step(Unlocked, Begin(1));
    var w2 := Step(w1, Open(1));
    acts := ReclaimUnwritten(w2);
    PlayCons(w1, Open(1), acts);
    PlayCons(Unlocked, Begin(1), [Open(1)] + acts);
    acts := [Begin(1)] + ([Open(1)] + acts);
  }

  lemma ReclaimUnwritten(w: World) returns (acts: seq<Action>)
    requires w.file == Some(File(1, false)) && At(w, 1) == Created && At(w, 2) == Idle
    ensures Playable(w, acts) && Acquired(At(Play(w, acts), 1)) && Acquired(At(Play(w, acts), 2))
    ensures forall k :: 0 <= k < |acts| ==> !acts[k].Crash?
  {
    var w1 := Step(w, Begin(2));
    var w2 := Step(w1, Open(2));
    acts := RemoveUnwritten(w2);
    PlayCons(w1, Open(2), acts);
    PlayCons(w, Begin(2), [Open(2)] + acts);
    acts := [Begin(2)] + ([Open(2)] + acts);
  }

  lemma RemoveUnwritten(w: World) returns (acts: seq<Action>)
    requires w.file == Some(File(1, false)) && At(w, 1) == Created && At(w, 2) == Reading(0)
    ensures Playable(w, acts) && Acquired(At(Play(w, acts), 1)) && Acquired(At(Play(w, acts), 2))
    ensures forall k :: 0 <= k < |acts| ==> !acts[k].Crash?
  {
    var w1 := Step(w, Read(2));
    var w2 := Step(w1, Remove(2));
    PlayCons(w2, Open(2), []);
    PlayCons(w1, Remove(2), [Open(2)]);
    PlayCons(w, Read(2), [Remove(2)] + [Open(2)]);
    acts := [Read(2)] + ([Remove(2)] + [Open(2)]);
  }
}

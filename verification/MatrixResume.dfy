/** Any number of processes resuming one matrix run, and the build that created
    it (cmd/matrix_exec.go): the lock is taken, the record re-read and re-checked
    under it, the resume counted and stored, and the incomplete combinations
    executed and journalled.

    Every write may be lost, every append may be cut, a process may crash at any
    step, and a load may see only a part of the journal without noticing.  The
    lock here is exclusive among live processes and may be taken over from a dead
    one; MatrixLock shows that the lock file of RunLock is such a lock. */
module MatrixResume {
  import opened Options
  import opened MatrixRun

  datatype Pc =
    | Idle
    | Locked               // holds the lock, has not read yet
    | Checked(run: Run)    // read and re-checked, counted in memory
    | Session(run: Run)    // executing
    | Dead

  datatype World = World(
    disk: Disk,
    holder: Option<nat>,
    procs: map<nat, Pc>,
    created: bool,                            // the creating build has begun its session
    persisted: nat,                           // resumes that were stored
    executed: seq<(nat, nat)>)                // (process, combination), in order

  /** What a load gets to read: not even the snapshot, or it and some lines of
      the journal, about which it does not complain. */
  datatype Sight = Fails | Sees(lines: nat)

  datatype Action =
    | Acquire(p: nat)
    | Load(p: nat, sight: Sight)
    | Persist(p: nat, ok: bool, discarded: bool)
    | NoBuilder(p: nat)                       // the build function cannot be made
    | Start(p: nat, c: nat, fate: Fate)       // an attempt, the first or a retry
    | Record(p: nat, c: nat, ok: bool, fate: Fate)
    | Finish(p: nat, written: bool, discarded: bool)
    | Crash(p: nat)
    | Create(p: nat)                          // the creating build takes the lock: no re-read

  function At(w: World, p: nat): Pc {
    if p in w.procs then w.procs[p] else Idle
  }

  function Goto(w: World, p: nat, pc: Pc): World {
    w.(procs := w.procs[p := pc])
  }

  function Release(w: World, p: nat): World {
    Goto(w, p, Idle).(holder := None)
  }

  predicate Free(w: World) {
    w.holder.None? || At(w, w.holder.value) == Dead
  }

  ghost predicate Enabled(w: World, a: Action) {
    match a
    case Acquire(p) => At(w, p) == Idle && Free(w)
    case Load(p, _) => At(w, p) == Locked
    case Persist(p, _, _) => At(w, p).Checked?
    case NoBuilder(p) => At(w, p).Session?
    case Start(p, c, _) => At(w, p).Session? && c in At(w, p).run.cells && !At(w, p).run.cells[c].Final?
    case Record(p, c, _, _) => At(w, p).Session? && c in At(w, p).run.cells && At(w, p).run.cells[c].Running?
    case Finish(p, _, _) => At(w, p).Session?
    case Crash(p) => At(w, p) != Dead
    case Create(p) => At(w, p) == Idle && Free(w) && !w.created
  }

  /** The record the creating build holds in memory: nothing has run. */
  function Initial(cells: map<nat, Cell>): Run {
    Run(Live, 0, map c | c in cells :: Pending)
  }

  function Journalled(w: World, p: nat, run: Run, c: nat, cell: Cell, fate: Fate): World {
    Goto(w, p, Session(run.(cells := run.cells[c := cell]))).(disk := Append(w.disk, Line(c, cell), fate))
  }

  ghost function Step(w: World, a: Action): World
    requires Enabled(w, a)
  {
    match a
    case Acquire(p) => Goto(w, p, Locked).(holder := Some(p))
    case Load(p, sight) =>
      if sight.Fails? || !Resumable(LoadedSeen(w.disk, sight.lines)) then Release(w, p)
      else Goto(w, p, Checked(LoadedSeen(w.disk, sight.lines).(resumes := w.disk.snapshot.resumes + 1, status := Live)))
    case Persist(p, ok, discarded) =>
      if !ok || Terminal(w.disk.snapshot.status) then Release(w, p)
      else Goto(w, p, Session(At(w, p).run)).(disk := Update(w.disk, At(w, p).run, discarded), persisted := w.persisted + 1)
    case NoBuilder(p) => Release(w, p)
    case Start(p, c, fate) => Journalled(w, p, At(w, p).run, c, Running, fate).(executed := w.executed + [(p, c)])
    case Record(p, c, ok, fate) => Journalled(w, p, At(w, p).run, c, Final(ok), fate)
    case Finish(p, written, discarded) =>
      if !written || Terminal(w.disk.snapshot.status) then Release(w, p)
      else Release(w, p).(disk := Update(w.disk, Finished(At(w, p).run), discarded))
    case Crash(p) => Goto(w, p, Dead)
    case Create(p) => Goto(w, p, Session(Initial(w.disk.snapshot.cells))).(holder := Some(p), created := true)
  }

  ghost function Finished(run: Run): Run {
    run.(status := FinalStatus(run.cells))
  }

  ghost predicate Playable(w: World, acts: seq<Action>)
    decreases |acts|
  {
    |acts| == 0 || (Enabled(w, acts[0]) && Playable(Step(w, acts[0]), acts[1..]))
  }

  ghost function Play(w: World, acts: seq<Action>): World
    requires Playable(w, acts)
    decreases |acts|
  {
    if |acts| == 0 then w else Play(Step(w, acts[0]), acts[1..])
  }

  function Created(ids: set<nat>): World {
    World(Disk(Run(Live, 0, map c | c in ids :: Pending), [], Clean), None, map[], false, 0, [])
  }

  // ---- The invariant -----------------------------------------------------

  predicate Holds(pc: Pc) {
    pc.Locked? || pc.Checked? || pc.Session?
  }

  /** Whoever is past the lock is its holder, and a holder is past it or dead. */
  ghost predicate LockInv(w: World) {
    && (forall p: nat :: Holds(At(w, p)) ==> w.holder == Some(p))
    && (w.holder.Some? ==> Holds(At(w, w.holder.value)) || At(w, w.holder.value) == Dead)
  }

  /** A run in memory knows every result the record shows. */
  ghost predicate Knows(run: Run, d: Disk) {
    && run.cells.Keys == d.snapshot.cells.Keys
    && forall c :: c in d.snapshot.cells && Cells(d)[c].Final? ==> run.cells[c] == Cells(d)[c]
  }

  /** An executing session also knows the results of the snapshot alone. */
  ghost predicate Executing(run: Run, d: Disk) {
    && Knows(run, d)
    && (forall c :: c in d.snapshot.cells && d.snapshot.cells[c].Final? ==> run.cells[c] == d.snapshot.cells[c])
  }

  ghost predicate ProcOk(pc: Pc, d: Disk) {
    && (pc.Checked? ==> Knows(pc.run, d))
    && (pc.Session? ==> Executing(pc.run, d))
  }

  ghost predicate MemoryInv(w: World) {
    forall p: nat :: ProcOk(At(w, p), w.disk)
  }

  /** An unended line is about a combination of the run; the line about it
      before that shows no result; and a snapshot that shows one agrees. */
  ghost predicate TailOk(d: Disk) {
    d.tail.Unended? ==>
      && d.tail.line.id in d.snapshot.cells
      && (LastLine(d.lines, d.tail.line.id).Some? ==> !LastLine(d.lines, d.tail.line.id).value.Final?)
      && (d.tail.line.cell.Final? && d.snapshot.cells[d.tail.line.id].Final? ==>
            d.snapshot.cells[d.tail.line.id] == d.tail.line.cell)
  }

  /** No line takes a result back or changes it. */
  predicate NeverTakenBack(lines: seq<Line>) {
    forall i, j :: 0 <= i < j < |lines| && lines[i].id == lines[j].id && lines[i].cell.Final? ==> lines[j].cell == lines[i].cell
  }

  /** A snapshot that shows a result agrees with every line that does. */
  predicate AllAgree(cells: map<nat, Cell>, lines: seq<Line>) {
    forall i :: 0 <= i < |lines| ==> Agreeing(cells, lines[i])
  }

  predicate Ordered(d: Disk) {
    NeverTakenBack(Readable(d)) && AllAgree(d.snapshot.cells, Readable(d))
  }

  predicate Agreeing(cells: map<nat, Cell>, line: Line) {
    line.cell.Final? && line.id in cells && cells[line.id].Final? ==> cells[line.id] == line.cell
  }

  ghost predicate CountInv(w: World) {
    && w.disk.snapshot.resumes == w.persisted
    && (forall p: nat :: At(w, p).Checked? ==> At(w, p).run.resumes == w.persisted + 1 && At(w, p).run.status == Live)
    && (forall p: nat :: At(w, p).Session? ==> At(w, p).run.resumes == w.persisted)
  }

  /** A terminal record is only left behind by a finished session. */
  ghost predicate TerminalInv(w: World) {
    Terminal(w.disk.snapshot.status) ==> forall p: nat :: !At(w, p).Session? && !At(w, p).Checked?
  }

  /** Before any session the record is as it was created. */
  ghost predicate Pristine(w: World) {
    && w.disk.lines == [] && w.disk.tail == Clean && w.disk.snapshot.status == Live
    && (forall c :: c in w.disk.snapshot.cells ==> w.disk.snapshot.cells[c] == Pending)
    && forall p: nat :: !At(w, p).Session?
  }

  ghost predicate Inv(w: World) {
    && LockInv(w) && MemoryInv(w) && TailOk(w.disk) && Ordered(w.disk) && CountInv(w) && TerminalInv(w)
    && (!w.created && w.persisted == 0 ==> Pristine(w))
  }

  // ---- What has to be kept out -------------------------------------------

  /** A result that the record shows only because of an unended last line. */
  predicate RestsOnTail(d: Disk) {
    && d.tail.Unended? && d.tail.line.cell.Final? && d.tail.line.id in d.snapshot.cells
    && !View(d.snapshot.cells, d.lines, d.tail.line.id).Final?
  }

  /** The creating build begins only before any resume has been stored, no
      append glues itself to the line a shown result rests on, and no load that
      lets a resume go on misses a shown result. */
  ghost predicate Guarded(w: World, a: Action)
    requires Enabled(w, a)
  {
    && (a.Create? ==> w.persisted == 0)
    && (a.Start? || a.Record? ==> !(RestsOnTail(w.disk) && a.fate != Lost))
    && (a.Load? && a.sight.Sees? && Resumable(LoadedSeen(w.disk, a.sight.lines)) ==> HidesNothing(w.disk, a.sight.lines))
  }

  // ---- Disk lemmas -------------------------------------------------------

  lemma LastLineAppend(lines: seq<Line>, line: Line, c: nat)
    ensures LastLine(lines + [line], c) == if line.id == c then Some(line.cell) else LastLine(lines, c)
  {
    assert (lines + [line])[..|lines|] == lines;
  }

  /** What one append does to what the record shows of a combination. */
  lemma AppendShows(d: Disk, line: Line, fate: Fate, c: nat)
    requires c in d.snapshot.cells
    ensures Cells(Append(d, line, fate))[c] ==
      if fate.Lost? then Cells(d)[c]
      else if d.tail.Unended? then View(d.snapshot.cells, d.lines, c)
      else if line.id == c && d.tail.Clean? && (fate.Written? || fate.CutAtEnd?) then line.cell
      else Cells(d)[c]
  {
    LastLineAppend(d.lines, line, c);
  }

  /** Without the unended line: the same, except where it was about. */
  lemma WithoutTail(d: Disk, c: nat)
    requires d.tail.Unended? && c in d.snapshot.cells
    ensures Cells(d)[c] == if c == d.tail.line.id then d.tail.line.cell else View(d.snapshot.cells, d.lines, c)
  {
    LastLineAppend(d.lines, d.tail.line, c);
  }

  /** What a guarded append shows, whatever the tail was. */
  lemma GuardedAppend(d: Disk, run: Run, c: nat, cell: Cell, fate: Fate, x: nat)
    requires Executing(run, d) && TailOk(d) && c in run.cells && !run.cells[c].Final? && !cell.Pending?
    requires !(RestsOnTail(d) && fate != Lost) && x in d.snapshot.cells
    ensures var after := Cells(Append(d, Line(c, cell), fate))[x];
      && (Cells(d)[x].Final? ==> after == Cells(d)[x])
      && (after.Final? ==> after == (if x == c then cell else run.cells[x]))
  {
    AppendShows(d, Line(c, cell), fate, x);
    if d.tail.Unended? {
      WithoutTail(d, x);
    }
  }

  lemma TailAfterAppend(d: Disk, run: Run, c: nat, cell: Cell, fate: Fate)
    requires Executing(run, d) && TailOk(d) && c in run.cells && !run.cells[c].Final?
    ensures TailOk(Append(d, Line(c, cell), fate))
  {
    assert d.tail.Clean? ==> Cells(d)[c] == View(d.snapshot.cells, d.lines, c);
  }

  lemma AppendKeeps(d: Disk, run: Run, c: nat, cell: Cell, fate: Fate)
    requires Executing(run, d) && TailOk(d) && c in run.cells && !run.cells[c].Final? && !cell.Pending?
    requires !(RestsOnTail(d) && fate != Lost)
    ensures Executing(run.(cells := run.cells[c := cell]), Append(d, Line(c, cell), fate))
    ensures TailOk(Append(d, Line(c, cell), fate))
    ensures forall x :: x in d.snapshot.cells && Cells(d)[x].Final? ==> Cells(Append(d, Line(c, cell), fate))[x] == Cells(d)[x]
  {
    forall x | x in d.snapshot.cells
      ensures Cells(d)[x].Final? ==> Cells(Append(d, Line(c, cell), fate))[x] == Cells(d)[x]
      ensures Cells(Append(d, Line(c, cell), fate))[x].Final? ==>
        Cells(Append(d, Line(c, cell), fate))[x] == if x == c then cell else run.cells[x]
    {
      GuardedAppend(d, run, c, cell, fate, x);
    }
    TailAfterAppend(d, run, c, cell, fate);
  }

  /** Storing a run that knows every shown result shows no other result, and
      takes none back, whether or not the journal goes. */
  lemma UpdateKeeps(d: Disk, run: Run, discarded: bool)
    requires Knows(run, d) && TailOk(d)
    ensures Knows(run, Update(d, run, discarded)) && TailOk(Update(d, run, discarded))
    ensures Executing(run, Update(d, run, discarded))
    ensures forall c :: c in d.snapshot.cells && Cells(d)[c].Final? ==> Cells(Update(d, run, discarded))[c] == Cells(d)[c]
  {
    var t := Update(d, run, discarded);
    forall c | c in d.snapshot.cells
      ensures Cells(t)[c].Final? ==> run.cells[c] == Cells(t)[c]
      ensures Cells(d)[c].Final? ==> Cells(t)[c] == Cells(d)[c]
    {
      assert View(run.cells, Readable(d), c) == if LastLine(Readable(d), c).Some? then Cells(d)[c] else run.cells[c];
    }
    if d.tail.Unended? {
      WithoutTail(d, d.tail.line.id);
    }
  }

  // ---- Results in the journal --------------------------------------------

  /** The last line about a combination is one of the lines. */
  lemma {:induction false} LastLineAt(lines: seq<Line>, c: nat) returns (i: nat)
    requires LastLine(lines, c).Some?
    ensures i < |lines| && lines[i] == Line(c, LastLine(lines, c).value)
    ensures forall j :: i < j < |lines| ==> lines[j].id != c
  {
    i := |lines| - 1;
    if lines[i].id != c { i := LastLineAt(lines[..|lines| - 1], c); }
  }

  lemma {:induction false} LineIsLast(lines: seq<Line>, i: nat)
    requires i < |lines|
    ensures LastLine(lines, lines[i].id).Some?
  {
    if i < |lines| - 1 { LineIsLast(lines[..|lines| - 1], i); }
  }

  /** A result in any readable line is the one shown. */
  lemma ResultIsShown(d: Disk, i: nat)
    requires Ordered(d) && i < |Readable(d)| && Readable(d)[i].cell.Final?
    ensures LastLine(Readable(d), Readable(d)[i].id) == Some(Readable(d)[i].cell)
  {
    LineIsLast(Readable(d), i);
    var j := LastLineAt(Readable(d), Readable(d)[i].id);
  }

  /** A load sees a shown result, or sees that combination unfinished; it never
      sees another result. */
  lemma SightIsHonest(d: Disk, n: nat, c: nat)
    requires Ordered(d) && c in d.snapshot.cells && Cells(d)[c].Final?
    ensures CellsSeen(d, n)[c].Final? ==> CellsSeen(d, n)[c] == Cells(d)[c]
  {
    if LastLine(Seen(d, n), c).Some? {
      var i := LastLineAt(Seen(d, n), c);
      if Readable(d)[i].cell.Final? { ResultIsShown(d, i); }
    } else if LastLine(Readable(d), c).Some? {
      var i := LastLineAt(Readable(d), c);
      assert Agreeing(d.snapshot.cells, Readable(d)[i]);
    }
  }

  /** What is readable after an append: a prefix of what was, or one line more. */
  lemma ReadableAfter(d: Disk, line: Line, fate: Fate)
    ensures var after := Readable(Append(d, line, fate));
      after <= Readable(d) || (d.tail.Clean? && after == Readable(d) + [line])
  {
  }

  lemma OrderedAppend(d: Disk, run: Run, c: nat, cell: Cell, fate: Fate)
    requires Ordered(d) && Executing(run, d) && c in run.cells && !run.cells[c].Final?
    ensures Ordered(Append(d, Line(c, cell), fate))
  {
    var line := Line(c, cell);
    var before, after := Readable(d), Readable(Append(d, line, fate));
    ReadableAfter(d, line, fate);
    forall i, j | 0 <= i < j < |after| && after[i].id == after[j].id && after[i].cell.Final?
      ensures after[j].cell == after[i].cell
    {
      if j < |before| { assert before[i] == after[i] && before[j] == after[j]; } else { ResultIsShown(d, i); }
    }
    forall i | 0 <= i < |after| ensures Agreeing(d.snapshot.cells, after[i]) {
      if i < |before| { assert before[i] == after[i]; }
    }
  }

  lemma OrderedUpdate(d: Disk, run: Run, discarded: bool)
    requires Ordered(d) && Knows(run, d)
    ensures Ordered(Update(d, run, discarded))
  {
    forall i | 0 <= i < |Readable(d)| ensures Agreeing(run.cells, Readable(d)[i]) {
      if Readable(d)[i].cell.Final? { ResultIsShown(d, i); }
    }
  }

  // ---- One step ----------------------------------------------------------

  lemma LockStep(w: World, a: Action)
    requires Enabled(w, a) && LockInv(w)
    ensures LockInv(Step(w, a))
  {
    var t := Step(w, a);
    forall q: nat | q != a.p ensures At(t, q) == At(w, q) {
      OthersStay(w, a, q);
    }
  }

  /** A step moves one process only; the others stay where they are. */
  lemma OthersStay(w: World, a: Action, q: nat)
    requires Enabled(w, a) && q != a.p
    ensures At(Step(w, a), q) == At(w, q)
  {
  }

  /** A step that changes the disk or a count is taken by the lock holder, so
      nobody else is past the lock. */
  lemma OthersOutside(w: World, a: Action, q: nat)
    requires Enabled(w, a) && LockInv(w) && q != a.p
    requires Step(w, a).disk != w.disk || Step(w, a).persisted != w.persisted
    ensures !Holds(At(w, q))
  {
  }

  lemma CountStep(w: World, a: Action)
    requires Enabled(w, a) && LockInv(w) && CountInv(w) && Guarded(w, a)
    ensures CountInv(Step(w, a))
  {
    var t := Step(w, a);
    forall q: nat | q != a.p
      ensures At(t, q) == At(w, q)
      ensures t.persisted != w.persisted || t.disk != w.disk ==> !Holds(At(w, q))
    {
      OthersStay(w, a, q);
      if t.persisted != w.persisted || t.disk != w.disk { OthersOutside(w, a, q); }
    }
  }

  lemma TerminalStep(w: World, a: Action)
    requires Enabled(w, a) && Inv(w) && Guarded(w, a)
    ensures TerminalInv(Step(w, a))
  {
    var t := Step(w, a);
    forall q: nat | q != a.p
      ensures At(t, q) == At(w, q)
      ensures t.disk != w.disk ==> !Holds(At(w, q))
    {
      OthersStay(w, a, q);
      if t.disk != w.disk { OthersOutside(w, a, q); }
    }
  }

  lemma LoadKnows(d: Disk, sight: Sight)
    ensures sight.Sees? && HidesNothing(d, sight.lines) ==> Knows(LoadedSeen(d, sight.lines), d)
  {
  }

  lemma OrderedStep(w: World, a: Action)
    requires Enabled(w, a) && Inv(w)
    ensures Ordered(Step(w, a).disk)
  {
    assert ProcOk(At(w, a.p), w.disk);
    match a
    case Persist(p, _, discarded) => OrderedUpdate(w.disk, At(w, p).run, discarded);
    case Start(p, c, fate) => OrderedAppend(w.disk, At(w, p).run, c, Running, fate);
    case Record(p, c, ok, fate) => OrderedAppend(w.disk, At(w, p).run, c, Final(ok), fate);
    case Finish(p, _, discarded) => OrderedUpdate(w.disk, Finished(At(w, p).run), discarded);
    case _ =>
  }

  /** The process that moves, and the disk it leaves. */
  lemma ActorStep(w: World, a: Action)
    requires Enabled(w, a) && Inv(w) && Guarded(w, a)
    ensures ProcOk(At(Step(w, a), a.p), Step(w, a).disk) && TailOk(Step(w, a).disk)
    ensures forall c :: c in w.disk.snapshot.cells && Cells(w.disk)[c].Final? ==>
      c in Step(w, a).disk.snapshot.cells && Cells(Step(w, a).disk)[c] == Cells(w.disk)[c]
  {
    assert ProcOk(At(w, a.p), w.disk);
    match a
    case Load(p, sight) => LoadKnows(w.disk, sight);
    case Persist(p, _, discarded) => UpdateKeeps(w.disk, At(w, p).run, discarded);
    case Start(p, c, fate) => AppendKeeps(w.disk, At(w, p).run, c, Running, fate);
    case Record(p, c, ok, fate) => AppendKeeps(w.disk, At(w, p).run, c, Final(ok), fate);
    case Finish(p, _, discarded) => UpdateKeeps(w.disk, Finished(At(w, p).run), discarded);
    case Create(p) => PristineShows(w);
    case _ =>
  }

  lemma PristineShows(w: World)
    requires Pristine(w)
    ensures Cells(w.disk) == w.disk.snapshot.cells
    ensures Executing(Initial(w.disk.snapshot.cells), w.disk)
  {
  }

  lemma MemoryStep(w: World, a: Action)
    requires Enabled(w, a) && Inv(w) && Guarded(w, a)
    ensures MemoryInv(Step(w, a)) && TailOk(Step(w, a).disk)
  {
    var t := Step(w, a);
    ActorStep(w, a);
    forall q: nat ensures ProcOk(At(t, q), t.disk) {
      if q != a.p {
        OthersStay(w, a, q);
        assert ProcOk(At(w, q), w.disk);
        if t.disk != w.disk { OthersOutside(w, a, q); }
      }
    }
  }

  lemma PristineStep(w: World, a: Action)
    requires Enabled(w, a) && Inv(w) && !Step(w, a).created && Step(w, a).persisted == 0
    ensures Pristine(Step(w, a))
  {
    forall q: nat | q != a.p ensures At(Step(w, a), q) == At(w, q) {
      OthersStay(w, a, q);
    }
  }

  /** The invariant holds along every guarded step. */
  lemma InvStep(w: World, a: Action)
    requires Enabled(w, a) && Inv(w) && Guarded(w, a)
    ensures Inv(Step(w, a))
  {
    LockStep(w, a);
    MemoryStep(w, a);
    OrderedStep(w, a);
    CountStep(w, a);
    TerminalStep(w, a);
    if !Step(w, a).created && Step(w, a).persisted == 0 {
      PristineStep(w, a);
    }
  }

  /** A result the record shows stays, step by step, whatever is lost. */
  lemma FinalStays(w: World, a: Action, c: nat)
    requires Enabled(w, a) && Inv(w) && Guarded(w, a)
    requires c in w.disk.snapshot.cells && Cells(w.disk)[c].Final?
    ensures c in Step(w, a).disk.snapshot.cells && Cells(Step(w, a).disk)[c] == Cells(w.disk)[c]
    ensures a.Start? ==> a.c != c
  {
    ActorStep(w, a);
    assert ProcOk(At(w, a.p), w.disk);
  }

  // ---- Whole runs --------------------------------------------------------

  ghost predicate GuardedRun(w: World, acts: seq<Action>)
    requires Playable(w, acts)
    decreases |acts|
  {
    |acts| == 0 || (Guarded(w, acts[0]) && GuardedRun(Step(w, acts[0]), acts[1..]))
  }

  lemma CreatedInv(ids: set<nat>)
    ensures Inv(Created(ids))
  {
    assert Pristine(Created(ids));
  }

  lemma {:induction false} InvAlong(w: World, acts: seq<Action>)
    requires Playable(w, acts) && GuardedRun(w, acts) && Inv(w)
    ensures Inv(Play(w, acts))
    decreases |acts|
  {
    if |acts| > 0 {
      InvStep(w, acts[0]);
      InvAlong(Step(w, acts[0]), acts[1..]);
    }
  }

  lemma {:induction false} ExecutedGrows(w: World, acts: seq<Action>)
    requires Playable(w, acts)
    ensures w.executed <= Play(w, acts).executed
    decreases |acts|
  {
    if |acts| > 0 { ExecutedGrows(Step(w, acts[0]), acts[1..]); }
  }

  /** No later session executes a combination whose result the record shows,
      and the result itself never changes: over every run, whatever appends and
      removals are lost and whoever crashes. */
  lemma {:induction false} NeverAgain(w: World, acts: seq<Action>, c: nat)
    requires Playable(w, acts) && GuardedRun(w, acts) && Inv(w)
    requires c in w.disk.snapshot.cells && Cells(w.disk)[c].Final?
    ensures var t := Play(w, acts);
      && c in t.disk.snapshot.cells && Cells(t.disk)[c] == Cells(w.disk)[c]
      && |w.executed| <= |t.executed|
      && forall k :: |w.executed| <= k < |t.executed| ==> t.executed[k].1 != c
    decreases |acts|
  {
    if |acts| > 0 {
      var next := Step(w, acts[0]);
      FinalStays(w, acts[0], c);
      InvStep(w, acts[0]);
      NeverAgain(next, acts[1..], c);
      ExecutedGrows(next, acts[1..]);
    }
  }

  /** At most one process executes, from the creation of the run on. */
  lemma OneExecutor(ids: set<nat>, acts: seq<Action>, p: nat, q: nat)
    requires Playable(Created(ids), acts) && GuardedRun(Created(ids), acts)
    requires At(Play(Created(ids), acts), p).Session? && At(Play(Created(ids), acts), q).Session?
    ensures p == q
  {
    CreatedInv(ids);
    InvAlong(Created(ids), acts);
  }

  function Persists(acts: seq<Action>): nat {
    if |acts| == 0 then 0 else (if acts[0].Persist? && acts[0].ok then 1 else 0) + Persists(acts[1..])
  }

  /** The stored resume count is the number of resumes that passed the locked
      re-check and were stored: no more, no less. */
  lemma {:induction false} ResumesAreCounted(w: World, acts: seq<Action>)
    requires Playable(w, acts) && GuardedRun(w, acts) && Inv(w)
    ensures Play(w, acts).disk.snapshot.resumes == w.disk.snapshot.resumes + Persists(acts)
    decreases |acts|
  {
    if |acts| > 0 {
      InvStep(w, acts[0]);
      ResumesAreCounted(Step(w, acts[0]), acts[1..]);
    }
  }

  /** A terminal record is immutable, journal included. */
  lemma {:induction false} TerminalIsImmutable(w: World, acts: seq<Action>)
    requires Playable(w, acts) && GuardedRun(w, acts) && Inv(w)
    requires Terminal(w.disk.snapshot.status)
    ensures Play(w, acts).disk == w.disk && Play(w, acts).executed == w.executed
    decreases |acts|
  {
    if |acts| > 0 {
      InvStep(w, acts[0]);
      TerminalIsImmutable(Step(w, acts[0]), acts[1..]);
    }
  }

  // ---- Losers ------------------------------------------------------------

  /** The steps of a resumer that loses: it takes the lock, cannot read or does
      not pass the re-check, cannot store, or crashes before it stores. */
  ghost predicate Losing(w: World, a: Action)
    requires Enabled(w, a)
  {
    match a
    case Acquire(_) => true
    case Load(_, _) => true
    case Persist(_, ok, _) => !ok || Terminal(w.disk.snapshot.status)
    case Crash(_) => true
    case _ => false
  }

  ghost predicate Loses(w: World, acts: seq<Action>, p: nat)
    requires Playable(w, acts)
    decreases |acts|
  {
    |acts| == 0 || ((acts[0].p == p ==> Losing(w, acts[0])) && Loses(Step(w, acts[0]), acts[1..], p))
  }

  function Without(acts: seq<Action>, p: nat): seq<Action> {
    if |acts| == 0 then []
    else (if acts[0].p == p then [] else [acts[0]]) + Without(acts[1..], p)
  }

  /** The same world for everybody but p, the lock apart while p has it. */
  ghost predicate SameBut(w: World, v: World, p: nat) {
    && w.disk == v.disk && w.persisted == v.persisted && w.executed == v.executed && w.created == v.created
    && (forall q: nat :: q != p ==> At(w, q) == At(v, q))
    && !At(w, p).Session?
    && v.holder != Some(p) && (w.holder != v.holder ==> Free(v) && (w.holder.None? || w.holder == Some(p)))
  }

  lemma LosingStep(w: World, v: World, a: Action)
    requires Enabled(w, a) && Losing(w, a) && LockInv(w) && SameBut(w, v, a.p)
    ensures SameBut(Step(w, a), v, a.p)
  {
    forall q: nat | q != a.p ensures At(Step(w, a), q) == At(w, q) {
      OthersStay(w, a, q);
    }
  }

  lemma OtherEnabled(w: World, v: World, a: Action, p: nat)
    requires Enabled(w, a) && a.p != p && SameBut(w, v, p)
    ensures Enabled(v, a)
  {
    assert At(w, a.p) == At(v, a.p);
    assert Free(w) ==> Free(v) by {
      if Free(w) && w.holder == v.holder && w.holder.Some? {
        assert At(w, w.holder.value) == At(v, w.holder.value);
      }
    }
  }

  /** A step reads and writes the record and its own process. */
  lemma StepIsLocal(w: World, v: World, a: Action)
    requires Enabled(w, a) && Enabled(v, a) && At(w, a.p) == At(v, a.p)
    requires w.disk == v.disk && w.persisted == v.persisted && w.executed == v.executed && w.created == v.created
    ensures var s, t := Step(w, a), Step(v, a);
      && s.disk == t.disk && s.persisted == t.persisted && s.executed == t.executed && s.created == t.created
      && At(s, a.p) == At(t, a.p)
      && ((s.holder == w.holder && t.holder == v.holder) || (s.holder == t.holder && s.holder in {None, Some(a.p)}))
  {
    match a
    case Load(_, _) =>
    case Persist(_, _, _) =>
    case Finish(_, _, _) =>
    case _ =>
  }

  /** Somebody else's step keeps the lock free unless it takes it. */
  lemma StaysFree(v: World, a: Action)
    requires Enabled(v, a) && Free(v) && Step(v, a).holder == v.holder
    requires v.holder.Some? ==> v.holder.value != a.p
    ensures Free(Step(v, a))
  {
    if v.holder.Some? { OthersStay(v, a, v.holder.value); }
  }

  lemma OthersSame(w: World, v: World, a: Action, p: nat, q: nat)
    requires Enabled(w, a) && Enabled(v, a) && q != p && q != a.p && At(w, q) == At(v, q)
    ensures At(Step(w, a), q) == At(Step(v, a), q)
  {
    OthersStay(w, a, q);
    OthersStay(v, a, q);
  }

  lemma OtherStep(w: World, v: World, a: Action, p: nat)
    requires Enabled(w, a) && Enabled(v, a) && a.p != p && SameBut(w, v, p)
    ensures SameBut(Step(w, a), Step(v, a), p)
  {
    assert At(w, a.p) == At(v, a.p);
    StepIsLocal(w, v, a);
    var s, t := Step(w, a), Step(v, a);
    forall q: nat | q != p ensures At(s, q) == At(t, q) {
      if q != a.p { OthersSame(w, v, a, p, q); }
    }
    OthersStay(w, a, p);
    if Free(v) && t.holder == v.holder {
      DeadStaysDead(v, a);
      StaysFree(v, a);
    }
  }

  /** A dead process takes no step. */
  lemma DeadStaysDead(v: World, a: Action)
    requires Enabled(v, a) && Free(v)
    ensures v.holder.Some? ==> v.holder.value != a.p
  {
  }

  /** A resumer that only loses leaves no trace, whatever the others do
      meanwhile: without its steps the run is still a run, with the same record,
      journal, count and executions. */
  lemma {:induction false} LosersLeaveNoTrace(w: World, v: World, acts: seq<Action>, p: nat)
    requires Playable(w, acts) && Loses(w, acts, p) && LockInv(w) && SameBut(w, v, p)
    ensures Playable(v, Without(acts, p)) && SameBut(Play(w, acts), Play(v, Without(acts, p)), p)
    decreases |acts|
  {
    if |acts| > 0 {
      var a, rest := acts[0], Without(acts[1..], p);
      LockStep(w, a);
      if a.p == p {
        LosingStep(w, v, a);
        LosersLeaveNoTrace(Step(w, a), v, acts[1..], p);
        assert Without(acts, p) == rest;
      } else {
        OtherEnabled(w, v, a, p);
        OtherStep(w, v, a, p);
        LosersLeaveNoTrace(Step(w, a), Step(v, a), acts[1..], p);
        PlayCons(v, a, rest);
      }
    }
  }

  lemma PlayCons(w: World, a: Action, rest: seq<Action>)
    requires Enabled(w, a) && Playable(Step(w, a), rest)
    ensures Playable(w, [a] + rest) && Play(w, [a] + rest) == Play(Step(w, a), rest)
  {
    assert ([a] + rest)[1..] == rest;
  }
}

/** One resume, as the code runs it (cmd/matrix_exec.go,
    resumeMatrixSessionContext and runMatrixSessionLocked), on the run store of
    internal/matrix/history.go.  The run lock is held throughout; the executor's
    worker order, the build results, the fate of every append and the moment of
    cancellation are arbitrary. */
module MatrixSession {
  import opened MatrixRun
  import opened Options

  /** `seen` is how many lines of the journal the load gets to. */
  datatype Faults = Faults(lockBusy: bool, readFails: bool, seen: nat, startFails: bool, startDiscarded: bool,
                           noBuilder: bool, retries: nat, finishFails: bool, finishDiscarded: bool)

  datatype Outcome = Refused | Stopped | Completed(interrupted: bool)

  class RunStore {
    var disk: Disk

    constructor (run: Run)
      ensures disk == Disk(run, [], Clean)
    {
      disk := Disk(run, [], Clean);
    }

    /** LoadRun with replayJournal: the lines it gets to are applied in order,
        lines about unknown combinations are skipped, torn remains are not
        lines, and not getting to all of them is no error. */
    method LoadRun(seen: nat) returns (run: Run)
      ensures run == LoadedSeen(disk, seen)
    {
      var lines := Seen(disk, seen);
      var cells := disk.snapshot.cells;
      var i := 0;
      while i < |lines|
        invariant 0 <= i <= |lines|
        invariant cells.Keys == disk.snapshot.cells.Keys
        invariant forall c :: c in cells ==> cells[c] == View(disk.snapshot.cells, lines[..i], c)
      {
        forall c | c in cells
          ensures View(disk.snapshot.cells, lines[..i + 1], c) ==
            if lines[i].id == c then lines[i].cell else View(disk.snapshot.cells, lines[..i], c)
        {
          assert lines[..i + 1] == lines[..i] + [lines[i]];
          ViewLast(disk.snapshot.cells, lines[..i], lines[i], c);
        }
        if lines[i].id in cells {
          cells := cells[lines[i].id := lines[i].cell];
        }
        i := i + 1;
      }
      assert lines[..i] == lines;
      assert cells == CellsSeen(disk, seen);
      run := disk.snapshot.(cells := cells);
    }

    /** UpdateRun refuses to rewrite a terminal record. */
    method UpdateRun(run: Run, fails: bool, discarded: bool) returns (ok: bool)
      modifies this
      ensures ok <==> !fails && old(disk).snapshot.status in {Live, Interrupted}
      ensures disk == if ok then Update(old(disk), run, discarded) else old(disk)
      ensures ok ==> disk.snapshot == run && (if discarded then disk.lines == [] && disk.tail == Clean
                                              else disk.lines == old(disk).lines && disk.tail == old(disk).tail)
    {
      var seen: nat := *;
      var existing := LoadRun(seen);
      if fails || Terminal(existing.status) {
        return false;
      }
      disk := disk.(snapshot := run);
      if discarded {
        disk := disk.(lines := [], tail := Clean);
      }
      return true;
    }

    method AppendJournal(line: Line, fate: Fate)
      modifies this
      ensures disk == Append(old(disk), line, fate)
    {
      disk := Append(disk, line, fate);
    }
  }

  /** Everything the record showed as final at entry is as it was. */
  ghost predicate Preserved(before: Disk, after: Disk) {
    && after.snapshot.cells.Keys == before.snapshot.cells.Keys
    && forall c :: c in before.snapshot.cells && Cells(before)[c].Final? ==> Cells(after)[c] == Cells(before)[c]
  }

  /** The combinations a load that gets to n lines sees as incomplete. */
  function Unfinished(d: Disk, n: nat): set<nat> {
    set c | c in d.snapshot.cells && !CellsSeen(d, n)[c].Final?
  }

  ghost predicate Incomplete(d: Disk, ids: set<nat>) {
    forall c :: c in ids ==> c in d.snapshot.cells && !Cells(d)[c].Final?
  }

  method ComputeStatus(cells: map<nat, Cell>) returns (status: Status)
    ensures status == FinalStatus(cells) && Tells(status, cells)
  {
    StatusTells(cells);
    var total, failed, succeeded, incomplete := |cells|, false, false, false;
    var left := cells.Keys;
    while left != {}
      invariant left <= cells.Keys
      invariant incomplete <==> exists c :: c in cells.Keys - left && !cells[c].Final?
      invariant failed <==> exists c :: c in cells.Keys - left && cells[c].Final? && !cells[c].ok
      invariant succeeded <==> exists c :: c in cells.Keys - left && cells[c].Final? && cells[c].ok
      decreases |left|
    {
      var c :| c in left;
      ghost var rest := left;
      left := left - {c};
      assert cells.Keys - left == cells.Keys - rest + {c};
      incomplete := incomplete || !cells[c].Final?;
      failed := failed || (cells[c].Final? && !cells[c].ok);
      succeeded := succeeded || (cells[c].Final? && cells[c].ok);
    }
    assert cells.Keys - left == cells.Keys;
    return
      if total == 0 then Failed
      else if incomplete then Interrupted
      else if !failed then Succeeded
      else if !succeeded then Failed
      else Partial;
  }

  /** Combination `c` reads as `cell`, with or without the unended tail. */
  ghost predicate Solid(d: Disk, c: nat, cell: Cell) {
    && c in d.snapshot.cells && View(d.snapshot.cells, d.lines, c) == cell
    && (d.tail.Unended? && d.tail.line.id == c ==> d.tail.line.cell == cell)
  }

  /** A result shown by an unended last line with an older, different line about
      the same combination beneath it: the next append would bring that back. */
  predicate Exposed(d: Disk) {
    && d.tail.Unended? && d.tail.line.cell.Final?
    && LastLine(d.lines, d.tail.line.id) !in {None, Some(d.tail.line.cell)}
  }

  ghost predicate SolidFinals(before: Disk, d: Disk) {
    && d.snapshot.cells.Keys == before.snapshot.cells.Keys
    && forall c :: c in before.snapshot.cells && Cells(before)[c].Final? ==> Solid(d, c, Cells(before)[c])
  }

  lemma SolidAppend(before: Disk, d: Disk, line: Line, fate: Fate)
    requires SolidFinals(before, d)
    requires line.id in before.snapshot.cells ==> !Cells(before)[line.id].Final?
    ensures SolidFinals(before, Append(d, line, fate))
  {
    forall c | c in before.snapshot.cells && Cells(before)[c].Final?
      ensures Solid(Append(d, line, fate), c, Cells(before)[c])
    {
      ViewLast(d.snapshot.cells, d.lines, line, c);
    }
  }

  /** Storing a run that carries those results keeps them. */
  lemma SolidUpdate(before: Disk, d: Disk, run: Run, discarded: bool)
    requires run.cells.Keys == before.snapshot.cells.Keys
    requires forall c :: c in before.snapshot.cells && Cells(before)[c].Final? ==> run.cells[c] == Cells(before)[c]
    requires SolidFinals(before, d) || (d == before && (discarded || !Exposed(d)))
    ensures SolidFinals(before, Update(d, run, discarded))
  {
    forall c | c in before.snapshot.cells && Cells(before)[c].Final?
      ensures Solid(Update(d, run, discarded), c, Cells(before)[c])
    {
    }
  }

  lemma SolidIsPreserved(before: Disk, after: Disk)
    requires SolidFinals(before, after)
    ensures Preserved(before, after)
  {
    forall c | c in before.snapshot.cells && Cells(before)[c].Final? ensures Cells(after)[c] == Cells(before)[c] {
      if after.tail.Unended? { ViewLast(after.snapshot.cells, after.lines, after.tail.line, c); }
    }
  }

  ghost predicate Carries(before: Disk, run: Run) {
    && run.cells.Keys == before.snapshot.cells.Keys
    && forall c :: c in before.snapshot.cells && Cells(before)[c].Final? ==> run.cells[c] == Cells(before)[c]
  }

  /** What the executor has done to the run: combinations it never started are
      untouched, those in flight are marked running, and unless it was cancelled
      all others it started are final. */
  ghost predicate Progress(run0: Run, run: Run, executed: set<nat>, busy: set<nat>, cancelled: bool) {
    && run.status == run0.status && run.resumes == run0.resumes && run.cells.Keys == run0.cells.Keys
    && busy <= executed <= run.cells.Keys
    && (forall c :: c in run.cells && c !in executed ==> run.cells[c] == run0.cells[c])
    && (forall c :: c in busy ==> run.cells[c] == Running)
    && (!cancelled ==> forall c :: c in executed - busy ==> run.cells[c].Final?)
  }

  lemma Started(run0: Run, run: Run, executed: set<nat>, busy: set<nat>, cancelled: bool, c: nat)
    requires Progress(run0, run, executed, busy, cancelled) && c in run.cells
    ensures Progress(run0, run.(cells := run.cells[c := Running]), executed + {c}, busy + {c}, cancelled)
  {
  }

  lemma Ended(run0: Run, run: Run, executed: set<nat>, busy: set<nat>, cancelled: bool, c: nat, ok: bool)
    requires Progress(run0, run, executed, busy, cancelled) && c in busy
    ensures Progress(run0, run.(cells := run.cells[c := Final(ok)]), executed, busy - {c}, cancelled)
    ensures cancelled ==> Progress(run0, run, executed, busy - {c}, cancelled)
  {
  }

  datatype Appended = Appended(line: Line, fate: Fate)

  function Lines(js: seq<Appended>): seq<Line> {
    seq(|js|, i requires 0 <= i < |js| => js[i].line)
  }

  function Journal(d: Disk, js: seq<Appended>): Disk {
    if |js| == 0 then d else Append(Journal(d, js[..|js| - 1]), js[|js| - 1].line, js[|js| - 1].fate)
  }

  /** The journal got the changes that the run in memory has over what it
      started from, each in its turn and nothing else; which of them arrived is
      up to their fates. */
  ghost predicate Journalled(d0: Disk, d: Disk, run0: Run, run: Run, js: seq<Appended>) {
    && d == Journal(d0, js) && run.cells.Keys == run0.cells.Keys
    && forall c :: c in run0.cells ==> run.cells[c] == View(run0.cells, Lines(js), c)
  }

  lemma JournalledStep(d0: Disk, d: Disk, run0: Run, run: Run, js: seq<Appended>, line: Line, fate: Fate)
    requires Journalled(d0, d, run0, run, js) && line.id in run0.cells
    ensures Journalled(d0, Append(d, line, fate), run0, run.(cells := run.cells[line.id := line.cell]), js + [Appended(line, fate)])
  {
    var longer := js + [Appended(line, fate)];
    assert longer[..|longer| - 1] == js;
    assert Lines(longer) == Lines(js) + [line];
    forall c | c in run0.cells
      ensures View(run0.cells, Lines(longer), c) == if line.id == c then line.cell else View(run0.cells, Lines(js), c)
    {
      ViewLast(run0.cells, Lines(js), line, c);
    }
  }

  datatype Execution = Execution(run: Run, waiting: set<nat>, busy: set<nat>, executed: set<nat>, cancelled: bool,
                                 spare: multiset<nat>,    // automatic retries left, per combination
                                 attempts: multiset<nat>, // build attempts made, per combination
                                 appended: seq<Appended>) // what has been journalled

  ghost predicate Queued(queue: set<nat>, e: Execution) {
    && e.waiting <= queue && e.executed <= queue && e.waiting !! e.executed
    && (!e.cancelled ==> e.executed + e.waiting == queue)
  }

  /** Each attempt is the first one of its combination or uses up a retry. */
  predicate WithinBudget(budget: multiset<nat>, e: Execution) {
    && e.attempts + e.spare == multiset(e.executed) + budget
    && e.spare <= budget
    && forall c :: c in e.attempts ==> c in e.executed
  }

  lemma FirstAttempt(budget: multiset<nat>, e: Execution, next: Execution, c: nat)
    requires WithinBudget(budget, e) && c !in e.executed
    requires next.executed == e.executed + {c} && next.spare == e.spare && next.attempts == e.attempts + multiset{c}
    ensures WithinBudget(budget, next)
  {
    assert multiset(e.executed + {c}) == multiset(e.executed) + multiset{c};
    assert next.attempts + next.spare == (e.attempts + e.spare) + multiset{c};
  }

  lemma NextAttempt(budget: multiset<nat>, e: Execution, next: Execution, c: nat)
    requires WithinBudget(budget, e) && c in e.spare && c in e.executed
    requires next.executed == e.executed && next.spare == e.spare - multiset{c} && next.attempts == e.attempts + multiset{c}
    ensures WithinBudget(budget, next)
  {
    assert e.spare == next.spare + multiset{c};
    assert next.attempts + next.spare == e.attempts + e.spare;
  }

  lemma AttemptsBounded(queue: set<nat>, retries: nat, e: Execution, c: nat)
    requires WithinBudget(Copies(queue, retries), e)
    ensures if c in e.executed then 1 <= e.attempts[c] <= 1 + retries else e.attempts[c] == 0
  {
    assert (e.attempts + e.spare)[c] == (multiset(e.executed) + Copies(queue, retries))[c];
  }

  /** Where the executor stands. */
  ghost predicate Stage(before: Disk, run0: Run, queue: set<nat>, budget: multiset<nat>, e: Execution) {
    && Carries(before, e.run) && Incomplete(before, queue) && Queued(queue, e)
    && Progress(run0, e.run, e.executed, e.busy, e.cancelled)
    && WithinBudget(budget, e)
  }

  predicate Closer(next: Execution, e: Execution) {
    || next.waiting < e.waiting
    || (next.waiting == e.waiting && next.busy < e.busy)
    || (next.waiting == e.waiting && next.busy == e.busy && next.spare < e.spare)
  }

  function Copies(queue: set<nat>, n: nat): (r: multiset<nat>)
    ensures forall c :: r[c] == if c in queue then n else 0
  {
    if n == 0 then multiset{} else Copies(queue, n - 1) + multiset(queue)
  }

  /** One change of one combination, in memory and in the journal. */
  method Change(store: RunStore, e: Execution, c: nat, cell: Cell, ghost run0: Run, ghost before: Disk, ghost origin: Disk)
    returns (next: Execution)
    requires Carries(before, e.run) && c in before.snapshot.cells && !Cells(before)[c].Final?
    requires Journalled(origin, store.disk, run0, e.run, e.appended)
    modifies store
    ensures store.disk.snapshot == old(store.disk).snapshot
    ensures next.run == e.run.(cells := e.run.cells[c := cell]) && next == e.(run := next.run, appended := next.appended)
    ensures Carries(before, next.run) && Journalled(origin, store.disk, run0, next.run, next.appended)
    ensures SolidFinals(before, old(store.disk)) ==> SolidFinals(before, store.disk)
  {
    var fate: Fate := *;
    var line := Line(c, cell);
    JournalledStep(origin, store.disk, run0, e.run, e.appended, line, fate);
    if SolidFinals(before, store.disk) { SolidAppend(before, store.disk, line, fate); }
    next := e.(run := e.run.(cells := e.run.cells[c := cell]), appended := e.appended + [Appended(line, fate)]);
    store.AppendJournal(line, fate);
  }

  /** A worker takes the next combination. */
  method StartOne(store: RunStore, e: Execution, c: nat, ghost run0: Run, ghost queue: set<nat>, ghost budget: multiset<nat>,
                  ghost before: Disk, ghost origin: Disk)
    returns (next: Execution)
    requires Stage(before, run0, queue, budget, e) && Journalled(origin, store.disk, run0, e.run, e.appended)
    requires c in e.waiting
    modifies store
    ensures store.disk.snapshot == old(store.disk).snapshot
    ensures Stage(before, run0, queue, budget, next) && Closer(next, e)
    ensures Journalled(origin, store.disk, run0, next.run, next.appended)
    ensures SolidFinals(before, old(store.disk)) ==> SolidFinals(before, store.disk)
  {
    assert c in e.run.cells.Keys;
    var changed := Change(store, e, c, Running, run0, before, origin);
    Started(run0, e.run, e.executed, e.busy, e.cancelled, c);
    next := changed.(waiting := e.waiting - {c}, busy := e.busy + {c}, executed := e.executed + {c},
                     attempts := e.attempts + multiset{c});
    FirstAttempt(budget, e, next, c);
  }

  /** It tries a combination again. */
  method TryAgain(store: RunStore, e: Execution, c: nat, ghost run0: Run, ghost queue: set<nat>, ghost budget: multiset<nat>,
                  ghost before: Disk, ghost origin: Disk)
    returns (next: Execution)
    requires Stage(before, run0, queue, budget, e) && Journalled(origin, store.disk, run0, e.run, e.appended)
    requires c in e.busy && c in e.spare
    modifies store
    ensures store.disk.snapshot == old(store.disk).snapshot
    ensures Stage(before, run0, queue, budget, next) && Closer(next, e)
    ensures Journalled(origin, store.disk, run0, next.run, next.appended)
    ensures SolidFinals(before, old(store.disk)) ==> SolidFinals(before, store.disk)
  {
    var changed := Change(store, e, c, Running, run0, before, origin);
    assert changed.run.cells == e.run.cells;
    next := changed.(spare := e.spare - multiset{c}, attempts := e.attempts + multiset{c});
    NextAttempt(budget, e, next, c);
  }

  /** It is done with a combination; the result of a cancelled build is dropped. */
  method EndOne(store: RunStore, e: Execution, c: nat, ok: bool, ghost run0: Run, ghost queue: set<nat>, ghost budget: multiset<nat>,
                ghost before: Disk, ghost origin: Disk)
    returns (next: Execution)
    requires Stage(before, run0, queue, budget, e) && Journalled(origin, store.disk, run0, e.run, e.appended)
    requires c in e.busy
    modifies store
    ensures store.disk.snapshot == old(store.disk).snapshot
    ensures Stage(before, run0, queue, budget, next) && Closer(next, e)
    ensures Journalled(origin, store.disk, run0, next.run, next.appended)
    ensures SolidFinals(before, old(store.disk)) ==> SolidFinals(before, store.disk)
  {
    Ended(run0, e.run, e.executed, e.busy, e.cancelled, c, ok);
    if e.cancelled && !ok {
      return e.(busy := e.busy - {c});
    }
    next := Change(store, e, c, Final(ok), run0, before, origin);
    next := next.(busy := e.busy - {c});
  }

  /** One move of the executor: a worker takes the next combination, tries one
      again, finishes one, or the cancellation empties the queue. */
  method Advance(store: RunStore, e: Execution, ghost run0: Run, ghost queue: set<nat>, ghost budget: multiset<nat>,
                 ghost before: Disk, ghost origin: Disk)
    returns (next: Execution)
    requires Stage(before, run0, queue, budget, e) && Journalled(origin, store.disk, run0, e.run, e.appended)
    requires e.waiting != {} || e.busy != {}
    modifies store
    ensures store.disk.snapshot == old(store.disk).snapshot
    ensures Stage(before, run0, queue, budget, next) && Closer(next, e)
    ensures Journalled(origin, store.disk, run0, next.run, next.appended)
    ensures SolidFinals(before, old(store.disk)) ==> SolidFinals(before, store.disk)
  {
    var start, ok, again: bool := *, *, *;
    if e.cancelled && e.waiting != {} {
      return e.(waiting := {});
    }
    if e.waiting != {} && (start || e.busy == {}) {
      var c :| c in e.waiting;
      next := StartOne(store, e, c, run0, queue, budget, before, origin);
      return;
    }
    var c :| c in e.busy;
    if again && c in e.spare {
      next := TryAgain(store, e, c, run0, queue, budget, before, origin);
    } else {
      next := EndOne(store, e, c, ok, run0, queue, budget, before, origin);
    }
  }

  /** The executor: workers start, retry within the budget and finish
      combinations in any order, results of a cancelled build are dropped, every change is journalled. */
  method Execute(store: RunStore, run0: Run, queue: set<nat>, retries: nat, ghost before: Disk)
    returns (run: Run, executed: set<nat>, cancelled: bool, attempts: multiset<nat>, appended: seq<Appended>)
    requires Carries(before, run0) && Incomplete(before, queue)
    modifies store
    ensures store.disk.snapshot == old(store.disk).snapshot
    ensures Carries(before, run) && Progress(run0, run, executed, {}, cancelled)
    ensures executed <= queue && (!cancelled ==> executed == queue)
    ensures forall c :: if c in executed then 1 <= attempts[c] <= 1 + retries else attempts[c] == 0
    ensures Journalled(old(store.disk), store.disk, run0, run, appended)
    ensures SolidFinals(before, old(store.disk)) ==> SolidFinals(before, store.disk)
  {
    var e := Execution(run0, queue, {}, {}, false, Copies(queue, retries), multiset{}, []);
    while e.waiting != {} || e.busy != {}
      invariant store.disk.snapshot == old(store.disk).snapshot
      invariant Stage(before, run0, queue, Copies(queue, retries), e)
      invariant Journalled(old(store.disk), store.disk, run0, e.run, e.appended)
      invariant SolidFinals(before, old(store.disk)) ==> SolidFinals(before, store.disk)
      decreases e.waiting, e.busy, e.spare
    {
      var cancel: bool := *;
      e := Advance(store, e.(cancelled := e.cancelled || cancel), run0, queue, Copies(queue, retries), before, old(store.disk));
    }
    forall c ensures if c in e.executed then 1 <= e.attempts[c] <= 1 + retries else e.attempts[c] == 0 {
      AttemptsBounded(queue, retries, e, c);
    }
    return e.run, e.executed, e.cancelled, e.attempts, e.appended;
  }

  /** Under the lock: re-read, re-check, count, store. */
  method Reopen(store: RunStore, x: Faults) returns (ok: bool, run: Run, queue: set<nat>)
    modifies store
    ensures ok <==>
      && !x.readFails && !x.startFails
      && old(store.disk).snapshot.status in {Live, Interrupted} && Unfinished(old(store.disk), x.seen) != {}
    ensures !ok ==> store.disk == old(store.disk)
    ensures ok ==>
      && run == LoadedSeen(old(store.disk), x.seen).(resumes := old(store.disk).snapshot.resumes + 1, status := Live)
      && queue == (set c | c in run.cells && !run.cells[c].Final?) == Unfinished(old(store.disk), x.seen) && !AllFinal(run.cells)
      && store.disk == Update(old(store.disk), run, x.startDiscarded)
  {
    queue := {};
    run := store.disk.snapshot;
    if x.readFails {
      return false, run, queue;
    }
    run := store.LoadRun(x.seen);
    queue := set c | c in run.cells && !run.cells[c].Final?;
    assert AllFinal(run.cells) <==> queue == {} by {
      if queue == {} {
        forall c | c in run.cells ensures run.cells[c].Final? { assert c !in queue; }
      } else {
        var c :| c in queue;
        assert !run.cells[c].Final?;
      }
    }
    if Terminal(run.status) || queue == {} {
      return false, run, queue;
    }
    run := run.(resumes := run.resumes + 1, status := Live);
    ok := store.UpdateRun(run, x.startFails, x.startDiscarded);
  }

  /** Finalize and store. */
  method Close(store: RunStore, run0: Run, x: Faults, ghost before: Disk) returns (run: Run)
    requires Carries(before, run0) && !Terminal(store.disk.snapshot.status)
    requires store.disk.snapshot.cells.Keys == before.snapshot.cells.Keys
    modifies store
    ensures run == run0.(status := FinalStatus(run0.cells)) && Tells(run.status, run.cells)
    ensures store.disk.snapshot == if x.finishFails then old(store.disk).snapshot else run
    ensures SolidFinals(before, old(store.disk)) ==> SolidFinals(before, store.disk)
  {
    var status := ComputeStatus(run0.cells);
    run := run0.(status := status);
    if SolidFinals(before, store.disk) { SolidUpdate(before, store.disk, run, x.finishDiscarded); }
    var _ := store.UpdateRun(run, x.finishFails, x.finishDiscarded);
  }

  lemma NotEmptyAllFinal(run0: Run, run: Run, executed: set<nat>)
    requires Progress(run0, run.(status := run0.status), executed, {}, false)
    requires executed == (set c | c in run0.cells && !run0.cells[c].Final?) && !AllFinal(run0.cells)
    requires run.status == FinalStatus(run.cells)
    ensures AllFinal(run.cells) && Terminal(run.status)
  {
    assert AllFinal(run.cells);
    var c :| c in run0.cells && !run0.cells[c].Final?;
    assert c in run.cells.Keys;
  }

  /** runMatrixSessionLocked: execute, finalize, store. */
  method RunLocked(store: RunStore, run0: Run, queue: set<nat>, x: Faults, ghost before: Disk)
    returns (cancelled: bool, executed: set<nat>, attempts: multiset<nat>)
    requires Carries(before, run0) && Incomplete(before, queue)
    requires queue == (set c | c in run0.cells && !run0.cells[c].Final?) && !AllFinal(run0.cells)
    requires !Terminal(store.disk.snapshot.status) && store.disk.snapshot.cells.Keys == before.snapshot.cells.Keys
    requires store.disk.snapshot.resumes == run0.resumes
    modifies store
    ensures executed <= queue && (!cancelled ==> executed == queue)
    ensures forall c :: if c in executed then 1 <= attempts[c] <= 1 + x.retries else attempts[c] == 0
    ensures store.disk.snapshot.resumes == run0.resumes
    ensures !x.finishFails ==> Tells(store.disk.snapshot.status, store.disk.snapshot.cells)
    ensures !x.finishFails && !cancelled ==> AllFinal(store.disk.snapshot.cells) && Terminal(store.disk.snapshot.status)
    ensures SolidFinals(before, old(store.disk)) ==> SolidFinals(before, store.disk)
  {
    var run, appended;
    run, executed, cancelled, attempts, appended := Execute(store, run0, queue, x.retries, before);
    run := Close(store, run, x, before);
    if !cancelled {
      NotEmptyAllFinal(run0, run, executed);
    }
  }

  /** A disk that shows what a load saw. */
  ghost function AsSeen(d: Disk, n: nat): Disk {
    Disk(d.snapshot, Seen(d, n), Clean)
  }

  /** What the session keeps: what its load saw, or, with the journal still
      there, the whole record. */
  ghost function Basis(d: Disk, x: Faults): (b: Disk)
    ensures b.snapshot == d.snapshot && Cells(AsSeen(d, x.seen)) == CellsSeen(d, x.seen)
  {
    if !x.startDiscarded && HidesNothing(d, x.seen) then d else AsSeen(d, x.seen)
  }

  /** resumeMatrixSessionContext.  A loser changes nothing; a winner counts one
      resume and executes exactly the combinations its load saw as incomplete,
      or, when cancelled, some of them, each within its budget.  These are
      incomplete in the record, and every earlier result is left as it was,
      unless the load missed a result. */
  method Resume(store: RunStore, x: Faults) returns (outcome: Outcome, executed: set<nat>, attempts: multiset<nat>)
    modifies store
    ensures outcome.Refused? <==>
      || x.lockBusy || x.readFails || x.startFails
      || old(store.disk).snapshot.status !in {Live, Interrupted} || Unfinished(old(store.disk), x.seen) == {}
    ensures outcome.Refused? ==> store.disk == old(store.disk) && executed == {}
    ensures !outcome.Refused? ==> store.disk.snapshot.resumes == old(store.disk).snapshot.resumes + 1
    ensures outcome.Stopped? <==> !outcome.Refused? && x.noBuilder
    ensures outcome.Stopped? ==> executed == {} && (x.startDiscarded ==> Cells(store.disk) == CellsSeen(old(store.disk), x.seen))
    ensures executed <= Unfinished(old(store.disk), x.seen)
    ensures outcome == Completed(false) ==> executed == Unfinished(old(store.disk), x.seen)
    ensures forall c :: if c in executed then 1 <= attempts[c] <= 1 + x.retries else attempts[c] == 0
    ensures HidesNothing(old(store.disk), x.seen) ==> Incomplete(old(store.disk), executed)
    ensures !outcome.Refused? && x.startDiscarded ==> Preserved(AsSeen(old(store.disk), x.seen), store.disk)
    ensures HidesNothing(old(store.disk), x.seen) && (x.startDiscarded || !Exposed(old(store.disk))) ==>
      Preserved(old(store.disk), store.disk)
    ensures outcome.Completed? && !x.finishFails ==> Tells(store.disk.snapshot.status, store.disk.snapshot.cells)
    ensures outcome == Completed(false) && !x.finishFails ==>
      && (forall c :: c in store.disk.snapshot.cells ==> store.disk.snapshot.cells[c].Final?)
      && store.disk.snapshot.status in {Succeeded, Partial, Failed}
  {
    executed, attempts := {}, multiset{};
    if x.lockBusy {
      return Refused, {}, attempts;
    }
    ghost var before := Basis(store.disk, x);
    ghost var kept := x.startDiscarded || (HidesNothing(store.disk, x.seen) && !Exposed(store.disk));
    var ok, run, queue := Reopen(store, x);
    if !ok {
      return Refused, {}, attempts;
    }
    if kept {
      SolidUpdate(before, before, run, x.startDiscarded);
      SolidIsPreserved(before, store.disk);
    }
    if x.noBuilder {
      return Stopped, {}, attempts;
    }
    var cancelled;
    cancelled, executed, attempts := RunLocked(store, run, queue, x, before);
    if kept {
      SolidIsPreserved(before, store.disk);
    }
    return Completed(cancelled), executed, attempts;
  }
}

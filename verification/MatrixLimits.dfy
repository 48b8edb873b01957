/** Where the guarantees of MatrixResume end: each guard is needed, and runs
    from the creation of a matrix run that execute a finished combination again
    once it is dropped. */
module MatrixLimits {
  import opened Options
  import opened MatrixRun
  import opened MatrixResume

  lemma {:induction false} PlayConcat(w: World, a: seq<Action>, b: seq<Action>)
    requires Playable(w, a) && Playable(Play(w, a), b)
    ensures Playable(w, a + b) && Play(w, a + b) == Play(Play(w, a), b)
    decreases |a|
  {
    if |a| == 0 {
      assert a + b == b;
    } else {
      PlayConcat(Step(w, a[0]), a[1..], b);
      PlayCons(w, a[0], a[1..] + b);
      assert a + b == [a[0]] + (a[1..] + b);
    }
  }

  // ---- Appends -----------------------------------------------------------

  /** An unguarded append loses a result: the record shows it before and no
      longer shows it after.  So the guard on appends is exact. */
  lemma GluingTakesBack(w: World, a: Action)
    requires Enabled(w, a) && Inv(w) && (a.Start? || a.Record?) && !Guarded(w, a)
    ensures var c := w.disk.tail.line.id;
      && c in w.disk.snapshot.cells && Cells(w.disk)[c].Final?
      && c in Step(w, a).disk.snapshot.cells && !Cells(Step(w, a).disk)[c].Final?
  {
    var c := w.disk.tail.line.id;
    var cell := if a.Start? then Running else Final(a.ok);
    WithoutTail(w.disk, c);
    AppendShows(w.disk, Line(a.c, cell), a.fate, c);
  }

  /** Finishing makes a result in memory part of the record, except exactly one
      whose own append did not arrive while the journal's removal failed too: an
      older line about it then hides it, and a resume will run it again. */
  lemma FinishedResults(w: World, p: nat, discarded: bool, c: nat)
    requires Inv(w) && At(w, p).Session? && !Terminal(w.disk.snapshot.status)
    requires c in w.disk.snapshot.cells && At(w, p).run.cells[c].Final?
    ensures Enabled(w, Finish(p, true, discarded))
    ensures var t := Step(w, Finish(p, true, discarded));
      && c in t.disk.snapshot.cells && t.disk.snapshot.cells[c] == At(w, p).run.cells[c]
      && (Cells(t.disk)[c] == At(w, p).run.cells[c] <==>
            discarded || LastLine(Readable(w.disk), c).None? || Cells(w.disk)[c].Final?)
  {
    assert ProcOk(At(w, p), w.disk);
  }

  // ---- A resume that starts one combination ------------------------------

  /** What a resume goes on with when its load gets to n lines. */
  ghost function Resumed(w: World, n: nat): Run {
    LoadedSeen(w.disk, n).(resumes := w.disk.snapshot.resumes + 1, status := Live)
  }

  /** Once a resume has the lock, it may execute whatever its load does not see
      as final; what it stores, the journal dropped, is what it saw. */
  lemma LoadStarts(w: World, p: nat, n: nat, c: nat) returns (acts: seq<Action>)
    requires At(w, p) == Locked && !Terminal(w.disk.snapshot.status)
    requires c in w.disk.snapshot.cells && !CellsSeen(w.disk, n)[c].Final?
    ensures acts == [Load(p, Sees(n)), Persist(p, true, true), Start(p, c, Written)] && Playable(w, acts)
    ensures var t := Play(w, acts);
      && t.executed == w.executed + [(p, c)]
      && t.disk == Disk(Resumed(w, n), [Line(c, Running)], Clean)
      && At(t, p) == Session(Resumed(w, n).(cells := Resumed(w, n).cells[c := Running]))
      && t.holder == w.holder && t.created == w.created
      && forall q: nat :: q != p ==> At(t, q) == At(w, q)
  {
    assert !AllFinal(LoadedSeen(w.disk, n).cells);
    var w1 := Step(w, Load(p, Sees(n)));
    var w2 := Step(w1, Persist(p, true, true));
    PlayCons(w2, Start(p, c, Written), []);
    PlayCons(w1, Persist(p, true, true), [Start(p, c, Written)]);
    PlayCons(w, Load(p, Sees(n)), [Persist(p, true, true)] + [Start(p, c, Written)]);
    acts := [Load(p, Sees(n))] + ([Persist(p, true, true)] + [Start(p, c, Written)]);
  }

  /** The same from a free lock. */
  lemma ResumeStarts(w: World, p: nat, n: nat, c: nat) returns (acts: seq<Action>)
    requires At(w, p) == Idle && Free(w) && !Terminal(w.disk.snapshot.status)
    requires c in w.disk.snapshot.cells && !CellsSeen(w.disk, n)[c].Final?
    ensures Playable(w, acts) && Load(p, Sees(n)) in acts
    ensures var t := Play(w, acts);
      && t.executed == w.executed + [(p, c)]
      && t.disk == Disk(Resumed(w, n), [Line(c, Running)], Clean)
      && At(t, p) == Session(Resumed(w, n).(cells := Resumed(w, n).cells[c := Running]))
      && t.holder == Some(p) && t.created == w.created
      && forall q: nat :: q != p ==> At(t, q) == At(w, q)
  {
    var rest := LoadStarts(Step(w, Acquire(p)), p, n, c);
    PlayCons(w, Acquire(p), rest);
    acts := [Acquire(p)] + rest;
    assert acts[1] == rest[0];
  }

  // ---- Loads that do not see the whole journal ---------------------------

  /** Whenever a load the guard excludes gets to only n lines, some result the
      record shows is missing from what it saw.  From there the resume may
      execute that combination again, and for each such result: once it is
      stored and the journal dropped, the result is gone.  So the guard on loads
      is exact. */
  lemma HiddenResultIsLost(w: World, p: nat, n: nat) returns (c: nat, acts: seq<Action>)
    requires Enabled(w, Load(p, Sees(n))) && Inv(w) && !Guarded(w, Load(p, Sees(n)))
    ensures c in w.disk.snapshot.cells && Cells(w.disk)[c].Final? && !CellsSeen(w.disk, n)[c].Final?
    ensures acts == [Load(p, Sees(n)), Persist(p, true, true), Start(p, c, Written)] && Playable(w, acts)
    ensures Play(w, acts).executed == w.executed + [(p, c)]
    ensures forall x :: x in w.disk.snapshot.cells && Cells(w.disk)[x].Final? && !CellsSeen(w.disk, n)[x].Final? ==>
      x in Play(w, acts).disk.snapshot.cells && !Cells(Play(w, acts).disk)[x].Final?
  {
    c :| c in w.disk.snapshot.cells && Cells(w.disk)[c].Final? && CellsSeen(w.disk, n)[c] != Cells(w.disk)[c];
    SightIsHonest(w.disk, n, c);
    acts := LoadStarts(w, p, n, c);
    var t := Play(w, acts);
    forall x | x in w.disk.snapshot.cells && !CellsSeen(w.disk, n)[x].Final?
      ensures x in t.disk.snapshot.cells && !Cells(t.disk)[x].Final?
    {
      AppendShows(Disk(Resumed(w, n), [], Clean), Line(c, Running), Written, x);
    }
  }

  // ---- The creating build ------------------------------------------------

  /** The creating build does not re-read.  Whenever it begins after a stored
      resume, finishing sets the stored count back to zero, or, under a terminal
      record, it executes a combination although the run has ended: the guard on
      its beginning is exact. */
  lemma LateCreatorBreaksTheRun(w: World, p: nat, discarded: bool, c: nat)
    requires Inv(w) && Enabled(w, Create(p)) && !Guarded(w, Create(p)) && c in w.disk.snapshot.cells
    ensures
      if Terminal(w.disk.snapshot.status) then
        && Playable(w, [Create(p), Start(p, c, Written)])
        && Play(w, [Create(p), Start(p, c, Written)]).executed == w.executed + [(p, c)]
      else
        && Playable(w, [Create(p), Finish(p, true, discarded)])
        && Play(w, [Create(p), Finish(p, true, discarded)]).disk.snapshot.resumes == 0 < w.persisted
  {
    var w1 := Step(w, Create(p));
    if Terminal(w.disk.snapshot.status) {
      PlayCons(w1, Start(p, c, Written), []);
      PlayCons(w, Create(p), [Start(p, c, Written)]);
      assert [Create(p)] + [Start(p, c, Written)] == [Create(p), Start(p, c, Written)];
    } else {
      PlayCons(w1, Finish(p, true, discarded), []);
      PlayCons(w, Create(p), [Finish(p, true, discarded)]);
      assert [Create(p)] + [Finish(p, true, discarded)] == [Create(p), Finish(p, true, discarded)];
    }
  }

  /** Whenever the record shows a result, the creating build may execute that
      combination again, and starting it takes the result back. */
  lemma CreatorRunsAgain(w: World, p: nat, c: nat) returns (acts: seq<Action>)
    requires Enabled(w, Create(p)) && w.disk.tail == Clean
    requires c in w.disk.snapshot.cells && Cells(w.disk)[c].Final?
    ensures acts == [Create(p), Start(p, c, Written)] && Playable(w, acts)
    ensures var t := Play(w, acts);
      t.executed == w.executed + [(p, c)] && t.disk.snapshot == w.disk.snapshot && Cells(t.disk)[c] == Running
  {
    var w1 := Step(w, Create(p));
    PlayCons(w1, Start(p, c, Written), []);
    PlayCons(w, Create(p), [Start(p, c, Written)]);
    acts := [Create(p)] + [Start(p, c, Written)];
    AppendShows(w.disk, Line(c, Running), Written, c);
  }

  // ---- Runs from the creation --------------------------------------------

  lemma CreatedShows(ids: set<nat>, c: nat)
    requires c in ids
    ensures c in Created(ids).disk.snapshot.cells && Cells(Created(ids).disk)[c] == Pending
  {
  }

  /** The session of p records a result and finishes the one-combination run. */
  lemma RecordAndFinish(w: World, p: nat) returns (acts: seq<Action>)
    requires At(w, p).Session? && At(w, p).run.cells == map[0 := Running]
    requires w.disk.tail == Clean && w.disk.snapshot.status == Live
    ensures Playable(w, acts)
    ensures var t := Play(w, acts);
      && t.executed == w.executed && t.holder == None && t.created == w.created
      && t.disk.tail == Clean && Terminal(t.disk.snapshot.status)
      && t.disk.snapshot.cells == map[0 := Final(true)] && t.disk.lines == []
      && forall q: nat :: q != p ==> At(t, q) == At(w, q)
  {
    var w1 := Step(w, Record(p, 0, true, Written));
    assert At(w1, p).run.cells == map[0 := Final(true)];
    assert |map[0 := Final(true)]| == 1;
    PlayCons(w1, Finish(p, true, true), []);
    PlayCons(w, Record(p, 0, true, Written), [Finish(p, true, true)]);
    acts := [Record(p, 0, true, Written)] + [Finish(p, true, true)];
  }

  /** A run from the creation in which the creating build executes a combination
      that a resumer has finished, under a record that says it succeeded. */
  lemma CreatorRunsAfterTheEnd() returns (acts: seq<Action>)
    ensures Playable(Created({0}), acts)
    ensures Terminal(Play(Created({0}), acts).disk.snapshot.status)
    ensures Play(Created({0}), acts).executed == [(1, 0), (2, 0)]
  {
    var w := Created({0});
    CreatedShows({0}, 0);
    var first := ResumeStarts(w, 1, 0, 0);
    var w1 := Play(w, first);
    assert At(w1, 1).run.cells == map[0 := Running];
    var second := RecordAndFinish(w1, 1);
    var w2 := Play(w1, second);
    var third := CreatorRunsAgain(w2, 2, 0);
    PlayConcat(w1, second, third);
    PlayConcat(w, first, second + third);
    acts := first + (second + third);
  }

  /** A session that is between combinations 0 and 1 over a clean journal. */
  ghost predicate Between(w: World, p: nat) {
    && At(w, p).Session? && w.holder == Some(p) && w.disk.tail == Clean
    && 0 in At(w, p).run.cells && At(w, p).run.cells[0] == Running
    && 1 in At(w, p).run.cells && At(w, p).run.cells[1] == Pending
  }

  /** Its two appends, the first cut at its end and the second glued behind it,
      leave the record as it was. */
  lemma GlueTwo(w: World, p: nat)
    requires Between(w, p)
    ensures Enabled(w, Record(p, 0, true, CutAtEnd))
    ensures Enabled(Step(w, Record(p, 0, true, CutAtEnd)), Start(p, 1, Written))
    ensures var t := Step(Step(w, Record(p, 0, true, CutAtEnd)), Start(p, 1, Written));
      && t.executed == w.executed + [(p, 1)] && t.holder == Some(p) && At(t, p).Session?
      && Loaded(t.disk) == Loaded(w.disk) && t.disk.snapshot == w.disk.snapshot
      && forall q: nat :: q != p ==> At(t, q) == At(w, q)
  {
    GluedView(w.disk, Line(0, Final(true)), Line(1, Running), Written);
  }

  /** The session of p finishes combination 0 with a line cut at its end, starts
      combination 1 behind it, and crashes. */
  lemma GlueAndCrash(w: World, p: nat) returns (acts: seq<Action>)
    requires Between(w, p)
    ensures Playable(w, acts) && Record(p, 0, true, CutAtEnd) in acts
    ensures var t := Play(w, acts);
      && t.executed == w.executed + [(p, 1)] && Free(t)
      && t.disk.snapshot == w.disk.snapshot && Cells(t.disk) == Cells(w.disk)
      && forall q: nat :: q != p ==> At(t, q) == At(w, q)
  {
    GlueTwo(w, p);
    var w1 := Step(w, Record(p, 0, true, CutAtEnd));
    var w2 := Step(w1, Start(p, 1, Written));
    PlayCons(w2, Crash(p), []);
    PlayCons(w1, Start(p, 1, Written), [Crash(p)]);
    PlayCons(w, Record(p, 0, true, CutAtEnd), [Start(p, 1, Written)] + [Crash(p)]);
    acts := [Record(p, 0, true, CutAtEnd)] + ([Start(p, 1, Written)] + [Crash(p)]);
    assert acts[0] == Record(p, 0, true, CutAtEnd);
    assert Cells(w2.disk) == Loaded(w2.disk).cells && Cells(w.disk) == Loaded(w.disk).cells;
  }

  lemma GluedThenCrash() returns (acts: seq<Action>)
    ensures Playable(Created({0, 1}), acts) && Record(1, 0, true, CutAtEnd) in acts
    ensures var t := Play(Created({0, 1}), acts);
      && t.executed == [(1, 0), (1, 1)] && Free(t) && At(t, 2) == Idle && !Terminal(t.disk.snapshot.status)
      && 0 in t.disk.snapshot.cells && !Cells(t.disk)[0].Final?
  {
    var w := Created({0, 1});
    CreatedShows({0, 1}, 0);
    CreatedShows({0, 1}, 1);
    var first := ResumeStarts(w, 1, 0, 0);
    var w1 := Play(w, first);
    var second := GlueAndCrash(w1, 1);
    PlayConcat(w, first, second);
    acts := first + second;
  }

  /** A run from the creation in which a finished combination is executed again
      by the next resume, because its line was cut at the end and glued. */
  lemma GluedResultRunsAgain() returns (acts: seq<Action>)
    ensures Playable(Created({0, 1}), acts)
    ensures Play(Created({0, 1}), acts).executed == [(1, 0), (1, 1), (2, 0)]
    ensures Record(1, 0, true, CutAtEnd) in acts
  {
    var first := GluedThenCrash();
    var w := Play(Created({0, 1}), first);
    var second := ResumeStarts(w, 2, |Readable(w.disk)|, 0);
    PlayConcat(Created({0, 1}), first, second);
    acts := first + second;
  }

  /** The session of p records the result of combination 0 and crashes. */
  lemma RecordAndCrash(w: World, p: nat) returns (acts: seq<Action>)
    requires At(w, p).Session? && w.holder == Some(p) && w.disk.tail == Clean
    requires At(w, p).run.cells == map[0 := Running] && 0 in w.disk.snapshot.cells
    ensures acts == [Record(p, 0, true, Written), Crash(p)] && Playable(w, acts)
    ensures var t := Play(w, acts);
      && t.executed == w.executed && Free(t)
      && t.disk == w.disk.(lines := w.disk.lines + [Line(0, Final(true))]) && Cells(t.disk)[0] == Final(true)
      && forall q: nat :: q != p ==> At(t, q) == At(w, q)
  {
    var w1 := Step(w, Record(p, 0, true, Written));
    PlayCons(w1, Crash(p), []);
    PlayCons(w, Record(p, 0, true, Written), [Crash(p)]);
    acts := [Record(p, 0, true, Written)] + [Crash(p)];
    AppendShows(w.disk, Line(0, Final(true)), Written, 0);
  }

  /** A run from the creation after which the record shows a result, whose
      session has crashed. */
  lemma ResultThenCrash() returns (acts: seq<Action>)
    ensures Playable(Created({0}), acts)
    ensures var t := Play(Created({0}), acts);
      && t.executed == [(1, 0)] && Free(t) && At(t, 2) == Idle && !Terminal(t.disk.snapshot.status)
      && 0 in t.disk.snapshot.cells && Cells(t.disk)[0] == Final(true) && t.disk.snapshot.cells[0] == Pending
  {
    var w := Created({0});
    CreatedShows({0}, 0);
    var first := ResumeStarts(w, 1, 0, 0);
    var w1 := Play(w, first);
    assert At(w1, 1).run.cells == map[0 := Running];
    var second := RecordAndCrash(w1, 1);
    PlayConcat(w, first, second);
    acts := first + second;
  }

  /** That run goes on with a resume that cannot open the journal: it executes
      the finished combination again and takes its result out of the record. */
  lemma UnopenedJournalRunsAgain() returns (before: seq<Action>, after: seq<Action>)
    ensures Playable(Created({0}), before) && Playable(Created({0}), before + after)
    ensures Load(2, Sees(0)) in after
    ensures var s, t := Play(Created({0}), before), Play(Created({0}), before + after);
      && 0 in s.disk.snapshot.cells && Cells(s.disk)[0] == Final(true)
      && 0 in t.disk.snapshot.cells && !Cells(t.disk)[0].Final? && t.executed == [(1, 0), (2, 0)]
  {
    before := ResultThenCrash();
    var s := Play(Created({0}), before);
    after := ResumeStarts(s, 2, 0, 0);
    PlayConcat(Created({0}), before, after);
    AppendShows(Disk(Resumed(s, 0), [], Clean), Line(0, Running), Written, 0);
  }
}

/** A matrix run's durable record (internal/matrix/run.go, journal.go,
    history.go): the snapshot file and the append-only journal beside it.

    The journal is read line by line.  A write may be cut: then its remains glue
    to the next line, and that line is lost with it.  A cut that misses only the
    line end is still readable until the next line is glued to it.

    A load that reads the snapshot succeeds whatever happens to the journal: one
    that does not open, or is not read to its end, is replayed as far as it was
    seen. */
module MatrixRun {
  import opened Options

  datatype Cell = Pending | Running | Final(ok: bool)

  datatype Status = Live | Interrupted | Succeeded | Partial | Failed

  datatype Run = Run(status: Status, resumes: nat, cells: map<nat, Cell>)

  datatype Line = Line(id: nat, cell: Cell)

  datatype Tail = Clean | Garbage | Unended(line: Line)

  /** What happens to one append. */
  datatype Fate = Written | Lost | Cut | CutAtEnd

  datatype Disk = Disk(snapshot: Run, lines: seq<Line>, tail: Tail)

  predicate Terminal(s: Status) {
    s.Succeeded? || s.Partial? || s.Failed?
  }

  function Readable(d: Disk): seq<Line> {
    if d.tail.Unended? then d.lines + [d.tail.line] else d.lines
  }

  /** The last line about a combination. */
  function LastLine(lines: seq<Line>, c: nat): Option<Cell> {
    if |lines| == 0 then None
    else if lines[|lines| - 1].id == c then Some(lines[|lines| - 1].cell)
    else LastLine(lines[..|lines| - 1], c)
  }

  /** The state of one combination after replaying the lines over the snapshot. */
  function View(cells: map<nat, Cell>, lines: seq<Line>, c: nat): Cell
    requires c in cells
  {
    var last := LastLine(lines, c);
    if last.Some? then last.value else cells[c]
  }

  /** What the record shows: a load of the run that sees the whole journal. */
  function Cells(d: Disk): map<nat, Cell> {
    map c | c in d.snapshot.cells :: View(d.snapshot.cells, Readable(d), c)
  }

  function Loaded(d: Disk): Run {
    d.snapshot.(cells := Cells(d))
  }

  /** The readable lines a load gets to before the journal cannot be opened or
      read any further. */
  function Seen(d: Disk, n: nat): seq<Line> {
    if n < |Readable(d)| then Readable(d)[..n] else Readable(d)
  }

  /** What a load sees that gets to n lines. */
  function CellsSeen(d: Disk, n: nat): map<nat, Cell> {
    map c | c in d.snapshot.cells :: View(d.snapshot.cells, Seen(d, n), c)
  }

  function LoadedSeen(d: Disk, n: nat): Run {
    d.snapshot.(cells := CellsSeen(d, n))
  }

  /** It misses no result the record shows. */
  ghost predicate HidesNothing(d: Disk, n: nat) {
    forall c :: c in d.snapshot.cells && Cells(d)[c].Final? ==> CellsSeen(d, n)[c] == Cells(d)[c]
  }

  ghost predicate AllFinal(cells: map<nat, Cell>) {
    forall c :: c in cells ==> cells[c].Final?
  }

  /** Resumable: not terminal, and something is incomplete. */
  ghost predicate Resumable(r: Run) {
    !Terminal(r.status) && !AllFinal(r.cells)
  }

  /** Finalize. */
  ghost function FinalStatus(cells: map<nat, Cell>): Status {
    if |cells| == 0 then Failed
    else if !AllFinal(cells) then Interrupted
    else if forall c :: c in cells ==> cells[c].ok then Succeeded
    else if forall c :: c in cells ==> !cells[c].ok then Failed
    else Partial
  }

  /** A status tells what the results are: succeeded and failed runs have
      nothing but good and nothing but bad ones, a partial run has both, and
      anything incomplete makes it interrupted. */
  ghost predicate Tells(status: Status, cells: map<nat, Cell>) {
    && (status.Succeeded? <==> |cells| > 0 && forall c :: c in cells ==> cells[c] == Final(true))
    && (status.Failed? <==> forall c :: c in cells ==> cells[c] == Final(false))
    && (status.Partial? <==>
          && (forall c :: c in cells ==> cells[c].Final?)
          && (exists c :: c in cells && cells[c] == Final(true)) && (exists c :: c in cells && cells[c] == Final(false)))
    && (status.Interrupted? <==> exists c :: c in cells && !cells[c].Final?)
  }

  lemma StatusTells(cells: map<nat, Cell>)
    ensures Tells(FinalStatus(cells), cells)
  {
    if |cells| > 0 {
      var c :| c in cells;
      assert cells[c].Final? ==> cells[c].ok || !cells[c].ok;
    }
    if AllFinal(cells) && !(forall c :: c in cells ==> cells[c].ok) && !(forall c :: c in cells ==> !cells[c].ok) {
      var bad :| bad in cells && !cells[bad].ok;
      var good :| good in cells && cells[good].ok;
      assert cells[bad] == Final(false) && cells[good] == Final(true);
    }
  }

  /** The terminal statuses are exactly those of a run with nothing incomplete,
      and a live run has none of them. */
  lemma TerminalMeans(status: Status)
    ensures Terminal(status) <==> status in {Succeeded, Partial, Failed}
    ensures !Terminal(status) <==> status in {Live, Interrupted}
  {
  }

  /** appendJournal, with its fate. */
  function Append(d: Disk, line: Line, fate: Fate): Disk {
    if fate.Lost? then d
    else if d.tail.Clean? then
      (match fate
       case Written => d.(lines := d.lines + [line])
       case Cut => d.(tail := Garbage)
       case _ => d.(tail := Unended(line)))
    else d.(tail := if fate.Written? then Clean else Garbage)
  }

  /** UpdateRun: the snapshot is replaced, then the journal removed, which may
      fail; a terminal record is refused. */
  function Update(d: Disk, run: Run, discarded: bool): Disk {
    if discarded then Disk(run, [], Clean) else d.(snapshot := run)
  }

  // ---- How the view moves ------------------------------------------------

  lemma ViewLast(cells: map<nat, Cell>, lines: seq<Line>, line: Line, c: nat)
    requires c in cells
    ensures View(cells, [], c) == cells[c]
    ensures View(cells, lines + [line], c) == if line.id == c then line.cell else View(cells, lines, c)
  {
    assert (lines + [line])[..|lines|] == lines;
  }

  /** A line that reaches the journal whole is what the next load sees, and it
      changes nothing else. */
  lemma AppendView(d: Disk, line: Line, fate: Fate, c: nat)
    requires c in d.snapshot.cells
    requires !d.tail.Unended?
    ensures Cells(Append(d, line, fate))[c] ==
      if line.id == c && d.tail.Clean? && (fate.Written? || fate.CutAtEnd?) then line.cell else Cells(d)[c]
  {
    ViewLast(d.snapshot.cells, d.lines, line, c);
  }

  /** A line that is written whole, even if it is lost with the remains before it,
      makes the next one readable. */
  lemma WholeLineHeals(d: Disk, first: Line, second: Line)
    requires second.id in d.snapshot.cells
    ensures Cells(Append(Append(d, first, Written), second, Written))[second.id] == second.cell
  {
    var t := Append(d, first, Written);
    assert t.tail.Clean?;
    AppendView(t, second, Written, second.id);
  }

  /** What is seen of a combination is what the last of the lines about it says
      that the load gets to, and the snapshot if there is none. */
  lemma {:induction false} LastLineMeans(lines: seq<Line>, c: nat)
    ensures LastLine(lines, c).None? <==> forall i :: 0 <= i < |lines| ==> lines[i].id != c
    ensures LastLine(lines, c).Some? ==>
      exists i :: 0 <= i < |lines| && lines[i] == Line(c, LastLine(lines, c).value) && forall j :: i < j < |lines| ==> lines[j].id != c
  {
    if |lines| > 0 {
      var n := |lines| - 1;
      if lines[n].id == c {
        assert lines[n] == Line(c, LastLine(lines, c).value);
      } else {
        LastLineMeans(lines[..n], c);
        if LastLine(lines[..n], c).Some? {
          var i :| 0 <= i < n && lines[..n][i] == Line(c, LastLine(lines[..n], c).value) && forall j :: i < j < n ==> lines[..n][j].id != c;
          assert lines[i] == Line(c, LastLine(lines, c).value);
          forall j | i < j < |lines| ensures lines[j].id != c { if j < n { assert lines[..n][j] == lines[j]; } }
        } else {
          forall i | 0 <= i < |lines| ensures lines[i].id != c { if i < n { assert lines[..n][i] == lines[i]; } }
        }
      }
    }
  }

  lemma SeenIsPrefix(d: Disk, n: nat)
    ensures Seen(d, n) <= Readable(d) && |Seen(d, n)| == (if n < |Readable(d)| then n else |Readable(d)|)
    ensures Readable(d) == if d.tail.Unended? then d.lines + [d.tail.line] else d.lines
  {
  }

  /** A line cut at its end and then glued to another is undone together with
      it: the run loads as if neither had ever been appended. */
  lemma GluedView(d: Disk, first: Line, second: Line, fate: Fate)
    requires d.tail.Clean? && !fate.Lost?
    ensures Loaded(Append(d, first, CutAtEnd)) == Loaded(d).(cells := Cells(Append(d, first, Written)))
    ensures Loaded(Append(Append(d, first, CutAtEnd), second, fate)) == Loaded(d)
  {
    var glued := Append(Append(d, first, CutAtEnd), second, fate);
    assert Readable(glued) == Readable(d);
    assert Cells(glued) == Cells(d);
    assert Readable(Append(d, first, CutAtEnd)) == Readable(Append(d, first, Written));
    assert Cells(Append(d, first, CutAtEnd)) == Cells(Append(d, first, Written));
  }
}

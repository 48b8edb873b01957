/** Reading log history (cmd/log.go): a sliding window over each file, oldest
    file first, then a window over what the files gave; and what the two views
    report as truncated. */
module LogHistory {
  import opened Options

  /** Lines kept per file when no bound is asked for. */
  const MaxBufferedLines: nat := 10_000

  datatype Line = Line(text: string)

  datatype File = File(lines: seq<Line>, opens: bool, scans: bool)

  datatype History = History(lines: seq<Line>, total: nat)

  type Filter = Line -> bool

  function Kept(keep: Filter, lines: seq<Line>): seq<Line> {
    if |lines| == 0 then []
    else Kept(keep, lines[..|lines| - 1]) + if keep(lines[|lines| - 1]) then [lines[|lines| - 1]] else []
  }

  function Last(n: nat, lines: seq<Line>): seq<Line> {
    if |lines| <= n then lines else lines[|lines| - n..]
  }

  /** All lines of the first k files, in order. */
  function Lines(files: seq<File>, k: nat): seq<Line>
    requires k <= |files|
  {
    if k == 0 then [] else Lines(files, k - 1) + files[k - 1].lines
  }

  function AllLines(files: seq<File>): seq<Line> {
    Lines(files, |files|)
  }

  function Bound(n: int): nat {
    if n > 0 then n else MaxBufferedLines
  }

  /** What the loop has collected after k files: a window of each. */
  function Windows(n: int, keep: Filter, files: seq<File>, k: nat): seq<Line>
    requires k <= |files|
  {
    if k == 0 then [] else Windows(n, keep, files, k - 1) + Last(Bound(n), Kept(keep, files[k - 1].lines))
  }

  /** The result for all files. */
  function Shown(n: int, keep: Filter, files: seq<File>): seq<Line> {
    if n > 0 then Last(n, Kept(keep, AllLines(files))) else Windows(n, keep, files, |files|)
  }

  predicate Readable(files: seq<File>, k: nat)
    requires k <= |files|
  {
    forall i :: 0 <= i < k ==> files[i].opens && files[i].scans
  }

  // ---- Windows of windows ------------------------------------------------

  lemma {:induction false} KeptConcat(keep: Filter, a: seq<Line>, b: seq<Line>)
    ensures Kept(keep, a + b) == Kept(keep, a) + Kept(keep, b)
    decreases |b|
  {
    if |b| == 0 {
      assert a + b == a;
    } else {
      var init := b[..|b| - 1];
      KeptConcat(keep, a, init);
      assert (a + b)[..|a + b| - 1] == a + init;
    }
  }

  lemma LastOfLong(n: nat, a: seq<Line>, b: seq<Line>)
    requires |b| >= n
    ensures Last(n, a + b) == Last(n, b)
  {
    if |a| + |b| <= n {
      assert a + b == b;
    } else {
      assert (a + b)[|a| + |b| - n..] == b[|b| - n..];
    }
  }

  lemma LastOfShort(n: nat, a: seq<Line>, b: seq<Line>)
    requires |b| <= n
    ensures Last(n, a + b) == Last(n - |b|, a) + b
  {
    if |a| + |b| > n {
      assert (a + b)[|a| + |b| - n..] == a[|a| + |b| - n..] + b;
    }
  }

  lemma LastOfLast(m: nat, n: nat, a: seq<Line>)
    requires m <= n
    ensures Last(m, Last(n, a)) == Last(m, a)
  {
    if |a| > n {
      assert a[|a| - n..][n - m..] == a[|a| - m..];
    }
  }

  /** The last n of a concatenation needs only the last n of the first part. */
  lemma LastOfFirst(n: nat, a: seq<Line>, b: seq<Line>)
    ensures Last(n, Last(n, a) + b) == Last(n, a + b)
  {
    if |b| >= n {
      LastOfLong(n, a, b);
      LastOfLong(n, Last(n, a), b);
    } else {
      LastOfShort(n, a, b);
      LastOfShort(n, Last(n, a), b);
      LastOfLast(n - |b|, n, a);
    }
  }

  /** And of the second. */
  lemma LastOfSecond(n: nat, a: seq<Line>, b: seq<Line>)
    ensures Last(n, a + Last(n, b)) == Last(n, a + b)
  {
    if |b| > n {
      LastOfLong(n, a, b);
      LastOfLong(n, a, Last(n, b));
      LastOfLast(n, n, b);
    }
  }

  /** Tail of tails: windowing every file and then the whole equals windowing
      all the kept lines at once. */
  lemma {:induction false} TailOfTails(n: int, keep: Filter, files: seq<File>, k: nat)
    requires n > 0 && k <= |files|
    ensures Last(n, Windows(n, keep, files, k)) == Last(n, Kept(keep, Lines(files, k)))
  {
    if k > 0 {
      var before, last := Windows(n, keep, files, k - 1), Kept(keep, files[k - 1].lines);
      var kept := Kept(keep, Lines(files, k - 1));
      TailOfTails(n, keep, files, k - 1);
      KeptConcat(keep, Lines(files, k - 1), files[k - 1].lines);
      LastOfSecond(n, before, last);
      LastOfFirst(n, before, last);
      LastOfFirst(n, kept, last);
    }
  }

  /** The history is in order: the oldest file first, every line at its place. */
  lemma {:induction false} LinesAt(files: seq<File>, k: nat, j: nat, i: nat)
    requires j < k <= |files| && i < |files[j].lines|
    ensures |Lines(files, j)| + i < |Lines(files, k)| && Lines(files, k)[|Lines(files, j)| + i] == files[j].lines[i]
    decreases k
  {
    if j < k - 1 { LinesAt(files, k - 1, j, i); }
  }

  // ---- What is left out --------------------------------------------------

  /** The bound, or without one the buffer of a single file, is too small. */
  predicate Overfull(n: int, keep: Filter, files: seq<File>) {
    if n > 0 then |Kept(keep, AllLines(files))| > n
    else exists k :: 0 <= k < |files| && |Kept(keep, files[k].lines)| > MaxBufferedLines
  }

  /** How many kept lines the windows of the first k files leave out. */
  function Missing(n: int, keep: Filter, files: seq<File>, k: nat): nat
    requires k <= |files|
  {
    if k == 0 then 0
    else
      var kept := |Kept(keep, files[k - 1].lines)|;
      Missing(n, keep, files, k - 1) + if kept > Bound(n) then kept - Bound(n) else 0
  }

  lemma LastLength(n: nat, lines: seq<Line>)
    ensures |Last(n, lines)| == if |lines| > n then n else |lines|
  {
  }

  lemma WindowsLength(n: int, keep: Filter, files: seq<File>, k: nat)
    requires 0 < k <= |files|
    ensures var kept := |Kept(keep, files[k - 1].lines)|;
      |Windows(n, keep, files, k)| == |Windows(n, keep, files, k - 1)| + if kept > Bound(n) then Bound(n) else kept
  {
    LastLength(Bound(n), Kept(keep, files[k - 1].lines));
  }

  lemma KeptLength(keep: Filter, files: seq<File>, k: nat)
    requires 0 < k <= |files|
    ensures |Kept(keep, Lines(files, k))| == |Kept(keep, Lines(files, k - 1))| + |Kept(keep, files[k - 1].lines)|
  {
    KeptConcat(keep, Lines(files, k - 1), files[k - 1].lines);
  }

  lemma MissStep(n: int, keep: Filter, files: seq<File>, k: nat)
    requires 0 < k <= |files|
    ensures |Kept(keep, Lines(files, k))| - |Windows(n, keep, files, k)| - Missing(n, keep, files, k) ==
      |Kept(keep, Lines(files, k - 1))| - |Windows(n, keep, files, k - 1)| - Missing(n, keep, files, k - 1)
  {
    WindowsLength(n, keep, files, k);
    KeptLength(keep, files, k);
  }

  lemma {:induction false} WindowsMiss(n: int, keep: Filter, files: seq<File>, k: nat)
    requires k <= |files|
    ensures |Kept(keep, Lines(files, k))| - |Windows(n, keep, files, k)| - Missing(n, keep, files, k) == 0
  {
    if k > 0 {
      WindowsMiss(n, keep, files, k - 1);
      MissStep(n, keep, files, k);
    }
  }

  lemma {:induction false} WindowsComplete(n: int, keep: Filter, files: seq<File>, k: nat)
    requires k <= |files| && Missing(n, keep, files, k) == 0
    ensures Windows(n, keep, files, k) == Kept(keep, Lines(files, k))
  {
    if k > 0 {
      WindowsComplete(n, keep, files, k - 1);
      KeptConcat(keep, Lines(files, k - 1), files[k - 1].lines);
    }
  }

  lemma {:induction false} MissingSome(n: int, keep: Filter, files: seq<File>, k: nat)
    requires k <= |files|
    ensures Missing(n, keep, files, k) > 0 <==> exists i :: 0 <= i < k && |Kept(keep, files[i].lines)| > Bound(n)
  {
    if k > 0 {
      MissingSome(n, keep, files, k - 1);
    }
  }

  /** A kept line is missing from the result exactly when the bound is too
      small: with a bound for the whole, without one for a single file. */
  lemma CompleteUnlessOverfull(n: int, keep: Filter, files: seq<File>)
    ensures Overfull(n, keep, files) <==> |Shown(n, keep, files)| < |Kept(keep, AllLines(files))|
    ensures !Overfull(n, keep, files) <==> Shown(n, keep, files) == Kept(keep, AllLines(files))
  {
    if n <= 0 {
      WindowsMiss(n, keep, files, |files|);
      MissingSome(n, keep, files, |files|);
      if Missing(n, keep, files, |files|) == 0 {
        WindowsComplete(n, keep, files, |files|);
      }
    }
  }

  lemma {:induction false} KeptShorter(keep: Filter, lines: seq<Line>)
    ensures |Kept(keep, lines)| <= |lines|
    ensures |Kept(keep, lines)| == |lines| <==> forall k :: 0 <= k < |lines| ==> keep(lines[k])
    decreases |lines|
  {
    if |lines| > 0 {
      KeptShorter(keep, lines[..|lines| - 1]);
    }
  }

  lemma KeptStep(keep: Filter, lines: seq<Line>, k: nat)
    requires k < |lines|
    ensures Kept(keep, lines[..k + 1]) == Kept(keep, lines[..k]) + if keep(lines[k]) then [lines[k]] else []
  {
    assert lines[..k + 1][..k] == lines[..k];
  }

  lemma LastStep(n: nat, lines: seq<Line>, line: Line)
    requires n > 0
    ensures var longer := Last(n, lines) + [line];
      Last(n, lines + [line]) == if |longer| > n then longer[1..] else longer
  {
  }

  // ---- The readers -------------------------------------------------------

  /** The window slides over one more kept line. */
  method Push(lines: seq<Line>, n: int, line: Line, ghost kept: seq<Line>) returns (lines': seq<Line>)
    requires lines == Last(Bound(n), kept)
    ensures lines' == Last(Bound(n), kept + [line])
  {
    LastStep(Bound(n), kept, line);
    lines' := lines + [line];
    if n <= 0 {
      if |lines'| > MaxBufferedLines {
        lines' := lines'[1..];
      }
    } else if |lines'| > n {
      lines' := lines'[1..];
    }
  }

  /** readLogHistory: one file, one pass, never more than the bound (plus one)
      in memory. */
  method ReadLogHistory(file: File, n: int, keep: Filter) returns (h: Option<History>)
    ensures h.None? <==> !file.scans
    ensures h.Some? ==> h.value == History(Last(Bound(n), Kept(keep, file.lines)), |file.lines|)
  {
    var total := 0;
    var lines: seq<Line> := [];
    while total < |file.lines|
      invariant 0 <= total <= |file.lines|
      invariant lines == Last(Bound(n), Kept(keep, file.lines[..total]))
    {
      var line := file.lines[total];
      KeptStep(keep, file.lines, total);
      if keep(line) {
        lines := Push(lines, n, line, Kept(keep, file.lines[..total]));
      }
      total := total + 1;
    }
    assert file.lines[..total] == file.lines;
    return if file.scans then Some(History(lines, total)) else None;
  }

  /** The loop over the files. */
  method ReadFiles(files: seq<File>, n: int, keep: Filter) returns (h: Option<History>)
    ensures h.Some? <==> Readable(files, |files|)
    ensures h.Some? ==> h.value == History(Windows(n, keep, files, |files|), |AllLines(files)|)
  {
    var lines: seq<Line>, total: nat := [], 0;
    var i := 0;
    while i < |files|
      invariant 0 <= i <= |files|
      invariant Readable(files, i)
      invariant lines == Windows(n, keep, files, i) && total == |Lines(files, i)|
    {
      if !files[i].opens {
        return None;
      }
      var part := ReadLogHistory(files[i], n, keep);
      if part.None? {
        return None;
      }
      lines := lines + part.value.lines;
      total := total + part.value.total;
      i := i + 1;
    }
    return Some(History(lines, total));
  }

  /** readLogHistoryFiles.  With a bound the result is the last n kept lines of
      the whole history; the total counts every line, kept or not. */
  method ReadLogHistoryFiles(files: seq<File>, pathOpens: bool, n: int, keep: Filter) returns (h: Option<History>)
    ensures h.Some? <==> Readable(files, |files|) && (files == [] ==> pathOpens)
    ensures h.Some? ==> h.value == History(Shown(n, keep, files), |AllLines(files)|)
  {
    if |files| == 0 {
      return if pathOpens then Some(History([], 0)) else None;
    }
    h := ReadFiles(files, n, keep);
    if h.None? {
      return;
    }
    if n > 0 {
      TailOfTails(n, keep, files, |files|);
      if |h.value.lines| > n {
        h := Some(h.value.(lines := h.value.lines[|h.value.lines| - n..]));
      }
    }
  }

  // ---- What "truncated" says ---------------------------------------------

  /** A kept line is not shown. */
  predicate Dropped(h: History, keep: Filter, files: seq<File>) {
    |h.lines| < |Kept(keep, AllLines(files))|
  }

  function KeepAll(line: Line): bool {
    true
  }

  function FilterOf(since: Option<Filter>): Filter {
    if since.Some? then since.value else KeepAll
  }

  /** showLogView reports a truncation only without a time filter: its report is
      right if and only if there is no filter or the bound holds every kept
      line. */
  method ShowLogView(files: seq<File>, pathOpens: bool, n: int, since: Option<Filter>, redact: Line -> string)
    returns (h: Option<History>, items: seq<Line>, truncated: bool)
    ensures h.Some? <==> Readable(files, |files|) && (files == [] ==> pathOpens)
    ensures h.Some? ==> h.value.lines == Shown(n, FilterOf(since), files)
    ensures h.Some? ==> |items| == |h.value.lines| && forall i :: 0 <= i < |items| ==> items[i] == Line(redact(h.value.lines[i]))
    ensures h.Some? ==>
      ((truncated <==> Dropped(h.value, FilterOf(since), files)) <==>
       (since.None? || !Overfull(n, FilterOf(since), files)))
  {
    var keep := FilterOf(since);
    h := ReadLogHistoryFiles(files, pathOpens, n, keep);
    if h.None? {
      return h, [], false;
    }
    items := seq(|h.value.lines|, i requires 0 <= i < |h.value.lines| => Line(redact(h.value.lines[i])));
    truncated := since.None? && h.value.total > |h.value.lines|;
    CompleteUnlessOverfull(n, keep, files);
    KeptShorter(keep, AllLines(files));
  }

  datatype Target = Target(replica: string, files: seq<File>, pathOpens: bool)

  /** The filter removes a line of the target. */
  predicate Filtered(keep: Filter, t: Target) {
    exists k :: 0 <= k < |AllLines(t.files)| && !keep(AllLines(t.files)[k])
  }

  predicate TargetReads(t: Target) {
    Readable(t.files, |t.files|) && (t.files == [] ==> t.pathOpens)
  }

  function Label(replica: string, lines: seq<Line>, redact: Line -> string): seq<Line> {
    seq(|lines|, i requires 0 <= i < |lines| => Line("[" + replica + "] " + redact(lines[i])))
  }

  /** What target t contributes. */
  function Part(t: Target, n: int, keep: Filter, redact: Line -> string): seq<Line> {
    Label(t.replica, Shown(n, keep, t.files), redact)
  }

  function Parts(targets: seq<Target>, n: int, keep: Filter, redact: Line -> string): seq<seq<Line>> {
    seq(|targets|, t requires 0 <= t < |targets| => Part(targets[t], n, keep, redact))
  }

  /** The first k parts, one after the other. */
  function Concat(parts: seq<seq<Line>>, k: nat): seq<Line>
    requires k <= |parts|
  {
    if k == 0 then [] else Concat(parts, k - 1) + parts[k - 1]
  }

  lemma {:induction false} ConcatAt(parts: seq<seq<Line>>, k: nat, t: nat, i: nat)
    requires t < k <= |parts| && i < |parts[t]|
    ensures |Concat(parts, t)| + i < |Concat(parts, k)| && Concat(parts, k)[|Concat(parts, t)| + i] == parts[t][i]
    decreases k
  {
    if t < k - 1 { ConcatAt(parts, k - 1, t, i); }
  }

  lemma PartAt(t: Target, n: int, keep: Filter, redact: Line -> string, i: nat)
    requires i < |Shown(n, keep, t.files)|
    ensures |Part(t, n, keep, redact)| == |Shown(n, keep, t.files)|
    ensures Part(t, n, keep, redact)[i] == Line("[" + t.replica + "] " + redact(Shown(n, keep, t.files)[i]))
  {
  }

  /** Line i of a target stands behind the lines of the targets before it, under
      the target's replica and redacted. */
  lemma LabelledAt(targets: seq<Target>, n: int, keep: Filter, redact: Line -> string, parts: seq<seq<Line>>, t: nat, i: nat)
    requires parts == Parts(targets, n, keep, redact) && t < |targets| && i < |Shown(n, keep, targets[t].files)|
    ensures |parts| == |targets| && |Concat(parts, t)| + i < |Concat(parts, |targets|)|
    ensures Concat(parts, |targets|)[|Concat(parts, t)| + i] ==
      Line("[" + targets[t].replica + "] " + redact(Shown(n, keep, targets[t].files)[i]))
  {
    PartAt(targets[t], n, keep, redact, i);
    ConcatAt(parts, |targets|, t, i);
  }

  /** Some target's bound is too small. */
  predicate AnyOverfull(targets: seq<Target>, n: int, keep: Filter, k: nat)
    requires k <= |targets|
  {
    k > 0 && (AnyOverfull(targets, n, keep, k - 1) || Overfull(n, keep, targets[k - 1].files))
  }

  predicate AnyFiltered(targets: seq<Target>, keep: Filter, k: nat)
    requires k <= |targets|
  {
    k > 0 && (AnyFiltered(targets, keep, k - 1) || Filtered(keep, targets[k - 1]))
  }

  predicate AllRead(targets: seq<Target>, k: nat)
    requires k <= |targets|
  {
    k == 0 || (AllRead(targets, k - 1) && TargetReads(targets[k - 1]))
  }

  lemma {:induction false} AllReadStops(targets: seq<Target>, i: nat, k: nat)
    requires i < k <= |targets| && !TargetReads(targets[i])
    ensures !AllRead(targets, k)
  {
    if i < k - 1 { AllReadStops(targets, i, k - 1); }
  }

  lemma TotalExceeds(t: Target, n: int, keep: Filter)
    ensures |AllLines(t.files)| > |Shown(n, keep, t.files)| <==> Overfull(n, keep, t.files) || Filtered(keep, t)
  {
    CompleteUnlessOverfull(n, keep, t.files);
    KeptShorter(keep, AllLines(t.files));
  }

  lemma {:induction false} NothingFiltered(targets: seq<Target>, k: nat)
    requires k <= |targets|
    ensures !AnyFiltered(targets, KeepAll, k)
  {
    if k > 0 { NothingFiltered(targets, k - 1); }
  }

  /** One target: its lines, and whether its total exceeds them. */
  method ReadTarget(t: Target, n: int, keep: Filter) returns (ok: bool, lines: seq<Line>, exceeds: bool)
    ensures ok <==> TargetReads(t)
    ensures ok ==> lines == Shown(n, keep, t.files) && (exceeds <==> Overfull(n, keep, t.files) || Filtered(keep, t))
  {
    var h := ReadLogHistoryFiles(t.files, t.pathOpens, n, keep);
    if h.None? {
      return false, [], false;
    }
    TotalExceeds(t, n, keep);
    return true, h.value.lines, h.value.total > |h.value.lines|;
  }

  /** What the loop has after k targets. */
  ghost predicate Collected(targets: seq<Target>, n: int, keep: Filter, redact: Line -> string, k: nat, items: seq<Line>, truncated: bool)
    requires k <= |targets|
  {
    && AllRead(targets, k)
    && items == Concat(Parts(targets, n, keep, redact), k)
    && (truncated <==> AnyOverfull(targets, n, keep, k) || AnyFiltered(targets, keep, k))
  }

  method AddTarget(targets: seq<Target>, k: nat, n: int, keep: Filter, redact: Line -> string, items: seq<Line>, truncated: bool)
    returns (ok: bool, items': seq<Line>, truncated': bool)
    requires k < |targets| && Collected(targets, n, keep, redact, k, items, truncated)
    ensures ok <==> TargetReads(targets[k])
    ensures ok ==> Collected(targets, n, keep, redact, k + 1, items', truncated')
  {
    var lines, exceeds;
    ok, lines, exceeds := ReadTarget(targets[k], n, keep);
    assert Parts(targets, n, keep, redact)[k] == Part(targets[k], n, keep, redact);
    return ok, items + Label(targets[k].replica, lines, redact), truncated || exceeds;
  }

  /** showDeploymentLogs compares every target's total with what is shown: it
      reports a truncation when a bound was too small or a filter removed a
      line, so the report is right if and only if some bound was too small or
      no filter removed a line. */
  method ShowDeploymentLogs(targets: seq<Target>, n: int, since: Option<Filter>, redact: Line -> string)
    returns (ok: bool, items: seq<Line>, truncated: bool)
    ensures ok <==> AllRead(targets, |targets|)
    ensures ok ==> items == Concat(Parts(targets, n, FilterOf(since), redact), |targets|)
    ensures ok ==>
      ((truncated <==> AnyOverfull(targets, n, FilterOf(since), |targets|)) <==>
       (AnyOverfull(targets, n, FilterOf(since), |targets|) || !AnyFiltered(targets, FilterOf(since), |targets|)))
    ensures ok && since.None? ==> (truncated <==> AnyOverfull(targets, n, FilterOf(since), |targets|))
  {
    items, truncated := [], false;
    var i := 0;
    while i < |targets|
      invariant 0 <= i <= |targets|
      invariant Collected(targets, n, FilterOf(since), redact, i, items, truncated)
    {
      ok, items, truncated := AddTarget(targets, i, n, FilterOf(since), redact, items, truncated);
      if !ok {
        AllReadStops(targets, i, |targets|);
        return false, [], false;
      }
      i := i + 1;
    }
    if since.None? {
      NothingFiltered(targets, |targets|);
    }
    ok := true;
  }

  // ---- Both reports can be wrong -----------------------------------------

  const TwoLines := [File([Line("old"), Line("new")], true, true)]

  predicate Recent(line: Line) {
    line == Line("new")
  }

  lemma KeptOfTwo()
    ensures AllLines(TwoLines) == [Line("old"), Line("new")]
    ensures Kept(KeepAll, [Line("old"), Line("new")]) == [Line("old"), Line("new")] && Kept(Recent, [Line("old"), Line("new")]) == [Line("new")]
  {
    assert Lines(TwoLines, 1) == Lines(TwoLines, 0) + [Line("old"), Line("new")];
    assert [Line("old"), Line("new")][..1] == [Line("old")] && [Line("old")][..0] == [];
    assert Kept(KeepAll, [Line("old")]) == [Line("old")] && Kept(Recent, [Line("old")]) == [];
  }

  lemma TooSmallForTwo()
    ensures Overfull(1, KeepAll, TwoLines) && Shown(1, KeepAll, TwoLines) == [Line("new")]
    ensures |Kept(KeepAll, AllLines(TwoLines))| == 2
  {
    KeptOfTwo();
  }

  lemma OneIsFiltered(t: Target)
    requires t.files == TwoLines
    ensures !Overfull(10, Recent, TwoLines) && Filtered(Recent, t)
  {
    KeptOfTwo();
    assert !Recent(AllLines(t.files)[0]);
  }

  /** Two kept lines, one shown, and the log view reports nothing missing,
      because a time filter was given. */
  method ViewMissesATruncation() returns (h: History, truncated: bool)
    ensures h.lines == [Line("new")] && Dropped(h, KeepAll, TwoLines) && !truncated
  {
    var r, items;
    r, items, truncated := ShowLogView(TwoLines, true, 1, Some(KeepAll), KeepText);
    TooSmallForTwo();
    h := r.value;
  }

  /** Every kept line is shown, and the deployment view reports a truncation,
      because the filter removed the other. */
  method DeploymentReportsAFilteredLine() returns (truncated: bool)
    ensures truncated && !Overfull(10, Recent, TwoLines)
  {
    var target := Target("blue", TwoLines, true);
    var ok, items;
    OneIsFiltered(target);
    assert TargetReads(target);
    var targets := [target];
    assert targets[0] == target;
    assert AllRead(targets, 0) && AnyFiltered(targets, Recent, 1) && !AnyOverfull(targets, 10, Recent, 0);
    ok, items, truncated := ShowDeploymentLogs(targets, 10, Some(Recent), KeepText);
  }

  function KeepText(line: Line): string {
    line.text
  }
}

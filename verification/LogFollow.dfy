/** Following a log (cmd/log.go, followLogLines): the stream arrives in
    arbitrary pieces; complete lines are written, the unfinished one is held
    back, and a line over the limit is replaced by a marker. */
module LogFollow {
  const Limit: nat := 0x10_0000
  const Marker := "[line omitted: exceeds log size limit]"

  /** How ReadSlice ended: at a newline, with a full buffer, at the end of what
      there is so far, or with a read error. */
  datatype End = Newline | BufferFull | EndOfFile | ReadError

  /** One ReadSlice call, and whether the context is cancelled after it. */
  datatype Read = Read(part: string, end: End, cancelled: bool)

  datatype Result = Waiting | Stopped | ReadFailed | WriteFailed

  /** ReadSlice: a newline ends the part, and there is none before. */
  predicate FromReadSlice(r: Read) {
    if r.end.Newline? then |r.part| > 0 && r.part[|r.part| - 1] == '\n' && '\n' !in r.part[..|r.part| - 1]
    else '\n' !in r.part
  }

  ghost predicate Reads(rs: seq<Read>) {
    forall k :: 0 <= k < |rs| ==> FromReadSlice(rs[k])
  }

  /** The bytes the reads delivered. */
  function Stream(rs: seq<Read>): string {
    if |rs| == 0 then "" else Stream(rs[..|rs| - 1]) + rs[|rs| - 1].part
  }

  // ---- What a stream means -----------------------------------------------

  function Joined(lines: seq<string>): string {
    if |lines| == 0 then "" else Joined(lines[..|lines| - 1]) + lines[|lines| - 1] + "\n"
  }

  /** `lines` are the complete lines of the stream, `tail` what follows the last
      newline. */
  ghost predicate Splits(stream: string, lines: seq<string>, tail: string) {
    && stream == Joined(lines) + tail
    && '\n' !in tail
    && forall k :: 0 <= k < |lines| ==> '\n' !in lines[k]
  }

  /** A line is shown redacted, or, when it is longer than the limit with its
      newline, as the marker. */
  function Shown(redact: string -> string, line: string): string {
    if |line| + 1 > Limit then Marker else redact(line)
  }

  function AllShown(redact: string -> string, lines: seq<string>): seq<string> {
    seq(|lines|, k requires 0 <= k < |lines| => Shown(redact, lines[k]))
  }

  function Newlines(s: string): nat {
    if |s| == 0 then 0 else Newlines(s[..|s| - 1]) + if s[|s| - 1] == '\n' then 1 else 0
  }

  lemma {:induction false} NoNewlines(s: string, t: string)
    requires '\n' !in t
    ensures Newlines(s + t) == Newlines(s)
    decreases |t|
  {
    if |t| == 0 {
      assert s + t == s;
    } else {
      var init := t[..|t| - 1];
      assert (s + t)[..|s + t| - 1] == s + init;
      assert t == init + [t[|t| - 1]] && t[|t| - 1] in t;
      NoNewlines(s, init);
    }
  }

  lemma {:induction false} JoinedNewlines(lines: seq<string>)
    requires forall k :: 0 <= k < |lines| ==> '\n' !in lines[k]
    ensures Newlines(Joined(lines)) == |lines|
    decreases |lines|
  {
    if |lines| > 0 {
      var init, last := lines[..|lines| - 1], lines[|lines| - 1];
      JoinedNewlines(init);
      NoNewlines(Joined(init), last);
      assert Joined(lines)[..|Joined(lines)| - 1] == Joined(init) + last;
    }
  }

  lemma TailLength(a: string, b: string, s: string, t: string)
    requires '\n' !in s && (|b| == 0 || b[|b| - 1] == '\n') && a + s == b + t
    ensures |b| <= |a|
  {
    assert |b| > 0 ==> (b + t)[|b| - 1] == '\n';
  }

  /** The part after the last newline is determined. */
  lemma TailIsUnique(a: string, b: string, s: string, t: string)
    requires '\n' !in s && '\n' !in t
    requires |a| == 0 || a[|a| - 1] == '\n'
    requires |b| == 0 || b[|b| - 1] == '\n'
    requires a + s == b + t
    ensures a == b && s == t
  {
    TailLength(a, b, s, t);
    TailLength(b, a, t, s);
    var whole := a + s;
    assert a == whole[..|a|] && b == whole[..|b|];
    assert s == whole[|a|..] && t == whole[|b|..];
  }

  /** A stream splits in one way only. */
  lemma {:induction false} SplitIsUnique(stream: string, lines: seq<string>, tail: string, lines': seq<string>, tail': string)
    requires Splits(stream, lines, tail) && Splits(stream, lines', tail')
    ensures lines == lines' && tail == tail'
    decreases |lines|
  {
    TailIsUnique(Joined(lines), Joined(lines'), tail, tail');
    JoinedNewlines(lines);
    JoinedNewlines(lines');
    if |lines| > 0 {
      var n := |lines| - 1;
      var a, b := Joined(lines[..n]) + lines[n], Joined(lines'[..n]) + lines'[n];
      assert a == Joined(lines)[..|Joined(lines)| - 1];
      assert b == Joined(lines')[..|Joined(lines')| - 1];
      assert Splits(a, lines[..n], lines[n]);
      assert Splits(a, lines'[..n], lines'[n]);
      SplitIsUnique(a, lines[..n], lines[n], lines'[..n], lines'[n]);
      assert lines == lines[..n] + [lines[n]] && lines' == lines'[..n] + [lines'[n]];
    }
  }

  /** The complete lines after one more read, and what is unfinished then. */
  function LinesAfter(lines: seq<string>, rest: string, r: Read): seq<string>
    requires FromReadSlice(r)
  {
    if r.end.Newline? then lines + [rest + r.part[..|r.part| - 1]] else lines
  }

  function RestAfter(rest: string, r: Read): string {
    if r.end.Newline? then "" else rest + r.part
  }

  lemma JoinedExtends(lines: seq<string>, line: string)
    ensures Joined(lines + [line]) == Joined(lines) + (line + "\n")
  {
    assert (lines + [line])[..|lines|] == lines;
    assert Joined(lines) + (line + "\n") == Joined(lines) + line + "\n";
  }

  lemma SplitExtendsLine(stream: string, lines: seq<string>, tail: string, part: string)
    requires Splits(stream, lines, tail)
    requires |part| > 0 && part[|part| - 1] == '\n' && '\n' !in part[..|part| - 1]
    ensures Splits(stream + part, lines + [tail + part[..|part| - 1]], "")
  {
    var line := tail + part[..|part| - 1];
    JoinedExtends(lines, line);
    assert part == part[..|part| - 1] + "\n";
    assert stream + part == Joined(lines) + (line + "\n");
    assert stream + part == Joined(lines + [line]) + "";
  }

  /** Adding what one read delivers. */
  lemma SplitExtends(stream: string, lines: seq<string>, tail: string, r: Read)
    requires Splits(stream, lines, tail) && FromReadSlice(r)
    ensures Splits(stream + r.part, LinesAfter(lines, tail, r), RestAfter(tail, r))
  {
    if r.end.Newline? {
      SplitExtendsLine(stream, lines, tail, r.part);
    } else {
      assert Joined(lines) + (tail + r.part) == stream + r.part;
    }
  }

  /** The complete lines the first n reads delivered. */
  ghost function LinesOf(rs: seq<Read>, n: nat): seq<string>
    requires Reads(rs) && n <= |rs|
  {
    if n == 0 then [] else LinesAfter(LinesOf(rs, n - 1), RestOf(rs, n - 1), rs[n - 1])
  }

  ghost function RestOf(rs: seq<Read>, n: nat): string
    requires n <= |rs|
  {
    if n == 0 then "" else RestAfter(RestOf(rs, n - 1), rs[n - 1])
  }

  /** They are the lines of the stream, so every stream splits. */
  lemma {:induction false} ReadsSplit(rs: seq<Read>, n: nat)
    requires Reads(rs) && n <= |rs|
    ensures Splits(Stream(rs[..n]), LinesOf(rs, n), RestOf(rs, n))
  {
    if n > 0 {
      ReadsSplit(rs, n - 1);
      assert rs[..n][..n - 1] == rs[..n - 1];
      SplitExtends(Stream(rs[..n - 1]), LinesOf(rs, n - 1), RestOf(rs, n - 1), rs[n - 1]);
    }
  }

  lemma ShownExtends(redact: string -> string, lines: seq<string>, line: string)
    ensures AllShown(redact, lines + [line]) == AllShown(redact, lines) + [Shown(redact, line)]
    ensures (lines + [line])[..|lines + [line]| - 1] == lines
  {
  }

  // ---- The code ----------------------------------------------------------

  /** What is held back of a line of which `rest` has arrived. */
  function Held(rest: string): string {
    if |rest| > Limit then "" else rest
  }

  /** One part: what is held back grows, or is given up for good once the line
      is over the limit; at a newline the line comes out. */
  method Absorb(pending: string, discard: bool, r: Read, redact: string -> string, ghost rest: string)
    returns (pending': string, discard': bool, line: string)
    requires FromReadSlice(r) && pending == Held(rest) && (discard <==> |rest| > Limit)
    ensures if r.end.Newline? then pending' == "" && !discard' && line == Shown(redact, rest + r.part[..|r.part| - 1])
            else pending' == Held(rest + r.part) && (discard' <==> |rest + r.part| > Limit)
    ensures r.end.Newline? ==>
      line == if |rest| + |r.part| <= Limit then redact(rest + r.part[..|r.part| - 1]) else Marker
    ensures !r.end.Newline? ==> pending' == if |rest| + |r.part| <= Limit then rest + r.part else ""
  {
    pending', discard', line := pending, discard, Marker;
    if |pending'| + |r.part| > Limit {
      pending', discard' := "", true;
    }
    if !discard' {
      pending' := pending' + r.part;
    }
    if r.end.Newline? {
      if !discard' {
        assert pending'[..|pending'| - 1] == rest + r.part[..|r.part| - 1];
        line := redact(pending'[..|pending'| - 1]);
      }
      pending', discard' := "", false;
    }
  }

  /** The read after which following stops: an error or a cancellation. */
  predicate Ends(r: Read) {
    r.end.ReadError? || r.cancelled
  }

  /** Where following stands after n reads: what is held back of the unfinished
      line, and the complete lines written. */
  ghost predicate Following(rs: seq<Read>, n: nat, redact: string -> string, out: seq<string>, pending: string, discard: bool)
    requires Reads(rs) && n <= |rs|
  {
    && pending == Held(RestOf(rs, n)) && (discard <==> |RestOf(rs, n)| > Limit)
    && out == AllShown(redact, LinesOf(rs, n))
  }

  /** One read: a line it completes is written, which fails when the output
      takes no more. */
  method TakeRead(rs: seq<Read>, n: nat, redact: string -> string, writes: nat, out: seq<string>, pending: string, discard: bool)
    returns (out': seq<string>, pending': string, discard': bool, failed: bool)
    requires Reads(rs) && n < |rs| && Following(rs, n, redact, out, pending, discard) && |out| <= writes
    ensures |pending'| <= Limit && |out'| <= writes
    ensures failed ==> out' == out && |out| == writes && |LinesOf(rs, n + 1)| == writes + 1
    ensures failed ==> out' == AllShown(redact, LinesOf(rs, n + 1)[..writes])
    ensures !failed ==> Following(rs, n + 1, redact, out', pending', discard')
  {
    var line;
    failed, out' := false, out;
    pending', discard', line := Absorb(pending, discard, rs[n], redact, RestOf(rs, n));
    if rs[n].end.Newline? {
      ghost var lines := LinesOf(rs, n);
      ShownExtends(redact, lines, RestOf(rs, n) + rs[n].part[..|rs[n].part| - 1]);
      assert LinesOf(rs, n + 1)[..|lines|] == lines;
      failed := |out| == writes;
      if !failed {
        out' := out + [line];
      }
    }
  }

  ghost predicate NoneEnds(rs: seq<Read>, n: nat) {
    forall k :: 0 <= k < n && k < |rs| ==> !Ends(rs[k])
  }

  /** followLogLines over the reads it makes until it returns, or over any
      number of them while it waits.  `writes` is how many lines the output
      takes before a write fails. */
  method FollowLogLines(rs: seq<Read>, redact: string -> string, writes: nat)
    returns (out: seq<string>, pending: string, consumed: nat, result: Result, ghost lines: seq<string>, ghost rest: string)
    requires Reads(rs)
    ensures consumed <= |rs| && (result.Waiting? ==> consumed == |rs| && NoneEnds(rs, consumed))
    ensures |pending| <= Limit && |out| <= writes
    ensures !result.Waiting? ==> consumed > 0 && NoneEnds(rs, consumed - 1)
    ensures result.ReadFailed? || result.Stopped? ==>
      Ends(rs[consumed - 1]) && (result.ReadFailed? <==> rs[consumed - 1].end.ReadError?)
    ensures forall k :: 0 <= k < consumed - 1 ==> !rs[k].end.ReadError? && !rs[k].cancelled
    ensures result.Waiting? && consumed > 0 ==> !rs[consumed - 1].end.ReadError? && !rs[consumed - 1].cancelled
    ensures result.Stopped? ==> rs[consumed - 1].cancelled
    ensures Splits(Stream(rs[..consumed]), lines, rest)
    ensures result.WriteFailed? ==> |lines| == writes + 1
    ensures out == AllShown(redact, if result.WriteFailed? then lines[..writes] else lines)
    ensures |out| == if result.WriteFailed? then writes else |lines|
    ensures forall k :: 0 <= k < |out| ==> out[k] == if |lines[k]| < Limit then redact(lines[k]) else Marker
  {
    out, pending, consumed, result := [], "", 0, Waiting;
    var discard, failed := false, false;
    while consumed < |rs|
      invariant consumed <= |rs| && result.Waiting? && NoneEnds(rs, consumed)
      invariant Following(rs, consumed, redact, out, pending, discard)
      invariant |pending| <= Limit && |out| <= writes
    {
      out, pending, discard, failed := TakeRead(rs, consumed, redact, writes, out, pending, discard);
      consumed := consumed + 1;
      if failed {
        result := WriteFailed;
        break;
      }
      if Ends(rs[consumed - 1]) {
        result := if rs[consumed - 1].end.ReadError? then ReadFailed else Stopped;
        break;
      }
    }
    lines, rest := LinesOf(rs, consumed), RestOf(rs, consumed);
    ReadsSplit(rs, consumed);
  }

  lemma OneWay(stream: string, lines: seq<string>, tail: string)
    requires Splits(stream, lines, tail)
    ensures forall ls, t :: Splits(stream, ls, t) ==> ls == lines && t == tail
  {
    forall ls, t | Splits(stream, ls, t) ensures ls == lines && t == tail {
      SplitIsUnique(stream, ls, t, lines, tail);
    }
  }

  /** What was complete after some reads is a prefix of what is complete after
      all of them. */
  lemma {:induction false} LinesGrow(rs: seq<Read>, k: nat, lines: seq<string>, tail: string) returns (all: seq<string>, rest: string)
    requires Reads(rs) && k <= |rs| && Splits(Stream(rs[..k]), lines, tail)
    ensures Splits(Stream(rs), all, rest) && lines <= all
    decreases |rs|
  {
    if k == |rs| {
      assert rs[..k] == rs;
      all, rest := lines, tail;
    } else {
      var n := |rs| - 1;
      var r := rs[n];
      assert rs[..n][..k] == rs[..k];
      all, rest := LinesGrow(rs[..n], k, lines, tail);
      SplitExtends(Stream(rs[..n]), all, rest, r);
      all, rest := LinesAfter(all, rest, r), RestAfter(rest, r);
    }
  }

  /** The reads neither fail nor are cancelled. */
  predicate Undisturbed(rs: seq<Read>) {
    forall k :: 0 <= k < |rs| ==> !Ends(rs[k])
  }

  /** The first lines, as many as the output takes, each redacted, or the marker
      if with its newline it is longer than the limit. */
  ghost predicate Written(redact: string -> string, writes: nat, lines: seq<string>, out: seq<string>) {
    && |out| == (if |lines| <= writes then |lines| else writes)
    && forall k :: 0 <= k < |out| ==> out[k] == if |lines[k]| < Limit then redact(lines[k]) else Marker
  }

  /** Over undisturbed reads the output is the complete lines of the whole
      stream, as many as the output takes. */
  method FollowAll(rs: seq<Read>, redact: string -> string, writes: nat) returns (out: seq<string>)
    requires Reads(rs) && Undisturbed(rs)
    ensures forall lines, tail :: Splits(Stream(rs), lines, tail) ==> Written(redact, writes, lines, out)
    ensures forall lines, tail :: Splits(Stream(rs), lines, tail) ==>
      out == AllShown(redact, if |lines| <= writes then lines else lines[..writes])
  {
    var pending, consumed, result;
    ghost var part, rest;
    out, pending, consumed, result, part, rest := FollowLogLines(rs, redact, writes);
    assert result.Waiting? ==> rs[..consumed] == rs;
    ghost var all, tail := LinesGrow(rs, consumed, part, rest);
    OneWay(Stream(rs), all, tail);
    assert |AllShown(redact, part)| == |part|;
    if result.WriteFailed? {
      assert all[..writes] == part[..writes];
    } else {
      OneWay(Stream(rs), part, rest);
    }
  }

  /** Chunking independence: two ways of delivering one stream, whatever the
      pieces, show the same. */
  method SameStreamSameOutput(rs: seq<Read>, qs: seq<Read>, redact: string -> string, writes: nat)
    returns (out: seq<string>, out': seq<string>)
    requires Reads(rs) && Reads(qs) && Undisturbed(rs) && Undisturbed(qs)
    requires Stream(rs) == Stream(qs)
    ensures out == out'
  {
    out := FollowAll(rs, redact, writes);
    out' := FollowAll(qs, redact, writes);
    ReadsSplit(rs, |rs|);
    assert rs[..|rs|] == rs;
  }

  /** Two streams the redactor takes for the same: their complete lines come out
      of it alike, and those over the limit stand at the same places. */
  ghost predicate LooksLike(redact: string -> string, lines: seq<string>, lines': seq<string>) {
    && |lines| == |lines'|
    && forall k :: 0 <= k < |lines| ==>
         && (|lines[k]| < Limit <==> |lines'[k]| < Limit)
         && (|lines[k]| < Limit ==> redact(lines[k]) == redact(lines'[k]))
  }

  /** What the redactor hides does not show: not in the output, however either
      stream is cut into pieces, and neither do the contents of long or
      unfinished lines. */
  method RedactedAlikeShownAlike(rs: seq<Read>, qs: seq<Read>, redact: string -> string, writes: nat,
                                 ghost lines: seq<string>, ghost tail: string, ghost lines': seq<string>, ghost tail': string)
    returns (out: seq<string>, out': seq<string>)
    requires Reads(rs) && Reads(qs) && Undisturbed(rs) && Undisturbed(qs)
    requires Splits(Stream(rs), lines, tail) && Splits(Stream(qs), lines', tail') && LooksLike(redact, lines, lines')
    ensures out == out'
  {
    out := FollowAll(rs, redact, writes);
    out' := FollowAll(qs, redact, writes);
    assert Written(redact, writes, lines, out) && Written(redact, writes, lines', out');
  }
}

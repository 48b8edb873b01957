/** Classic rebuild of an application with secrets (cmd/rebuild.go,
    runClassicRebuild): the build writes over the running application's binary,
    so a backup is taken first and a deferred handler decides, from the
    deployment journal alone, whether the backup is dropped or put back.

    The deferred calls run last in, first out: the backup handler, then
    FinishSecretTxn, then the lock release. */
module ClassicRebuild {
  import opened Options
  import opened ClassicHost

  /** A failing build may leave anything in the binary's place. */
  datatype Build = Built(binary: Bytes) | BuildFails(left: Option<Bytes>)

  datatype Faults = Faults(
    configFails: bool, versionUnreadable: bool, begin: ReconcileFault, pinFails: bool,
    secretsFail: bool, statFails: bool, backupCopy: CopyFault, build: Build,
    recordFails: bool, stop: StopFault, start: StartFault, lookupFails: bool, store: StoreFault, promote: PromoteFault,
    finish: ReconcileFault, envelopeFails: bool,
    handlerReconcile: ReconcileFault, handlerLoadFails: bool, undo: UndoFault, discardFails: bool,
    lateFinish: ReconcileFault)

  datatype Report = Report(failed: bool, backedUp: bool, existed: bool)

  /** The settling calls of the deferred handler all succeed. */
  predicate HandlerWorks(x: Faults) {
    x.handlerReconcile.Settles? && !x.handlerLoadFails && !x.discardFails && x.undo == CleanUndo
  }

  /** The journal carries this transaction's stamp. */
  predicate Stamped(journal: Option<Journal>, txn: nat) {
    journal.Some? && journal.value.txn == Some(txn)
  }

  /** acceptClassicSecrets: record the new process, stamped, in the journal. */
  method Accept(h: Host, version: nat, txn: nat, x: Faults) returns (ok: bool)
    modifies h`journal
    ensures ok <==> !x.lookupFails && x.store.Stores?
    ensures h.journal ==
      if x.lookupFails || x.store.StoreFails? then old(h.journal) else Some(Journal(version, h.record, Some(txn)))
  {
    if x.lookupFails {
      return false;
    }
    ok := h.Store(Journal(version, h.record, Some(txn)), x.store);
  }

  predicate LaunchWorks(x: Faults, running: bool) {
    (!running || x.stop.Stops?) && x.start.Starts? && !x.lookupFails && x.store.Stores?
  }

  predicate BodyWorks(x: Faults, running: bool) {
    x.build.Built? && LaunchWorks(x, running) && x.finish.Settles? && !x.envelopeFails
  }

  /** The build, the launch and writing the stamp get through, whatever storing
      the journal then says. */
  predicate Accepts(x: Faults, running: bool) {
    x.build.Built? && (running ==> x.stop.Stops?) && x.start.Starts? && !x.lookupFails && !x.store.StoreFails?
  }

  /** The stamped journal names the version and the running process. */
  predicate Accepted(s: State, version: nat, txn: nat) {
    s.alive.Some? && s.record == Some(s.alive.value.id) && s.journal == Some(Journal(version, s.record, Some(txn)))
  }

  /** Stop what runs, start the built binary with the transaction's values, and
      record the acceptance. */
  method Launch(h: Host, info: Option<nat>, version: nat, txn: nat, x: Faults) returns (ok: bool)
    requires h.Valid() && !Stamped(h.journal, txn) && info == h.record && h.files.dest.Some?
    modifies h`alive, h`record, h`nextId, h`journal
    ensures h.Valid() && h.nextId >= old(h.nextId)
    ensures ok <==> LaunchWorks(x, info.Some?)
    ensures ok ==> Stamped(h.journal, txn)
    ensures x.build.Built? ==> (Stamped(h.journal, txn) <==> Accepts(x, info.Some?))
    ensures Stamped(h.journal, txn) ==> Accepted(h.Now(), version, txn)
    ensures Stamped(h.journal, txn) ==>
      h.alive.Some? && Some(h.alive.value.image) == h.files.dest && h.alive.value.txn == Some(txn)
    ensures !Stamped(h.journal, txn) ==> h.journal == old(h.journal)
    ensures h.record == info ==> h.alive == old(h.alive) && !Stamped(h.journal, txn)
    ensures info.Some? ==> (h.record == info <==> x.stop.StaysAlive?)
    ensures h.record == info || h.record.None? || h.record.value >= old(h.nextId)
  {
    var stopped := h.StopExisting(info, x.stop);
    if !stopped { return false; }
    var started := h.Start(Some(txn), x.start);
    if !started { return false; }
    ok := Accept(h, version, txn, x);
  }

  /** What building and launching leaves: nothing accepted and the old journal,
      versions and transaction, or the built binary accepted and running. */
  ghost predicate ReplaceLeaves(b: State, a: State, failed: bool, info: Option<nat>, version: nat, txn: nat, x: Faults) {
    && a.files.backup == b.files.backup && (failed <==> !BodyWorks(x, info.Some?))
    && (!failed ==> a.pending == None) && (Stamped(a.journal, txn) <==> Accepts(x, info.Some?))
    && (Stamped(a.journal, txn) ==>
          && Accepted(a, if x.recordFails then 0 else version, txn)
          && x.build.Built? && a.files.dest == Some(x.build.binary) && a.alive.value.image == x.build.binary)
    && (!failed && !x.recordFails && x.promote.Promotes? ==> a.metadata == version && a.link == version)
    && (!Stamped(a.journal, txn) ==>
          a.journal == b.journal && a.metadata == b.metadata && a.link == b.link && a.pending == b.pending)
    && (if a.pending == None then b.pending.Some? && a.bound == b.pending.value.candidate && Stamped(a.journal, txn)
        else a.pending == b.pending && a.bound == b.bound)
    && (a.record == info ==> a.alive == b.alive)
    && (info.Some? ==> (a.record == info <==> !Stopped(x)))
  }

  /** Everything between taking the backup and returning: build, launch,
      promote, settle.  `version` is what recording the build gives it. */
  method Replace(h: Host, info: Option<nat>, version: nat, txn: nat, x: Faults) returns (failed: bool)
    requires h.Valid() && !Stamped(h.journal, txn) && info == h.record
    requires h.pending.Some? && h.pending.value.txn == txn
    requires version > 0
    modifies h
    ensures h.Valid() && h.uses == old(h.uses) && h.seen <= old(h.seen) + {h.files}
    ensures ReplaceLeaves(old(h.Now()), h.Now(), failed, info, version, txn, x)
  {
    match x.build {
      case Built(binary) => h.Put(h.files.(dest := Some(binary)));
      case BuildFails(left) =>
        h.Put(h.files.(dest := left));
        return true;
    }
    if !x.recordFails {
      h.artifacts := h.artifacts[version := x.build.binary];
    }
    var launched := Launch(h, info, if x.recordFails then 0 else version, txn, x);
    if !launched { return true; }
    failed := Commit(h, version, txn, x);
  }

  /** After the acceptance: promote, best effort, and settle the transaction. */
  method Commit(h: Host, version: nat, txn: nat, x: Faults) returns (failed: bool)
    requires h.Valid() && Stamped(h.journal, txn) && h.pending.Some? && h.pending.value.txn == txn
    requires version > 0 && (!x.recordFails ==> version in h.artifacts)
    modifies h`metadata, h`link, h`alive, h`bound, h`pending
    ensures h.Valid() && h.alive == old(h.alive)
    ensures failed <==> !(x.finish.Settles? && !x.envelopeFails)
    ensures if x.finish.FailsUnsettled? then h.pending == old(h.pending) && h.bound == old(h.bound)
            else h.pending == None && h.bound == old(h.pending).value.candidate
    ensures !x.recordFails && x.promote.Promotes? ==> h.metadata == version && h.link == version
  {
    if !x.recordFails {
      var _ := h.Promote(version, x.promote);
    }
    var settled := h.Reconcile(x.finish);
    return !settled || x.envelopeFails;
  }

  /** The backup was put back and the application is what it was: left alone if
      it was never stopped, started again if it was. */
  ghost predicate PutBack(m: State, a: State, info: Option<nat>, existed: bool, current: nat) {
    && a.files == (if existed then Files(m.files.backup, None) else m.files.(dest := None))
    && a.bound == m.bound
    && (if info.None? then a.alive == None && a.record == None && a.journal == m.journal
        else if m.record == info then a.alive == m.alive && a.record == info && a.journal == m.journal
        else if !existed then a.alive == None && a.record == None && a.journal == m.journal
        else a.alive.Some? && Some(a.alive.value.image) == m.files.backup && a.record == Some(a.alive.value.id)
             && a.journal == if m.journal.None? then None else Some(Journal(current, a.record, None)))
  }

  /** The bindings and the intent: settled with the journal's stamp deciding, or
      both as they were. */
  ghost predicate Bindings(b: State, a: State, txn: nat) {
    if a.pending.None? && b.pending.Some? then a.bound == if Stamped(a.journal, txn) then b.pending.value.candidate else b.bound
    else a.pending == b.pending && a.bound == b.bound
  }

  /** What the deferred backup handler leaves: an accepted binary stays, with the
      backup dropped; otherwise everything is put back; the journal's stamp, which
      it never changes, decides. */
  ghost predicate HandlerLeaves(b: State, a: State, uses: seq<Use>, uses': seq<Use>,
                                info: Option<nat>, existed: bool, current: nat, txn: nat, x: Faults) {
    && (Stamped(a.journal, txn) <==> Stamped(b.journal, txn)) && Bindings(b, a, txn)
    && a.metadata == b.metadata && a.link == b.link
    && (Stamped(a.journal, txn) ==>
          a.files.dest == b.files.dest && a.record == b.record && a.journal == b.journal && a.alive == b.alive)
    && (!Stamped(a.journal, txn) ==>
          a.files == b.files || a.files == (if existed then Files(b.files.backup, None) else b.files.(dest := None)))
    && (HandlerWorks(x) && Stamped(a.journal, txn) ==>
          && a.pending == None && uses' == uses + [Discarded]
          && a.files == if existed then b.files.(backup := None) else b.files)
    && (HandlerWorks(x) && !Stamped(a.journal, txn) ==>
          && a.pending == None && PutBack(b, a, info, existed, current)
          && uses' == if existed || b.files.dest.Some? then uses + [Restored] else uses)
  }

  lemma AcceptedLeaves(b: State, m: State, a: State, uses: seq<Use>, uses': seq<Use>,
                       info: Option<nat>, existed: bool, current: nat, txn: nat, x: Faults)
    requires Reconciled(b, m) && Stamped(m.journal, txn) && (b.pending.Some? ==> b.pending.value.txn == txn)
    requires a == m.(files := a.files) && a.files.dest == m.files.dest
    requires HandlerWorks(x) ==> a.files == (if existed then m.files.(backup := None) else m.files) && uses' == uses + [Discarded]
    requires b.pending.None? ==> m == b
    ensures HandlerLeaves(b, a, uses, uses', info, existed, current, txn, x)
  {
  }

  lemma UndoneLeaves(b: State, m: State, a: State, uses: seq<Use>, uses': seq<Use>,
                     info: Option<nat>, existed: bool, current: nat, txn: nat, x: Faults)
    requires Reconciled(b, m) && !Stamped(m.journal, txn) && (b.pending.Some? ==> b.pending.value.txn == txn)
    requires b.record == info && b.alive.Some? ==> b.alive.value.txn != Some(txn)
    requires a.metadata == m.metadata && a.link == m.link && a.bound == m.bound && a.pending == m.pending
    requires a.journal == m.journal || (a.journal.Some? && a.journal.value.txn == None)
    requires a.files == m.files || a.files == (if existed then Files(m.files.backup, None) else m.files.(dest := None))
    requires a.alive.Some? ==> a.record == Some(a.alive.value.id)
    requires HandlerWorks(x) ==> Undone(m, a, existed, info, current)
    requires HandlerWorks(x) ==> uses' == if existed || m.files.dest.Some? then uses + [Restored] else uses
    ensures HandlerLeaves(b, a, uses, uses', info, existed, current, txn, x)
  {
  }

  /** The handler after a failure: settle the transaction, then let the journal
      decide. */
  method Recover(h: Host, info: Option<nat>, existed: bool, current: nat, txn: nat, x: Faults)
    requires h.Valid()
    requires existed ==> h.files.backup.Some?
    requires h.pending.Some? ==> h.pending.value.txn == txn
    requires h.record == info && h.alive.Some? ==> h.alive.value.txn != Some(txn)
    modifies h`files, h`seen, h`uses, h`alive, h`record, h`nextId, h`journal, h`bound, h`pending
    ensures h.Valid() && h.seen <= old(h.seen) + {h.files}
    ensures HandlerLeaves(old(h.Now()), h.Now(), old(h.uses), h.uses, info, existed, current, txn, x)
  {
    ghost var before, uses := h.Now(), h.uses;
    var settled := h.Reconcile(x.handlerReconcile);
    ghost var mid := h.Now();
    if !settled || x.handlerLoadFails {
      return;
    }
    if Stamped(h.journal, txn) {
      var _ := h.Discard(existed, x.discardFails);
      AcceptedLeaves(before, mid, h.Now(), uses, h.uses, info, existed, current, txn, x);
      return;
    }
    h.Compensate(info, existed, current, x.undo);
    UndoneLeaves(before, mid, h.Now(), uses, h.uses, info, existed, current, txn, x);
  }

  /** The deferred backup handler: the error, or none, decides together with the
      journal; `failed` is the named error before and after. */
  method SettleBackup(h: Host, info: Option<nat>, existed: bool, current: nat, txn: nat, failedBefore: bool, x: Faults)
    returns (failed: bool)
    requires h.Valid()
    requires existed ==> h.files.backup.Some?
    requires !failedBefore ==> Stamped(h.journal, txn) && h.pending == None
    requires h.pending.Some? ==> h.pending.value.txn == txn
    requires h.record == info && h.alive.Some? ==> h.alive.value.txn != Some(txn)
    modifies h`files, h`seen, h`uses, h`alive, h`record, h`nextId, h`journal, h`bound, h`pending
    ensures h.Valid() && h.seen <= old(h.seen) + {h.files}
    ensures failed <==> failedBefore || (existed && x.discardFails)
    ensures HandlerLeaves(old(h.Now()), h.Now(), old(h.uses), h.uses, info, existed, current, txn, x)
  {
    if failedBefore {
      Recover(h, info, existed, current, txn, x);
      return true;
    }
    var ok := h.Discard(existed, x.discardFails);
    return !ok;
  }

  /** The old binary is never lost before the acceptance: at its place, in the
      backup, or replaced by an accepted one. */
  ghost predicate OldKept(seen: set<Files>, before: Option<Bytes>, accepted: Option<Bytes>) {
    forall f :: f in seen ==> before.Some? ==> f.dest == before || f.backup == before || (accepted.Some? && f.dest == accepted)
  }

  /** The running application was stopped before the run failed. */
  predicate Stopped(x: Faults) {
    x.build.Built? && !x.stop.StaysAlive?
  }

  /** A rebuild that got past its backup and whose settling calls all worked:
      the journal's stamp decides about the binary and the bindings alike.  `b`
      is the host before, `a` after. */
  ghost predicate Settled(b: State, a: State, txn: nat, candidate: nat, x: Faults) {
    && a.pending == None
    && (b.files.dest.Some? ==> a.files.backup == None)
    && (if Stamped(a.journal, txn) then a.bound == candidate && x.build.Built? && a.files.dest == Some(x.build.binary)
        else AllBack(b, a, x))
  }

  /** Binary, versions and bindings are back; an application that was stopped
      runs from the old binary again, one that was not was left alone; and the
      journal is as it was unless the old binary was started again: then it
      names the version read at the start, 0 when that was unreadable. */
  ghost predicate AllBack(b: State, a: State, x: Faults) {
    && a.files.dest == b.files.dest && a.metadata == b.metadata && a.link == b.link
    && (b.pending.None? ==> a.bound == b.bound)
    && (b.record.None? ==> a.alive.None?)
    && (!UnsettledLaunch(b) && b.alive.Some? && b.files.dest.Some? ==>
          a.alive.Some? && if Stopped(x) then Some(a.alive.value.image) == b.files.dest else a.alive == b.alive)
    && a.journal == (if b.journal.Some? && b.record.Some? && b.files.dest.Some? && Stopped(x)
                     then Some(Journal(if x.versionUnreadable then 0 else b.metadata, a.record, None)) else b.journal)
  }

  /** The command gets as far as an open transaction. */
  predicate Opened(x: Faults) {
    !x.configFails && x.begin.Settles? && !x.pinFails
  }

  /** Open the secret transaction: settle the previous one, pin the candidate,
      write the intent. */
  method Begin(h: Host, txn: nat, candidate: nat, x: Faults) returns (ok: bool)
    requires h.Valid()
    modifies h`alive, h`bound, h`pending
    ensures h.Valid()
    ensures ok <==> x.begin.Settles? && !x.pinFails
    ensures ok ==> h.pending == Some(Pending(txn, candidate))
    ensures h.alive == old(h.alive) || (h.alive == None && UnsettledLaunch(old(h.Now())))
    ensures h.bound == if old(h.pending).None? || x.begin.FailsUnsettled? || !Stamped(h.journal, old(h.pending).value.txn)
                       then old(h.bound) else old(h.pending).value.candidate
    ensures !ok ==> h.pending == if x.begin.FailsUnsettled? then old(h.pending) else None
  {
    ok := h.Reconcile(x.begin);
    if !ok || x.pinFails {
      return false;
    }
    h.pending := Some(Pending(txn, candidate));
  }

  /** What a rebuild leaves of the host.  Without a backup it failed and changed
      neither files, journal nor versions.  With one, and settling calls that
      work, the stamp decides everything and the backup is consumed once.  A
      stamp means the built binary runs and is what the journal names, and
      success means a stamp and, recorded and promoted, the new version. */
  ghost predicate RebuildLeaves(b: State, a: State, r: Report, uses: seq<Use>, uses': seq<Use>, txn: nat, candidate: nat, version: nat, x: Faults) {
    && (r.backedUp ==> r.existed == b.files.dest.Some?)
    && (Stamped(a.journal, txn) <==> r.backedUp && Accepts(x, b.record.Some?))
    && (!r.backedUp ==>
          && r.failed && a.files == b.files && uses' == uses && !Stamped(a.journal, txn)
          && a.journal == b.journal && a.metadata == b.metadata && a.link == b.link)
    && (r.backedUp && HandlerWorks(x) ==> Settled(b, a, txn, candidate, x))
    && (r.backedUp && HandlerWorks(x) && r.existed ==>
          uses' == uses + [if Stamped(a.journal, txn) then Discarded else Restored])
    && (Stamped(a.journal, txn) ==>
          && Accepted(a, if x.recordFails then 0 else version, txn)
          && x.build.Built? && a.files.dest == Some(x.build.binary) && a.alive.value.image == x.build.binary)
    && (!r.failed ==> Stamped(a.journal, txn))
    && (!r.failed && !x.recordFails && x.promote.Promotes? ==> a.metadata == version && a.link == version)
  }

  /** Backup, replacement and handler put together. */
  lemma TogetherLeave(b: State, m: State, t: State, a: State, uses: seq<Use>, uses': seq<Use>, bodyFailed: bool, r: Report,
                      info: Option<nat>, current: nat, txn: nat, candidate: nat, version: nat, x: Faults)
    requires r.backedUp && r.existed == b.files.dest.Some? && info == b.record
    requires m == b.(files := if r.existed then b.files.(backup := b.files.dest) else b.files)
    requires b.pending == Some(Pending(txn, candidate)) && !Stamped(b.journal, txn)
    requires b.alive.Some? ==> b.alive.value.txn != Some(txn) && b.record == Some(b.alive.value.id)
    requires current == if x.versionUnreadable then 0 else b.metadata
    requires ReplaceLeaves(m, t, bodyFailed, info, version, txn, x)
    requires HandlerLeaves(t, a, uses, uses', info, r.existed, current, txn, x)
    requires r.failed <==> bodyFailed || (r.existed && x.discardFails)
    ensures RebuildLeaves(b.(pending := None), a, r, uses, uses', txn, candidate, version, x)
    ensures Bindings(b, a, txn)
  {
  }

  /** Under an open transaction: back up, replace, and settle the backup. */
  method Protected(h: Host, info: Option<nat>, current: nat, txn: nat, candidate: nat, version: nat, x: Faults) returns (r: Report)
    requires h.Valid() && version > 0 && info == h.record
    requires current == if x.versionUnreadable then 0 else h.metadata
    requires !Stamped(h.journal, txn) && (h.alive.Some? ==> h.alive.value.txn != Some(txn))
    requires h.pending == Some(Pending(txn, candidate))
    requires h.seen == {h.files}
    modifies h
    ensures h.Valid()
    ensures !r.backedUp ==> h.Now() == old(h.Now())
    ensures r.backedUp <==> !x.statFails && (old(h.files.dest).Some? ==> CopyDone(old(h.files.dest), x.backupCopy))
    ensures RebuildLeaves(old(h.Now()).(pending := None), h.Now(), r, old(h.uses), h.uses, txn, candidate, version, x)
    ensures Bindings(old(h.Now()), h.Now(), txn)
    ensures r.failed <==> !(!x.statFails && (old(h.files.dest).Some? ==> CopyDone(old(h.files.dest), x.backupCopy) && !x.discardFails)
                            && BodyWorks(x, info.Some?))
    ensures OldKept(h.seen, old(h.files.dest), if Stamped(h.journal, txn) then h.files.dest else None)
  {
    ghost var before, uses := h.Now(), h.uses;
    var backup := h.BackUp(x.statFails, x.backupCopy);
    if backup.None? {
      return Report(true, false, false);
    }
    ghost var backed := h.Now();
    var failed := Replace(h, info, version, txn, x);
    ghost var replaced, bodyFailed := h.Now(), failed;
    failed := SettleBackup(h, info, backup.value, current, txn, failed, x);
    r := Report(failed, true, backup.value);
    TogetherLeave(before, backed, replaced, h.Now(), uses, h.uses, bodyFailed, r, info, current, txn, candidate, version, x);
  }

  /** The deferred FinishSecretTxn changes nothing that has been decided. */
  lemma LateLeaves(b: State, m: State, a: State, r: Report, r': Report, uses: seq<Use>, uses': seq<Use>, txn: nat, candidate: nat, version: nat, x: Faults)
    requires RebuildLeaves(b, m, r, uses, uses', txn, candidate, version, x) && (a == m || Reconciled(m, a))
    requires m.pending == None || m.pending == Some(Pending(txn, candidate))
    requires r' == r.(failed := r'.failed) && (r.failed ==> r'.failed)
    ensures RebuildLeaves(b, a, r', uses, uses', txn, candidate, version, x)
  {
  }

  /** Between the intent and the end of the command: read the secrets, rebuild,
      settle what is left of the transaction. */
  method InTransaction(h: Host, info: Option<nat>, current: nat, txn: nat, candidate: nat, version: nat, x: Faults) returns (r: Report)
    requires h.Valid() && version > 0 && info == h.record
    requires current == if x.versionUnreadable then 0 else h.metadata
    requires !Stamped(h.journal, txn) && (h.alive.Some? ==> h.alive.value.txn != Some(txn))
    requires h.pending == Some(Pending(txn, candidate))
    requires h.seen == {h.files}
    modifies h
    ensures h.Valid()
    ensures !r.backedUp ==> h.alive == old(h.alive)
    ensures r.backedUp <==>
      !x.secretsFail && !x.statFails && (old(h.files.dest).Some? ==> CopyDone(old(h.files.dest), x.backupCopy))
    ensures RebuildLeaves(old(h.Now()).(pending := None), h.Now(), r, old(h.uses), h.uses, txn, candidate, version, x)
    ensures Bindings(old(h.Now()), h.Now(), txn) && (!x.lateFinish.FailsUnsettled? ==> h.pending == None)
    ensures !r.failed <==>
      && !x.secretsFail && !x.statFails
      && (old(h.files.dest).Some? ==> CopyDone(old(h.files.dest), x.backupCopy) && !x.discardFails)
      && BodyWorks(x, info.Some?) && x.lateFinish.Settles?
    ensures OldKept(h.seen, old(h.files.dest), if Stamped(h.journal, txn) then h.files.dest else None)
  {
    ghost var before, uses := h.Now().(pending := None), h.uses;
    if x.secretsFail {
      r := Report(true, false, false);
    } else {
      r := Protected(h, info, current, txn, candidate, version, x);
    }
    ghost var mid, rebuilt := h.Now(), r;
    var settled := h.Reconcile(x.lateFinish);
    r := r.(failed := r.failed || !settled);
    LateLeaves(before, mid, h.Now(), rebuilt, r, uses, h.uses, txn, candidate, version, x);
  }

  /** Opening the transaction settles the previous one and nothing else. */
  lemma BegunLeaves(b: State, m: State, a: State, r: Report, uses: seq<Use>, uses': seq<Use>, txn: nat, candidate: nat, version: nat, x: Faults)
    requires RebuildLeaves(m.(pending := None), a, r, uses, uses', txn, candidate, version, x)
    requires m == b.(alive := m.alive, bound := m.bound, pending := m.pending)
    requires m.alive == b.alive || (m.alive == None && UnsettledLaunch(b))
    requires b.pending.None? ==> m.bound == b.bound
    ensures RebuildLeaves(b, a, r, uses, uses', txn, candidate, version, x)
  {
  }

  /** runClassicRebuild with a secret transaction.  Its identity is fresh. */
  method Rebuild(h: Host, txn: nat, candidate: nat, version: nat, x: Faults) returns (r: Report)
    requires h.Valid() && version > 0
    requires !Stamped(h.journal, txn) && (h.alive.Some? ==> h.alive.value.txn != Some(txn))
    modifies h
    ensures h.Valid()
    ensures !r.failed <==>
      && !x.configFails && x.begin.Settles? && !x.pinFails && !x.secretsFail && !x.statFails
      && (old(h.files.dest).Some? ==> CopyDone(old(h.files.dest), x.backupCopy) && !x.discardFails)
      && x.build.Built? && (old(h.record).Some? ==> x.stop.Stops?) && x.start.Starts?
      && !x.lookupFails && x.store.Stores? && x.finish.Settles? && !x.envelopeFails && x.lateFinish.Settles?
    ensures RebuildLeaves(old(h.Now()), h.Now(), r, old(h.uses), h.uses, txn, candidate, version, x)
    ensures !r.backedUp ==> h.alive == old(h.alive) || (h.alive == None && UnsettledLaunch(old(h.Now())))
    ensures x.configFails ==> h.Now() == old(h.Now())
    ensures r.backedUp <==>
      Opened(x) && !x.secretsFail && !x.statFails && (old(h.files.dest).Some? ==> CopyDone(old(h.files.dest), x.backupCopy))
    ensures Stamped(h.journal, txn) <==>
      && r.backedUp && x.build.Built? && (old(h.record).Some? ==> x.stop.Stops?) && x.start.Starts?
      && !x.lookupFails && !x.store.StoreFails?
    ensures Opened(x) && !x.lateFinish.FailsUnsettled? ==>
      && h.pending == None
      && (Stamped(h.journal, txn) ==> h.bound == candidate)
      && (!Stamped(h.journal, txn) && old(h.pending).None? ==> h.bound == old(h.bound))
    ensures OldKept(h.seen, old(h.files.dest), if Stamped(h.journal, txn) then h.files.dest else None)
  {
    h.seen := {h.files};
    if x.configFails {
      return Report(true, false, false);
    }
    var info := h.record;
    var current := if x.versionUnreadable then 0 else h.metadata;
    ghost var before := h.Now();
    var begun := Begin(h, txn, candidate, x);
    if !begun {
      return Report(true, false, false);
    }
    ghost var intent, uses := h.Now(), h.uses;
    r := InTransaction(h, info, current, txn, candidate, version, x);
    BegunLeaves(before, intent, h.Now(), r, uses, h.uses, txn, candidate, version, x);
  }

  const NoFaults := Faults(
    false, false, Settles, false, false, false, NoFault, Built([2]), false, Stops, Starts, false, Stores, Promotes,
    Settles, false, Settles, false, CleanUndo, false, Settles)

  /** An input: nothing fails, and the new binary runs under the new journal,
      versions and bindings. */
  method GoodRebuild() returns (after: State, r: Report)
    ensures !r.failed && after.files == Files(Some([2]), None) && after.metadata == 3 && after.link == 3 && after.bound == 9
    ensures after.pending == None
    ensures after.alive.Some? && after.alive.value.image == [2]
    ensures after.journal == Some(Journal(3, after.record, Some(5)))
  {
    var h := new Host(Files(Some([1]), None), Some(Process(7, [1], None)), Some(7), 2, 2, map[], Some(Journal(2, Some(7), None)), 4);
    r := Rebuild(h, 5, 9, 3, NoFaults);
    after := h.Now();
  }

  /** An input: the new binary exits at once, and the old one runs again under
      the old versions and bindings. */
  method FailedStartIsUndone() returns (after: State, r: Report)
    ensures r.failed && after.files == Files(Some([1]), None) && after.metadata == 2 && after.link == 2 && after.bound == 4
    ensures after.alive.Some? && after.alive.value.image == [1] && after.pending == None
    ensures after.journal == Some(Journal(2, after.record, None))
  {
    var h := new Host(Files(Some([1]), None), Some(Process(7, [1], None)), Some(7), 2, 2, map[], Some(Journal(2, Some(7), None)), 4);
    r := Rebuild(h, 5, 9, 3, NoFaults.(start := ExitsAtOnce));
    after := h.Now();
  }
}

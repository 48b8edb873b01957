/** Classic rollback (cmd/rollback.go, rollbackClassic): a compensated
    transaction with one commit point, deferred cleanup and a deferred history
    record. */
module ClassicRollback {
  import opened Options
  import opened ClassicHost

  /** Where the execution failed; `Nowhere` means it committed. */
  datatype At = Nowhere | Lock | Reconciling | Revalidating | Moved | Resolving | Replacing | Secrets | Stopping | Starting | Journalling | Promoting

  /** The stability window after the commit: its status is known unless it
      broke before it could say one. */
  datatype Verify = NotRequested | Stable | Unstable | Broken

  datatype Faults = Faults(
    currentUnreadable: bool, lockBusy: bool, reconcile: ReconcileFault, revalidateFails: bool, currentMoved: bool,
    pathsFail: bool, statFails: bool, backupCopy: CopyFault, copy: CopyFault, secretsFail: bool, restoreFails: bool,
    stop: StopFault, start: StartFault, loadFails: bool, lookupFails: bool, store: StoreFault, promote: PromoteFault,
    undo: UndoFault, discardFails: bool, verify: Verify, envelopeFails: bool, historyLost: bool)

  const NoFaults := Faults(
    false, false, Settles, false, false, false, false, NoFault, NoFault, false, false,
    Stops, Starts, false, false, Stores, Promotes, CleanUndo, false, NotRequested, false, false)

  datatype Error = NoError | VerifyCode | OtherError

  /** One line of the rollback history. */
  datatype Execution = Execution(from: nat, to: nat, success: bool, verified: bool)

  datatype Report = Report(at: At, error: Error, staged: bool, verification: bool, history: Option<Execution>)

  /** opRun.finish on the staged result: cmd/oprun.go. */
  predicate RecordSucceeded(r: Report) {
    r.error.NoError? || (r.staged && r.verification && r.error.VerifyCode?)
  }

  /** An interrupted secret transaction has been settled: committed iff the
      journal carried its stamp, dropped otherwise. */
  ghost predicate SettledBindings(b: State, a: State) {
    && a.pending == None
    && a.bound == if b.pending.Some? && b.journal.Some? && b.journal.value.txn == Some(b.pending.value.txn)
                  then b.pending.value.candidate else b.bound
  }

  /** It is settled unless the lock is taken or settling it fails. */
  ghost predicate Entered(b: State, a: State, x: Faults) {
    if x.lockBusy || x.reconcile.FailsUnsettled? then a.pending == b.pending && a.bound == b.bound else SettledBindings(b, a)
  }

  /** The calls that undo a failed rollback all succeed. */
  predicate UndoWorks(x: Faults) {
    !x.restoreFails && x.undo == CleanUndo
  }

  /** Committed: the target's binary is in place and running, and both version
      records and the journal name it. */
  ghost predicate Forward(b: State, a: State, target: nat, binary: Option<Bytes>) {
    && binary.Some? && a.files.dest == binary
    && a.alive.Some? && Some(a.alive.value.image) == binary && a.record == Some(a.alive.value.id)
    && (if target == 0 then a.metadata == b.metadata && a.link == b.link else a.metadata == target && a.link == target)
    && a.journal == if b.journal.None? then None else Some(Journal(target, a.record, None))
  }

  /** Files and versions after a failure that was undone. */
  ghost predicate FilesBack(b: State, a: State, at: At, x: Faults, target: nat) {
    && a.files.dest == b.files.dest
    && (a.files.backup.Some? ==> a.files == b.files)
    && a.link == b.link
    && a.metadata == if at.Promoting? && x.promote.PromoteHalf? && target > 0 then target else b.metadata
  }

  /** The application after a failure that was undone: the same process, or one
      running the old binary again, except when the failing stop killed it. */
  ghost predicate AppBack(b: State, a: State, at: At, x: Faults) {
    && (b.record.None? ==> a.alive.None? && a.record.None?)
    && (b.alive.Some? && b.files.dest.Some? ==>
          && (a.alive.None? <==> at.Stopping? && x.stop.DiesWithError?)
          && (a.alive.Some? ==> a.alive == b.alive || Some(a.alive.value.image) == b.files.dest))
  }

  /** The target has been written to the journal by the step that failed or by
      one before it: promotion comes after the journal, and storing the journal
      may write it and still fail. */
  predicate JournalRewritten(at: At, x: Faults) {
    at.Promoting? || (at.Journalling? && !x.loadFails && !x.lookupFails && x.store.StoresWithError?)
  }

  /** The old binary is started again after a failure. */
  predicate Restarted(b: State, at: At) {
    at in {Starting, Journalling, Promoting} && b.record.Some? && b.files.dest.Some?
  }

  /** The journal after a failure that was undone: untouched, or rewritten for
      the restarted old binary, or, when nothing was restarted after the target
      was written to it, naming the target. */
  ghost predicate JournalBack(b: State, a: State, at: At, x: Faults, target: nat) {
    if b.journal.None? then a.journal.None?
    else if Restarted(b, at) then a.journal == Some(Journal(b.metadata, a.record, None))
    else if JournalRewritten(at, x) then a.journal.Some? && a.journal.value.active == target
    else a.journal == b.journal
  }

  /** All-or-nothing: what a failed rollback leaves when it could be undone. */
  ghost predicate Back(b: State, a: State, at: At, x: Faults, target: nat) {
    && FilesBack(b, a, at, x, target)
    && JournalBack(b, a, at, x, target)
    && (!UnsettledLaunch(b) ==> AppBack(b, a, at, x))
  }

  /** What serving the target leaves when it failed and was compensated. */
  ghost predicate Compensated(m: State, a: State, at: At, x: Faults, info: Option<nat>, existed: bool, current: nat, target: nat) {
    && a.files == (if existed then Files(m.files.backup, None) else m.files.(dest := None))
    && a.link == m.link
    && a.metadata == (if at.Promoting? && x.promote.PromoteHalf? && target > 0 then target else m.metadata)
    && (if !existed || info.None? then a.alive == None && a.record == None
        else a.alive.Some? && Some(a.alive.value.image) == m.files.backup)
    && (if m.journal.None? then a.journal.None?
        else if existed && info.Some? then a.journal == Some(Journal(current, a.record, None))
        else if JournalRewritten(at, x) then a.journal.Some? && a.journal.value.active == target
        else a.journal == m.journal)
  }

  /** There is a journal, and neither it nor the metadata names the target. */
  predicate NamesAnother(b: State, target: nat) {
    b.journal.Some? && b.journal.value.active != target && b.metadata != target
  }

  /** A failed rollback that was undone leaves a journal naming the target
      exactly when nothing was restarted and the target had been written. */
  lemma JournalNamesTarget(b: State, a: State, at: At, x: Faults, target: nat)
    requires JournalBack(b, a, at, x, target)
    requires NamesAnother(b, target)
    ensures a.journal.Some?
    ensures a.journal.value.active == target <==> !Restarted(b, at) && JournalRewritten(at, x)
  {
  }

  function EnterFault(x: Faults): At {
    if x.lockBusy then Lock
    else if !x.reconcile.Settles? then Reconciling
    else if x.revalidateFails then Revalidating
    else if x.currentMoved then Moved
    else if x.pathsFail then Resolving else Nowhere
  }

  function SwapFault(dest: Option<Bytes>, running: bool, binary: Option<Bytes>, x: Faults): At {
    if x.statFails || (dest.Some? && !CopyDone(dest, x.backupCopy)) || !CopyDone(binary, x.copy) then Replacing
    else if x.secretsFail then Secrets
    else if running && !x.stop.Stops? then Stopping else Nowhere
  }

  function ServeFault(journalled: bool, target: nat, x: Faults): At {
    if !x.start.Starts? then Starting
    else if x.loadFails || (journalled && (x.lookupFails || !x.store.Stores?)) then Journalling
    else if target > 0 && !x.promote.Promotes? then Promoting else Nowhere
  }

  /** The step a rollback fails at; `Nowhere` exactly when it commits. */
  function FirstFault(b: State, binary: Option<Bytes>, target: nat, x: Faults): At {
    if EnterFault(x) != Nowhere then EnterFault(x)
    else if SwapFault(b.files.dest, b.record.Some?, binary, x) != Nowhere then SwapFault(b.files.dest, b.record.Some?, binary, x)
    else ServeFault(b.journal.Some?, target, x)
  }

  /** Every step that can fail does not, listed one by one. */
  predicate Flawless(x: Faults, dest: Option<Bytes>, running: bool, journalled: bool, binary: Option<Bytes>, target: nat) {
    && !x.lockBusy && x.reconcile.Settles? && !x.revalidateFails && !x.currentMoved && !x.pathsFail
    && !x.statFails && (dest.Some? ==> CopyDone(dest, x.backupCopy)) && CopyDone(binary, x.copy) && !x.secretsFail
    && (running ==> x.stop.Stops?) && x.start.Starts?
    && !x.loadFails && (journalled ==> !x.lookupFails && x.store.Stores?)
    && (target > 0 ==> x.promote.Promotes?)
  }

  /** The steps in the order they are taken. */
  function Order(at: At): nat {
    match at
    case Lock => 0
    case Reconciling => 1
    case Revalidating => 2
    case Moved => 3
    case Resolving => 4
    case Replacing => 5
    case Secrets => 6
    case Stopping => 7
    case Starting => 8
    case Journalling => 9
    case Promoting => 10
    case Nowhere => 11
  }

  /** What makes one step fail. */
  predicate Fails(at: At, b: State, binary: Option<Bytes>, target: nat, x: Faults) {
    match at
    case Lock => x.lockBusy
    case Reconciling => !x.reconcile.Settles?
    case Revalidating => x.revalidateFails
    case Moved => x.currentMoved
    case Resolving => x.pathsFail
    case Replacing => x.statFails || (b.files.dest.Some? && !CopyDone(b.files.dest, x.backupCopy)) || !CopyDone(binary, x.copy)
    case Secrets => x.secretsFail
    case Stopping => b.record.Some? && !x.stop.Stops?
    case Starting => !x.start.Starts?
    case Journalling => x.loadFails || (b.journal.Some? && (x.lookupFails || !x.store.Stores?))
    case Promoting => target > 0 && !x.promote.Promotes?
    case Nowhere => true
  }

  /** The reported step is the first one that fails. */
  lemma FirstFaultIsFirst(b: State, binary: Option<Bytes>, target: nat, x: Faults)
    ensures var at := FirstFault(b, binary, target, x);
      Fails(at, b, binary, target, x) && forall earlier :: Order(earlier) < Order(at) ==> !Fails(earlier, b, binary, target, x)
  {
  }

  lemma FlawlessCommits(b: State, binary: Option<Bytes>, target: nat, x: Faults)
    ensures FirstFault(b, binary, target, x) == Nowhere <==>
      Flawless(x, b.files.dest, b.record.Some?, b.journal.Some?, binary, target)
  {
  }

  /** replaceBinaryForRollback. */
  method ReplaceBinary(h: Host, binary: Option<Bytes>, x: Faults) returns (existed: Option<bool>)
    requires h.Valid() && AllSafe(h.seen, h.files.dest, binary)
    modifies h`files, h`seen, h`temp, h`uses
    ensures h.Valid() && AllSafe(h.seen, old(h.files.dest), binary)
    ensures existed.Some? ==>
      && binary.Some? && existed.value == old(h.files.dest).Some?
      && h.files == Files(binary, if existed.value then old(h.files.dest) else old(h.files.backup))
    ensures existed.None? ==> h.files.dest == old(h.files.dest)
    ensures existed.None? && !x.restoreFails ==> h.files.backup.Some? ==> h.files == old(h.files)
    ensures existed.None? <==>
      x.statFails || (old(h.files.dest).Some? && !CopyDone(old(h.files.dest), x.backupCopy)) || !CopyDone(binary, x.copy)
  {
    var backup := h.BackUp(x.statFails, x.backupCopy);
    if backup.None? {
      return None;
    }
    var ok := h.Copy(binary, false, x.copy);
    if !ok {
      var _ := h.Restore(backup.value, x.restoreFails);
      return None;
    }
    return backup;
  }

  /** Put the target's binary in place and stop the application; a failure
      restores the old binary without starting anything. */
  method Swap(h: Host, info: Option<nat>, binary: Option<Bytes>, x: Faults) returns (at: At, existed: bool)
    requires h.Valid() && AllSafe(h.seen, h.files.dest, binary) && info == h.record
    modifies h`files, h`seen, h`temp, h`uses, h`alive, h`record
    ensures h.Valid() && AllSafe(h.seen, old(h.files.dest), binary)
    ensures at == SwapFault(old(h.files.dest), info.Some?, binary, x)
    ensures at.Nowhere? ==>
      && binary.Some? && existed == old(h.files.dest).Some? && h.record == None && h.alive == None
      && h.files == Files(binary, if existed then old(h.files.dest) else old(h.files.backup))
    ensures !at.Nowhere? && !x.restoreFails ==>
      h.files.dest == old(h.files.dest) && (h.files.backup.Some? ==> h.files == old(h.files))
    ensures !at.Nowhere? ==>
      if at.Stopping? && x.stop.DiesWithError? then h.alive == None && h.record == None
      else h.alive == old(h.alive) && h.record == old(h.record)
  {
    var backup := ReplaceBinary(h, binary, x);
    if backup.None? { return Replacing, false; }
    existed := backup.value;
    if x.secretsFail {
      var _ := h.Restore(existed, x.restoreFails);
      return Secrets, existed;
    }
    var stopped := h.StopExisting(info, x.stop);
    if !stopped {
      var _ := h.Restore(existed, x.restoreFails);
      return Stopping, existed;
    }
    return Nowhere, existed;
  }

  /** Start the target, journal it, promote it; compensate the first failure. */
  method Serve(h: Host, info: Option<nat>, existed: bool, current: nat, target: nat, x: Faults) returns (at: At)
    requires h.Valid() && h.files.dest.Some? && h.record.None?
    requires existed ==> h.files.backup.Some?
    requires info.Some? ==> info.value < h.nextId
    requires target in h.artifacts
    modifies h
    ensures h.Valid() && h.artifacts == old(h.artifacts) && h.pending == old(h.pending) && h.bound == old(h.bound)
    ensures at == ServeFault(old(h.journal).Some?, target, x)
    ensures h.seen <= old(h.seen) + {h.files}
    ensures at.Nowhere? ==> h.files == old(h.files) && Forward(old(h.Now()), h.Now(), target, h.files.dest)
    ensures h.files == old(h.files) || h.files == (if existed then Files(old(h.files.backup), None) else old(h.files).(dest := None))
    ensures !at.Nowhere? && x.undo == CleanUndo ==>
      Compensated(old(h.Now()), h.Now(), at, x, info, existed, current, target)
  {
    var started := h.Start(None, x.start);
    if !started {
      h.Compensate(info, existed, current, x.undo);
      return Starting;
    }
    var journalled := h.RefreshJournal(target, x.loadFails, x.lookupFails, x.store);
    if !journalled {
      h.Compensate(info, existed, current, x.undo);
      return Journalling;
    }
    var promoted := h.Promote(target, x.promote);
    if !promoted {
      h.Compensate(info, existed, current, x.undo);
      return Promoting;
    }
    return Nowhere;
  }

  /** The lock, the leftover secret transaction, and the checks that the world
      is still the one the target was resolved in. */
  method Enter(h: Host, x: Faults) returns (at: At)
    requires h.Valid()
    modifies h`alive, h`bound, h`pending
    ensures h.Valid()
    ensures at == EnterFault(x)
    ensures Entered(old(h.Now()), h.Now(), x)
    ensures !UnsettledLaunch(old(h.Now())) ==> h.alive == old(h.alive)
  {
    if x.lockBusy { return Lock; }
    var settled := h.Reconcile(x.reconcile);
    if !settled { return Reconciling; }
    if x.revalidateFails { return Revalidating; }
    if x.currentMoved { return Moved; }
    return if x.pathsFail then Resolving else Nowhere;
  }

  lemma ForwardFrom(b: State, m: State, a: State, target: nat, binary: Option<Bytes>)
    requires Forward(m, a, target, binary)
    requires m.metadata == b.metadata && m.link == b.link && m.journal == b.journal
    ensures Forward(b, a, target, binary)
  {
  }

  lemma EnteredIsBack(b: State, a: State, at: At, x: Faults, target: nat)
    requires a == b.(alive := a.alive, bound := a.bound, pending := a.pending)
    requires at == EnterFault(x) && at != Nowhere
    requires b.alive.Some? ==> b.record.Some?
    requires a.alive.Some? ==> a.record == Some(a.alive.value.id)
    requires !UnsettledLaunch(b) ==> a.alive == b.alive
    ensures Back(b, a, at, x, target)
  {
  }

  lemma BackFrom(b: State, m: State, a: State, at: At, x: Faults, target: nat)
    requires m == b.(alive := m.alive, bound := m.bound, pending := m.pending)
    requires FilesBack(m, a, at, x, target) && JournalBack(m, a, at, x, target) && AppBack(m, a, at, x)
    requires !UnsettledLaunch(b) ==> m.alive == b.alive
    ensures Back(b, a, at, x, target)
  {
  }

  /** Compensating after the swap undoes both. */
  lemma CompensatedIsBack(b: State, m: State, a: State, at: At, x: Faults, target: nat)
    requires Compensated(m, a, at, x, b.record, b.files.dest.Some?, b.metadata, target)
    requires at in {Starting, Journalling, Promoting}
    requires b.files.dest.Some? ==> m.files.backup == b.files.dest
    requires b.files.dest.None? ==> m.files.backup == b.files.backup
    requires m.link == b.link && m.metadata == b.metadata && m.journal == b.journal
    requires b.alive.Some? ==> b.record.Some?
    ensures FilesBack(b, a, at, x, target) && JournalBack(b, a, at, x, target) && AppBack(b, a, at, x)
  {
  }

  /** Swap the binary, then serve it. */
  method Attempt(h: Host, target: nat, x: Faults) returns (at: At, existed: bool)
    requires h.Valid() && AllSafe(h.seen, h.files.dest, h.Artifact(target))
    modifies h
    ensures h.pending == old(h.pending) && h.bound == old(h.bound)
    ensures h.Valid() && AllSafe(h.seen, old(h.files.dest), old(h.Artifact(target)))
    ensures at == if SwapFault(old(h.files.dest), old(h.record).Some?, old(h.Artifact(target)), x) != Nowhere
                  then SwapFault(old(h.files.dest), old(h.record).Some?, old(h.Artifact(target)), x)
                  else ServeFault(old(h.journal).Some?, target, x)
    ensures at.Nowhere? ==>
      && Forward(old(h.Now()), h.Now(), target, old(h.Artifact(target)))
      && existed == old(h.files.dest).Some?
      && h.files.backup == if existed then old(h.files.dest) else old(h.files.backup)
    ensures !at.Nowhere? && UndoWorks(x) ==>
      FilesBack(old(h.Now()), h.Now(), at, x, target) && JournalBack(old(h.Now()), h.Now(), at, x, target)
      && AppBack(old(h.Now()), h.Now(), at, x)
  {
    ghost var before := h.Now();
    var info, current := h.record, h.metadata;
    at, existed := Swap(h, info, h.Artifact(target), x);
    if !at.Nowhere? { return; }
    ghost var swapped := h.Now();
    at := Serve(h, info, existed, current, target, x);
    if at.Nowhere? {
      ForwardFrom(before, swapped, h.Now(), target, h.files.dest);
    } else if UndoWorks(x) {
      CompensatedIsBack(before, swapped, h.Now(), at, x, target);
    }
  }

  /** From the lock to the commit point: rollbackClassic without its
      verification and its record keeping. */
  method Execute(h: Host, target: nat, x: Faults) returns (at: At, existed: bool)
    requires h.Valid()
    modifies h
    ensures h.Valid() && AllSafe(h.seen, old(h.files.dest), old(h.Artifact(target)))
    ensures at == FirstFault(old(h.Now()), old(h.Artifact(target)), target, x)
    ensures at.Nowhere? <==> Flawless(x, old(h.files.dest), old(h.record).Some?, old(h.journal).Some?, old(h.Artifact(target)), target)
    ensures Entered(old(h.Now()), h.Now(), x)
    ensures at.Nowhere? ==>
      && Forward(old(h.Now()), h.Now(), target, old(h.Artifact(target)))
      && existed == old(h.files.dest).Some?
      && h.files.backup == if existed then old(h.files.dest) else old(h.files.backup)
    ensures !at.Nowhere? && UndoWorks(x) ==> Back(old(h.Now()), h.Now(), at, x, target)
  {
    h.seen := {h.files};
    ghost var before := h.Now();
    FlawlessCommits(before, h.Artifact(target), target, x);
    at := Enter(h, x);
    ghost var entered := h.Now();
    if !at.Nowhere? {
      EnteredIsBack(before, entered, at, x, target);
      return at, false;
    }
    at, existed := Attempt(h, target, x);
    if at.Nowhere? {
      ForwardFrom(before, entered, h.Now(), target, h.files.dest);
    } else if UndoWorks(x) {
      BackFrom(before, entered, h.Now(), at, x, target);
    }
  }

  /** After the commit: the result is staged, the window is watched, and the
      deferred discard drops the backup. */
  method Conclude(h: Host, existed: bool, current: nat, target: nat, x: Faults) returns (r: Report)
    requires h.Valid()
    modifies h`files, h`seen, h`uses
    ensures h.Valid() && h.seen == old(h.seen) + {h.files}
    ensures h.files == if existed && !x.discardFails then old(h.files).(backup := None) else old(h.files)
    ensures r.at.Nowhere? && r.staged
    ensures r.verification <==> x.verify.Stable? || x.verify.Unstable?
    ensures r.error.NoError? <==> !x.verify.Unstable? && !x.verify.Broken? && !x.envelopeFails
    ensures r.error.VerifyCode? <==> x.verify.Unstable? || x.verify.Broken?
    ensures RecordSucceeded(r) <==> x.verify.Unstable? || (!x.verify.Broken? && !x.envelopeFails)
    ensures r.history == if x.historyLost then None else Some(Execution(current, target, true, r.verification))
  {
    var verified := (x.verify.Stable? || x.verify.Unstable?);
    var error :=
      if x.verify.Unstable? || x.verify.Broken? then VerifyCode
      else if x.envelopeFails then OtherError else NoError;
    var _ := h.Discard(existed, x.discardFails);
    return Report(Nowhere, error, true, verified, if x.historyLost then None else Some(Execution(current, target, true, verified)));
  }

  /** rollbackClassic.  The deferred recorder and the deferred discard see what
      the body decided, whatever the stability window or the envelope does
      after the commit. */
  method RollbackClassic(h: Host, target: nat, x: Faults) returns (r: Report)
    requires h.Valid()
    modifies h
    ensures h.Valid()
    ensures r.at.Nowhere? ==>
      && Forward(old(h.Now()), h.Now(), target, old(h.Artifact(target)))
      && (old(h.files.dest).None? ==> h.files.backup == old(h.files.backup))
      && (old(h.files.dest).Some? ==> h.files.backup == if x.discardFails then old(h.files.dest) else None)
    ensures x.currentUnreadable ==> h.Now() == old(h.Now()) && r.history == None
    ensures !x.currentUnreadable ==> Entered(old(h.Now()), h.Now(), x)
    ensures !r.at.Nowhere? && UndoWorks(x) ==>
      Back(old(h.Now()), h.Now(), r.at, x, target)
    ensures !r.at.Nowhere? && UndoWorks(x) && NamesAnother(old(h.Now()), target) ==>
      h.journal.Some? && (h.journal.value.active == target <==> !Restarted(old(h.Now()), r.at) && JournalRewritten(r.at, x))
    ensures forall f :: f in h.seen && f !in old(h.seen) ==>
      CrashSafe(f, old(h.files.dest), old(h.Artifact(target))) || (r.at.Nowhere? && f == h.files)
    ensures r.history.Some? ==>
      r.history.value == Execution(old(h.metadata), target, r.at.Nowhere?, r.at.Nowhere? && (x.verify.Stable? || x.verify.Unstable?))
    ensures r.history.None? ==> x.currentUnreadable || x.historyLost
    ensures r.at == if x.currentUnreadable then Resolving else FirstFault(old(h.Now()), old(h.Artifact(target)), target, x)
    ensures r.at.Nowhere? <==> !x.currentUnreadable && Flawless(x, old(h.files.dest), old(h.record).Some?, old(h.journal).Some?, old(h.Artifact(target)), target)
    ensures r.error.NoError? <==> r.at.Nowhere? && !x.verify.Unstable? && !x.verify.Broken? && !x.envelopeFails
    ensures r.error.VerifyCode? <==> r.at.Nowhere? && (x.verify.Unstable? || x.verify.Broken?)
    ensures r.staged <==> r.at.Nowhere?
    ensures r.verification <==> r.at.Nowhere? && (x.verify.Stable? || x.verify.Unstable?)
    ensures RecordSucceeded(r) <==> r.at.Nowhere? && (x.verify.Unstable? || (!x.verify.Broken? && !x.envelopeFails))
  {
    if x.currentUnreadable {
      return Report(Resolving, OtherError, false, false, None);
    }
    ghost var before := h.Now();
    var current := h.metadata;
    var at, existed := Execute(h, target, x);
    if !at.Nowhere? {
      if UndoWorks(x) && NamesAnother(before, target) {
        JournalNamesTarget(before, h.Now(), at, x, target);
      }
      return Report(at, OtherError, false, false, if x.historyLost then None else Some(Execution(current, target, false, false)));
    }
    r := Conclude(h, existed, current, target, x);
  }

  // ---- What a failed rollback does not undo ------------------------------

  const Old: Option<Bytes> := Some([1])
  const Previous: Bytes := [2]

  /** A stop that kills the application and then fails to save its state makes
      the rollback give up without starting the old binary again: everything is
      restored except the running application. */
  method KillingStopIsNotUndone() returns (before: State, after: State, r: Report)
    ensures before.alive.Some? && after.alive.None?
    ensures after.files == before.files && after.metadata == before.metadata && after.link == before.link
    ensures r.at.Stopping? && !RecordSucceeded(r)
  {
    var h := new Host(Files(Old, None), Some(Process(7, Old.value, None)), Some(7), 2, 2, map[1 := Previous], None, 0);
    before := h.Now();
    r := RollbackClassic(h, 1, NoFaults.(stop := DiesWithError));
    after := h.Now();
  }

  /** A promotion whose own metadata rollback fails leaves the two version
      records naming different versions, with the old binary running. */
  method HalfPromotionSplitsTheVersions() returns (after: State)
    ensures after.metadata == 1 && after.link == 2 && after.files.dest == Old
    ensures after.alive.Some? && Some(after.alive.value.image) == Old
  {
    var h := new Host(Files(Old, None), Some(Process(7, Old.value, None)), Some(7), 2, 2, map[1 := Previous], None, 0);
    var r := RollbackClassic(h, 1, NoFaults.(promote := PromoteHalf));
    after := h.Now();
  }

  /** When the application was not running, nothing is started again after a
      failed promotion and the journal keeps naming the target. */
  method StoppedAppKeepsTheTargetJournal() returns (after: State)
    ensures after.files.dest == Old && after.metadata == 2 && after.link == 2 && after.alive.None?
    ensures after.journal.Some? && after.journal.value.active == 1
  {
    var h := new Host(Files(Old, None), None, None, 2, 2, map[1 := Previous], Some(Journal(2, None, None)), 0);
    var r := RollbackClassic(h, 1, NoFaults.(promote := PromoteFails));
    after := h.Now();
  }

  /** So it does when storing the journal wrote it and then failed. */
  method FailedStoreKeepsTheTargetJournal() returns (after: State)
    ensures after.files.dest == Old && after.metadata == 2 && after.link == 2 && after.alive.None?
    ensures after.journal.Some? && after.journal.value.active == 1
  {
    var h := new Host(Files(Old, None), None, None, 2, 2, map[1 := Previous], Some(Journal(2, None, None)), 0);
    var r := RollbackClassic(h, 1, NoFaults.(store := StoresWithError));
    after := h.Now();
  }
}

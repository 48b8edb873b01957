/** The host a classic (stop, replace, start) deployment works on: the binary
    and its backup, the application process and the manager's record of it, the
    deployment journal, the secret store and the version metadata.

    Every operation takes a fault that says how it goes wrong, so a caller's
    contract holds for every choice of failing step.  `seen` collects every
    state of the two files that ever existed, which is every state a crash can
    leave behind. */
module ClassicHost {
  import opened Options

  type Bytes = seq<bv8>

  /** The binary the application is started from, and the copy kept beside it. */
  datatype Files = Files(dest: Option<Bytes>, backup: Option<Bytes>)

  /** `id` is the process identity (pid and start ticks); `txn` the secret
      transaction whose values it was launched with. */
  datatype Process = Process(id: nat, image: Bytes, txn: Option<nat>)

  datatype Journal = Journal(active: nat, slot: Option<nat>, txn: Option<nat>)

  datatype Pending = Pending(txn: nat, candidate: nat)

  datatype Use = Restored | Discarded

  datatype CopyFault = NoFault | OpenFails | DirFails | TempFails | ChmodFails | WriteFails(after: nat) | SyncFails | CloseFails | RenameFails

  datatype StopFault = Stops | StaysAlive | DiesWithError

  /** ExitsAtOnce: nothing runs afterwards.  KeepsRunning: the launch failed
      but the new process could not be stopped and stays recorded. */
  datatype StartFault = Starts | ExitsAtOnce | KeepsRunning

  datatype StoreFault = Stores | StoreFails | StoresWithError

  /** PromoteHalf: the metadata was replaced, the symlink was not, and writing
      the old metadata back failed too. */
  datatype PromoteFault = Promotes | PromoteFails | PromoteHalf

  datatype ReconcileFault = Settles | FailsUnsettled | SettlesWithError

  /** What can go wrong while compensating. */
  datatype UndoFault = UndoFault(
    lookupFails: bool, stop: StopFault, restoreFails: bool, restart: StartFault,
    loadFails: bool, relookupFails: bool, store: StoreFault)

  const CleanUndo := UndoFault(false, Stops, false, Starts, false, false, Stores)

  /** A copy goes through exactly when its source exists and no step fails; a
      write fault beyond the last byte never strikes. */
  predicate CopyDone(source: Option<Bytes>, fault: CopyFault) {
    source.Some? && (fault.NoFault? || (fault.WriteFails? && fault.after >= |source.value|))
  }

  /** Everything durable or running, at one moment. */
  datatype State = State(
    files: Files, alive: Option<Process>, record: Option<nat>, metadata: nat, link: nat,
    journal: Option<Journal>, bound: nat, pending: Option<Pending>)

  /** The process is a launch of a secret transaction that was never accepted:
      reconciling kills it. */
  predicate UnsettledLaunch(s: State) {
    && s.pending.Some? && s.alive.Some? && s.alive.value.txn == Some(s.pending.value.txn)
    && !(s.journal.Some? && s.journal.value.txn == Some(s.pending.value.txn))
  }

  /** What a crash may leave of a replacement: the binary is exactly the old or
      exactly the new one, and the old one is at its place or in the backup. */
  predicate CrashSafe(f: Files, before: Option<Bytes>, after: Option<Bytes>) {
    && (f.dest == before || (after.Some? && f.dest == after))
    && (before.Some? ==> f.dest == before || f.backup == before)
  }

  ghost predicate AllSafe(seen: set<Files>, before: Option<Bytes>, after: Option<Bytes>) {
    forall f :: f in seen ==> CrashSafe(f, before, after)
  }

  /** What compensation leaves when none of its own calls fails: the old binary
      back, and an application that ran from one running: untouched if it still
      is, else started again, which an existing journal then says. */
  ghost predicate Undone(m: State, a: State, existed: bool, info: Option<nat>, version: nat) {
    && a.files == (if existed then Files(m.files.backup, None) else m.files.(dest := None))
    && (if info.Some? && m.record == info then a.alive == m.alive && a.record == info && a.journal == m.journal
        else if !existed || info.None? then a.alive == None && a.record == None && a.journal == m.journal
        else a.alive.Some? && Some(a.alive.value.image) == m.files.backup && a.alive.value.txn == None
             && a.journal == if m.journal.None? then None else Some(Journal(version, a.record, None)))
  }

  /** Settling an interrupted secret transaction: committed, or dropped with its
      launches. */
  ghost predicate Reconciled(b: State, m: State) {
    if b.pending.Some? && b.journal.Some? && b.journal.value.txn == Some(b.pending.value.txn)
    then m == b.(pending := None, bound := b.pending.value.candidate)
    else m == b.(pending := None, alive := if UnsettledLaunch(b) then None else b.alive)
  }

  class Host {
    var files: Files
    var temp: Option<Bytes>
    ghost var seen: set<Files>
    ghost var uses: seq<Use>           // successful Restore and Discard calls, in order

    var alive: Option<Process>
    var record: Option<nat>            // the process the manager records as running
    var nextId: nat

    var metadata: nat                  // versions.json
    var link: nat                      // the "current" symlink
    var artifacts: map<nat, Bytes>     // binaries kept per version

    var journal: Option<Journal>
    var bound: nat                     // committed secret bindings
    var pending: Option<Pending>

    constructor (files: Files, alive: Option<Process>, record: Option<nat>, metadata: nat, link: nat,
                 artifacts: map<nat, Bytes>, journal: Option<Journal>, bound: nat)
      requires alive.Some? ==> record == Some(alive.value.id)
      ensures Valid() && seen == {files} && uses == [] && temp == None && pending == None
      ensures this.files == files && this.alive == alive && this.record == record && this.metadata == metadata
      ensures this.link == link && this.artifacts == artifacts && this.journal == journal && this.bound == bound
    {
      this.files, this.alive, this.record, this.metadata, this.link := files, alive, record, metadata, link;
      this.artifacts, this.journal, this.bound := artifacts, journal, bound;
      temp, pending, seen, uses := None, None, {files}, [];
      nextId := if record.Some? then record.value + 1 else 0;
    }

    ghost predicate Valid()
      reads this
    {
      && files in seen
      && (alive.Some? ==> record == Some(alive.value.id))
      && (record.Some? ==> record.value < nextId)
    }

    function Now(): State
      reads this
    {
      State(files, alive, record, metadata, link, journal, bound, pending)
    }

    /** The binary kept for a version. */
    function Artifact(version: nat): Option<Bytes>
      reads this
    {
      if version in artifacts then Some(artifacts[version]) else None
    }

    /** One atomic change of the two files (a rename or a removal). */
    method Put(next: Files)
      modifies this`files, this`seen
      ensures files == next && seen == old(seen) + {next}
    {
      files := next;
      seen := seen + {next};
    }

    /** copyFileForRollback: stage beside the destination, sync, rename.  The
        target is never anything but its old or its complete new contents. */
    method Copy(source: Option<Bytes>, toBackup: bool, fault: CopyFault) returns (ok: bool)
      requires Valid()
      modifies this`files, this`seen, this`temp
      ensures Valid() && temp == None
      ensures ok <==> CopyDone(source, fault)
      ensures ok <==> source.Some? && (fault.NoFault? || (fault.WriteFails? && fault.after >= |source.value|))
      ensures files ==
        if !ok then old(files) else if toBackup then old(files).(backup := source) else old(files).(dest := source)
      ensures seen == old(seen) + {files}
    {
      temp := None;
      if source.None? || fault.OpenFails? || fault.DirFails? || fault.TempFails? {
        return false;
      }
      temp := Some([]);
      if fault.ChmodFails? {
        temp := None;
        return false;
      }
      var written := 0;
      while written < |source.value|
        invariant 0 <= written <= |source.value|
        invariant temp == Some(source.value[..written])
        invariant Valid() && files == old(files) && seen == old(seen)
        invariant fault.WriteFails? ==> written <= fault.after
      {
        if fault == WriteFails(written) {
          temp := None;
          return false;
        }
        written := written + 1;
        temp := Some(source.value[..written]);
      }
      assert source.value[..written] == source.value;
      if fault.SyncFails? || fault.CloseFails? || fault.RenameFails? {
        temp := None;
        return false;
      }
      Put(if toBackup then files.(backup := temp) else files.(dest := temp));
      temp := None;
      return true;
    }

    /** backupBinaryForRollback: the backup object is the flag "the binary
        existed"; no object when the stat or the copy failed. */
    method BackUp(statFails: bool, fault: CopyFault) returns (existed: Option<bool>)
      requires Valid()
      modifies this`files, this`seen, this`temp
      ensures Valid()
      ensures existed ==
        if old(files.dest).None? then (if statFails then None else Some(false))
        else if !statFails && CopyDone(old(files.dest), fault) then Some(true) else None
      ensures files == if existed == Some(true) then old(files).(backup := old(files.dest)) else old(files)
      ensures seen == old(seen) + {files}
    {
      if statFails {
        return None;
      }
      if files.dest.None? {
        return Some(false);
      }
      var ok := Copy(files.dest, true, fault);
      return if ok then Some(true) else None;
    }

    /** Restore: rename the backup over the binary, or remove the binary that
        was not there before. */
    method Restore(existed: bool, fails: bool) returns (ok: bool)
      requires Valid()
      modifies this`files, this`seen, this`uses
      ensures Valid() && seen == old(seen) + {files}
      ensures ok <==> !fails && (if existed then old(files.backup).Some? else old(files.dest).Some?)
      ensures files ==
        if !ok then old(files) else if existed then Files(old(files.backup), None) else old(files).(dest := None)
      ensures uses == if ok then old(uses) + [Restored] else old(uses)
    {
      if fails || (if existed then files.backup.None? else files.dest.None?) {
        return false;
      }
      Put(if existed then Files(files.backup, None) else files.(dest := None));
      uses := uses + [Restored];
      return true;
    }

    /** Discard: only a backup that was taken is removed. */
    method Discard(existed: bool, fails: bool) returns (ok: bool)
      requires Valid()
      modifies this`files, this`seen, this`uses
      ensures Valid() && seen == old(seen) + {files}
      ensures ok <==> !existed || (!fails && old(files.backup).Some?)
      ensures files == if ok && existed then old(files).(backup := None) else old(files)
      ensures uses == if ok then old(uses) + [Discarded] else old(uses)
    {
      if existed && (fails || files.backup.None?) {
        return false;
      }
      if existed {
        Put(files.(backup := None));
      }
      uses := uses + [Discarded];
      return true;
    }

    /** AppManager.StopApplication on a recorded process. */
    method Stop(fault: StopFault) returns (ok: bool)
      requires Valid()
      modifies this`alive, this`record
      ensures Valid()
      ensures ok <==> fault.Stops?
      ensures if fault.StaysAlive? then alive == old(alive) && record == old(record) else alive == None && record == None
    {
      if !fault.StaysAlive? {
        alive, record := None, None;
      }
      return fault.Stops?;
    }

    /** stopExistingApp: an application not recorded as running is left alone. */
    method StopExisting(info: Option<nat>, fault: StopFault) returns (ok: bool)
      requires Valid()
      modifies this`alive, this`record
      ensures Valid()
      ensures ok <==> info.None? || fault.Stops?
      ensures if info.None? || fault.StaysAlive? then alive == old(alive) && record == old(record)
              else alive == None && record == None
    {
      if info.None? {
        return true;
      }
      ok := Stop(fault);
    }

    /** AppManager.StartApplication: refuses when one is recorded as running,
        needs a binary, and gives the process a fresh identity. */
    method Start(txn: Option<nat>, fault: StartFault) returns (ok: bool)
      requires Valid()
      modifies this`alive, this`record, this`nextId
      ensures Valid() && nextId >= old(nextId)
      ensures ok <==> old(record).None? && files.dest.Some? && fault.Starts?
      ensures if old(record).Some? then alive == old(alive) && record == old(record)
              else if files.dest.None? || fault.ExitsAtOnce? then alive == None && record == None
              else alive == Some(Process(old(nextId), files.dest.value, txn)) && record == Some(old(nextId))
    {
      if record.Some? {
        return false;
      }
      if files.dest.None? || fault.ExitsAtOnce? {
        return false;
      }
      alive, record := Some(Process(nextId, files.dest.value, txn)), Some(nextId);
      nextId := nextId + 1;
      return fault.Starts?;
    }

    /** deploy.Store: rename, then a directory sync that may still fail. */
    method Store(state: Journal, fault: StoreFault) returns (ok: bool)
      modifies this`journal
      ensures ok <==> fault.Stores?
      ensures journal == if fault.StoreFails? then old(journal) else Some(state)
    {
      if !fault.StoreFails? {
        journal := Some(state);
      }
      return fault.Stores?;
    }

    /** refreshClassicSecretJournal: only an existing journal is rewritten. */
    method RefreshJournal(version: nat, loadFails: bool, lookupFails: bool, fault: StoreFault) returns (ok: bool)
      modifies this`journal
      ensures ok <==> !loadFails && (old(journal).None? || (!lookupFails && fault.Stores?))
      ensures journal ==
        if loadFails || old(journal).None? || lookupFails || fault.StoreFails? then old(journal)
        else Some(Journal(version, record, None))
    {
      if loadFails {
        return false;
      }
      if journal.None? {
        return true;
      }
      if lookupFails {
        return false;
      }
      ok := Store(Journal(version, record, None), fault);
    }

    /** PromoteVersion: metadata first, then the symlink, undoing the metadata
        when the symlink fails. */
    method Promote(version: nat, fault: PromoteFault) returns (ok: bool)
      modifies this`metadata, this`link
      ensures ok <==> version == 0 || (version in artifacts && fault.Promotes?)
      ensures if version == 0 || version !in artifacts || fault.PromoteFails? then metadata == old(metadata) && link == old(link)
              else metadata == version && link == if ok then version else old(link)
    {
      if version == 0 {
        return true;
      }
      if version !in artifacts {
        return false;
      }
      var before := metadata;
      if fault.PromoteFails? {
        return false;
      }
      metadata := version;
      if fault.PromoteHalf? {
        return false;
      }
      link := version;
      return true;
    }

    /** ReconcileSecretTxn: the journal's stamp alone decides.  Without the
        stamp the transaction's launches are killed and the candidate dropped. */
    method Reconcile(fault: ReconcileFault) returns (ok: bool)
      requires Valid()
      modifies this`alive, this`bound, this`pending
      ensures Valid()
      ensures ok <==> fault.Settles?
      ensures !fault.FailsUnsettled? ==> Reconciled(old(Now()), Now())
      ensures fault.FailsUnsettled? ==> alive == old(alive) && bound == old(bound) && pending == old(pending)
      ensures !fault.FailsUnsettled? ==> pending == None
      ensures !fault.FailsUnsettled? ==>
        if old(pending).Some? && journal.Some? && journal.value.txn == Some(old(pending).value.txn)
        then bound == old(pending).value.candidate && alive == old(alive)
        else bound == old(bound) &&
             alive == if old(pending).Some? && old(alive).Some? && old(alive).value.txn == Some(old(pending).value.txn)
                      then None else old(alive)
    {
      if fault.FailsUnsettled? {
        return false;
      }
      if pending.Some? {
        if journal.Some? && journal.value.txn == Some(pending.value.txn) {
          bound := pending.value.candidate;
        } else if alive.Some? && alive.value.txn == Some(pending.value.txn) {
          alive := None;
        }
        pending := None;
      }
      return fault.Settles?;
    }

    /** compensateClassicRollback: stop what replaced the application, put the
        binary back, and start it again if it was running from one. */
    method Compensate(info: Option<nat>, existed: bool, version: nat, undo: UndoFault)
      requires Valid()
      requires existed ==> files.backup.Some?
      modifies this`files, this`seen, this`uses, this`alive, this`record, this`nextId, this`journal
      ensures Valid()
      ensures seen <= old(seen) + {files}
      ensures files == old(files) || files == (if existed then Files(old(files.backup), None) else old(files).(dest := None))
      ensures undo == CleanUndo ==>
        && Undone(old(Now()), Now(), existed, info, version)
        && uses == if existed || old(files.dest).Some? then old(uses) + [Restored] else old(uses)
      ensures undo.lookupFails ==> Now() == old(Now())
      ensures undo.restoreFails ==> files == old(files) && journal == old(journal)
      ensures journal == old(journal) || (journal.Some? && journal.value.txn == None)
      ensures files == old(files) || uses == old(uses) + [Restored]
      ensures uses == old(uses) || uses == old(uses) + [Restored]
    {
      if undo.lookupFails {
        return;
      }
      var stillServing := info.Some? && record == info;
      if !stillServing && record.Some? {
        var stopped := Stop(undo.stop);
        if !stopped {
          return;
        }
      }
      var restored := Restore(existed, undo.restoreFails);
      if !restored {
        return;
      }
      if stillServing || !existed || info.None? {
        return;
      }
      var restarted := Start(None, undo.restart);
      if !restarted {
        return;
      }
      var _ := RefreshJournal(version, undo.loadFails, undo.relookupFails, undo.store);
    }
  }
}

/**
 What one deployment job does, read off the outcomes of its external steps alone: which jobs are
 refused, which reach the install phase, how each ends, and where a crash finds it.
 */
module DeployLaws {
  import opened Wrappers
  import opened DeployRunner

  /** The key, the signature and the expiry check out and the nonce is new. */
  predicate Qualifies(h: Host, job: Job, f: Faults) {
    f.keyOk && f.signatureOk && f.unexpired && job.nonce != "" && job.nonce !in h.seen
  }

  /** The job may be unpacked: it qualifies, its nonce was stored and its package is the one it pins. */
  predicate Reaches(h: Host, job: Job, f: Faults) {
    Qualifies(h, job, f) && f.ledgerOk && f.announceOk && f.downloadOk && f.digestOk && f.rootOk
  }

  /** A job that does not qualify is reported as failed, and nothing else happens. */
  lemma UnqualifiedIsRefused(h: Host, job: Job, f: Faults)
    requires !f.keyOk || !f.signatureOk || !f.unexpired || job.nonce == "" || job.nonce in h.seen
    ensures Deploy(h, job, f) == Ended(h.(report := Some(Failed)))
  {
  }

  /** A qualified one is remembered and, if that can be stored, written to the ledger, before anything is fetched. */
  lemma QualifiedIsRemembered(h: Host, job: Job, f: Faults)
    requires Qualifies(h, job, f)
    ensures Deploy(h, job, f).host.seen == h.seen + {job.nonce}
    ensures Deploy(h, job, f).host.ledger == if f.ledgerOk && f.crash != AfterVerify then h.ledger + [job.nonce] else h.ledger
  {
    if Reaches(h, job, f) { InstallKeepsNonces(Entered(h, job), job, f); }
  }

  /** The install phase is entered exactly by a job that passed every check, unless a crash came first. */
  lemma InstallsIff(h: Host, job: Job, f: Faults)
    ensures Deploy(h, job, f).host.installs
            == if Reaches(h, job, f) && f.crash !in {AfterVerify, AfterLedger, AfterFetch} then h.installs + [job.nonce] else h.installs
  {
    if Reaches(h, job, f) && f.crash !in {AfterVerify, AfterLedger, AfterFetch} { InstallKeepsNonces(Entered(h, job), job, f); }
  }

  /** So an install phase means that every one of the checks held. */
  lemma InstallsOnlyChecked(h: Host, job: Job, f: Faults)
    requires Deploy(h, job, f).host.installs != h.installs
    ensures f.keyOk && f.signatureOk && f.unexpired && job.nonce != "" && job.nonce !in h.seen
    ensures f.ledgerOk && f.announceOk && f.downloadOk && f.digestOk && f.rootOk
  {
    InstallsIff(h, job, f);
  }

  // ---------------------------------------------------------------- how a job ends

  /** Every step of the install phase goes well. */
  predicate AllGoes(f: Faults) {
    f.dump.Dumped? && f.tempOk && f.extract.Extracted? && f.command.DbChanged? && f.restartOk
  }

  /** Something fails once there is a dump file, good or bad. */
  predicate MustRecover(f: Faults) {
    if f.dump.Dumped? then !AllGoes(f) else f.dump.left.Some?
  }

  /** The dump file there is when a job recovers. */
  function DumpFile(h: Host, f: Faults): Option<Database> {
    if f.dump.Dumped? then Some(h.db) else f.dump.left
  }

  /** The backup there is when a job recovers or succeeds. */
  function BackupThen(h: Host, f: Faults): Option<Content> {
    if f.dump.Dumped? && h.addon.Some? then h.addon else h.backup
  }

  /** Recovering brings the backup and the dump back, as far as it gets. */
  function RecoveredHost(h: Host, job: Job, f: Faults): Host
    requires MustRecover(f)
  {
    Entered(h, job).(
      addon := BackupThen(h, f), backup := None, dump := DumpFile(h, f),
      db := if f.restore.RestoreFailed? then f.restore.half else DumpFile(h, f).value,
      report := Some(if f.restore.Restored? && f.restartAgainOk then RolledBack else Failed))
  }

  /** A job whose package never arrives leaves files and database alone. */
  lemma UnfetchedEnds(h: Host, job: Job, f: Faults)
    requires f.crash == Never && Qualifies(h, job, f) && !Reaches(h, job, f)
    ensures Deploy(h, job, f)
            == Ended(h.(seen := h.seen + {job.nonce}, ledger := if f.ledgerOk then h.ledger + [job.nonce] else h.ledger,
                        report := Some(Failed)))
  {
  }

  lemma ActivateGoes(h: Host, job: Job, f: Faults)
    requires h.dump.Some? && f.crash == Never && f.tempOk && f.extract.Extracted? && f.command.DbChanged? && f.restartOk
    ensures Unpack(h, job, f) == Ended(h.(addon := Some(job.package), db := f.command.now, report := Some(Succeeded)))
  {
  }

  /** A job in which everything goes well has its package and its command's database in place, and the old ones kept. */
  lemma GoodJobEnds(h: Host, job: Job, f: Faults)
    requires f.crash == Never && Reaches(h, job, f) && AllGoes(f)
    ensures Deploy(h, job, f)
            == Ended(Entered(h, job).(addon := Some(job.package), backup := BackupThen(h, f), dump := Some(h.db),
                                         db := f.command.now, report := Some(Succeeded)))
  {
    DeployInstalls(h, job, f);
    var d := Entered(h, job).(dump := Some(h.db));
    ActivateGoes(MoveAside(d), job, f);
  }

  /** A dump that fails and leaves nothing ends the job before anything is moved. */
  lemma UndumpedEnds(h: Host, job: Job, f: Faults)
    requires f.crash == Never && Reaches(h, job, f) && f.dump == DumpFailed(None)
    ensures Deploy(h, job, f) == Ended(Entered(h, job).(dump := None, report := Some(Failed)))
  {
    DeployInstalls(h, job, f);
  }

  lemma RecoverEnds(h: Host, f: Faults)
    requires h.dump.Some? && f.crash == Never
    ensures Recover(h, f)
            == Ended(h.(addon := h.backup, backup := None,
                        db := if f.restore.RestoreFailed? then f.restore.half else h.dump.value,
                        report := Some(if f.restore.Restored? && f.restartAgainOk then RolledBack else Failed)))
  {
  }

  lemma UnpackRecovers(h: Host, job: Job, f: Faults)
    requires h.dump.Some? && f.crash == Never
    requires !(f.tempOk && f.extract.Extracted? && f.command.DbChanged? && f.restartOk)
    ensures Unpack(h, job, f)
            == Ended(h.(addon := h.backup, backup := None,
                        db := if f.restore.RestoreFailed? then f.restore.half else h.dump.value,
                        report := Some(if f.restore.Restored? && f.restartAgainOk then RolledBack else Failed)))
  {
    if !f.tempOk {
      RecoverEnds(h, f);
    } else if f.extract.ExtractFailed? {
      RecoverEnds(h.(addon := f.extract.partial), f);
    } else if f.command.DbFailed? {
      RecoverEnds(h.(addon := Some(job.package), db := f.command.after), f);
    } else {
      RecoverEnds(h.(addon := Some(job.package), db := f.command.now), f);
    }
  }

  /** Every other failure brings back the backup and whatever the dump file holds. */
  lemma FailedJobEnds(h: Host, job: Job, f: Faults)
    requires f.crash == Never && Reaches(h, job, f) && MustRecover(f)
    ensures Deploy(h, job, f) == Ended(RecoveredHost(h, job, f))
  {
    DeployInstalls(h, job, f);
    if f.dump.DumpFailed? {
      RecoverEnds(Entered(h, job).(dump := f.dump.left), f);
    } else {
      UnpackRecovers(MoveAside(Entered(h, job).(dump := Some(h.db))), job, f);
    }
  }

  /** The report of a job, exactly. */
  lemma ReportTells(h: Host, job: Job, f: Faults)
    requires f.crash == Never
    ensures Deploy(h, job, f).host.report
            == Some(if Reaches(h, job, f) && AllGoes(f) then Succeeded
                    else if Reaches(h, job, f) && MustRecover(f) && f.restore.Restored? && f.restartAgainOk then RolledBack
                    else Failed)
  {
    if !Qualifies(h, job, f) {
      UnqualifiedIsRefused(h, job, f);
    } else if !Reaches(h, job, f) {
      UnfetchedEnds(h, job, f);
    } else if AllGoes(f) {
      GoodJobEnds(h, job, f);
    } else if MustRecover(f) {
      FailedJobEnds(h, job, f);
    } else {
      UndumpedEnds(h, job, f);
    }
  }

  // ---------------------------------------------------------------- where a crash strikes

  /** The job gets as far as the step after which the crash strikes. */
  predicate Strikes(h: Host, job: Job, f: Faults) {
    match f.crash
    case Never => false
    case AfterVerify => Qualifies(h, job, f)
    case AfterLedger => Qualifies(h, job, f) && f.ledgerOk
    case AfterFetch => Reaches(h, job, f)
    case AfterDump => Reaches(h, job, f) && f.dump.Dumped?
    case AfterMove => Reaches(h, job, f) && f.dump.Dumped?
    case AfterExtract => Reaches(h, job, f) && f.dump.Dumped? && f.tempOk && f.extract.Extracted?
    case AfterCommand => Reaches(h, job, f) && f.dump.Dumped? && f.tempOk && f.extract.Extracted? && f.command.DbChanged?
    case AfterUndo => Reaches(h, job, f) && MustRecover(f)
    case AfterRestore => Reaches(h, job, f) && MustRecover(f) && f.restore.Restored?
  }

  lemma RecoverCrashes(h: Host, f: Faults)
    requires h.dump.Some?
    ensures Recover(h, f).Crashed? <==> f.crash == AfterUndo || (f.crash == AfterRestore && f.restore.Restored?)
  {
  }

  lemma UnpackCrashes(h: Host, job: Job, f: Faults)
    requires h.dump.Some?
    ensures Unpack(h, job, f).Crashed? <==>
            || (f.crash == AfterExtract && f.tempOk && f.extract.Extracted?)
            || (f.crash == AfterCommand && f.tempOk && f.extract.Extracted? && f.command.DbChanged?)
            || (!(f.tempOk && f.extract.Extracted? && f.command.DbChanged? && f.restartOk)
                && (f.crash == AfterUndo || (f.crash == AfterRestore && f.restore.Restored?)))
  {
    RecoverCrashes(h, f);
    if f.extract.ExtractFailed? { RecoverCrashes(h.(addon := f.extract.partial), f); }
    var x := h.(addon := Some(job.package));
    RecoverCrashes(x.(db := if f.command.DbFailed? then f.command.after else f.command.now), f);
  }

  /** A job crashes exactly when it gets as far as the step after which the crash strikes. */
  lemma CrashesIff(h: Host, job: Job, f: Faults)
    ensures Deploy(h, job, f).Crashed? <==> Strikes(h, job, f)
  {
    if Reaches(h, job, f) && f.crash !in {AfterVerify, AfterLedger, AfterFetch} {
      DeployInstalls(h, job, f);
      InstallCrashes(Entered(h, job), job, f);
      UnpackCrashes(MoveAside(Entered(h, job).(dump := Some(h.db))), job, f);
    }
  }

  lemma InstallCrashes(h: Host, job: Job, f: Faults)
    requires f.crash !in {AfterVerify, AfterLedger, AfterFetch}
    ensures Install(h, job, f).Crashed? <==>
            if f.dump.Dumped?
            then f.crash == AfterDump || f.crash == AfterMove || Unpack(MoveAside(h.(dump := Some(h.db))), job, f).Crashed?
            else f.dump.left.Some? && (f.crash == AfterUndo || (f.crash == AfterRestore && f.restore.Restored?))
  {
    if f.dump.DumpFailed? && f.dump.left.Some? { RecoverCrashes(h.(dump := f.dump.left), f); }
  }
}

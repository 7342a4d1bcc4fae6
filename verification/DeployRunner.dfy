/**
 The deployment runner as a transaction under faults.

 `Deploy` is what one job does to the host for every schedule of outcomes of the external steps,
 including a crash between any two of them.  The theorems say exactly when the addon and the
 database come back, and that no nonce installs twice across crashes and restarts.
 */
module DeployRunner {
  import opened Wrappers
  import Paths
  import Extraction

  /** A module directory: its files and directories by their paths relative to it. */
  type Content = map<Paths.Path, Extraction.Entry>
  type Database = string
  type Nonce = string

  datatype Report = Succeeded | Failed | RolledBack

  /** The runner's host, seen from one job: its module directory and its two backup files. */
  datatype Host = Host(
    addon: Option<Content>,
    backup: Option<Content>,
    dump: Option<Database>,
    db: Database,
    seen: set<Nonce>,
    ledger: seq<Nonce>,
    report: Option<Report>,
    installs: seq<Nonce>)   // history: which nonces entered the backup-and-install phase

  datatype Job = Job(nonce: Nonce, package: Content)

  datatype DumpOutcome = Dumped | DumpFailed(left: Option<Database>)
  datatype ExtractOutcome = Extracted | ExtractFailed(partial: Option<Content>)
  datatype DbOutcome = DbChanged(now: Database) | DbFailed(after: Database)
  datatype RestoreOutcome = Restored | RestoreFailed(half: Database)

  /** A crash strikes after the named step. */
  datatype Crash = Never | AfterVerify | AfterLedger | AfterFetch | AfterDump | AfterMove | AfterExtract | AfterCommand | AfterUndo | AfterRestore

  /** One outcome for every external step, whether or not it is reached. */
  datatype Faults = Faults(
    keyOk: bool, signatureOk: bool, unexpired: bool, ledgerOk: bool, announceOk: bool,
    downloadOk: bool, digestOk: bool, rootOk: bool,
    dump: DumpOutcome, tempOk: bool, extract: ExtractOutcome, command: DbOutcome, restartOk: bool,
    restore: RestoreOutcome, restartAgainOk: bool, crash: Crash)

  datatype Result = Ended(host: Host) | Crashed(host: Host)

  // ---------------------------------------------------------------- the transaction

  function Finish(h: Host, report: Report): Result {
    Ended(h.(report := Some(report)))
  }

  predicate Accepted(h: Host, job: Job, f: Faults) {
    f.keyOk && job.nonce != "" && job.nonce !in h.seen && f.signatureOk && f.unexpired
  }

  predicate Fetched(f: Faults) {
    f.announceOk && f.downloadOk && f.digestOk && f.rootOk
  }

  /** Put the backed-up addon back, or remove what the job left. */
  function UndoFiles(h: Host): Host {
    h.(addon := h.backup, backup := None)
  }

  function Recover(h: Host, f: Faults): Result
    requires h.dump.Some?
  {
    var u := UndoFiles(h);
    if f.crash == AfterUndo then Crashed(u)
    else if f.restore.RestoreFailed? then Finish(u.(db := f.restore.half), Failed)
    else
      var r := u.(db := h.dump.value);
      if f.crash == AfterRestore then Crashed(r)
      else Finish(r, if f.restartAgainOk then RolledBack else Failed)
  }

  /** The outer handler: it recovers only when a dump file exists. */
  function Abort(h: Host, f: Faults): Result {
    if h.dump.Some? then Recover(h, f) else Finish(h, Failed)
  }

  function MoveAside(h: Host): Host {
    if h.addon.Some? then h.(backup := h.addon, addon := None) else h
  }

  /** The module command and the restart, on the package that was unpacked. */
  function Activate(h: Host, f: Faults): Result
    requires h.dump.Some?
  {
    if f.command.DbFailed? then Recover(h.(db := f.command.after), f) else
    var c := h.(db := f.command.now);
    if f.crash == AfterCommand then Crashed(c) else
    if !f.restartOk then Recover(c, f) else
    Finish(c, Succeeded)
  }

  /** From the addon moved aside to the package in its place. */
  function Unpack(h: Host, job: Job, f: Faults): Result
    requires h.dump.Some?
  {
    if !f.tempOk then Abort(h, f) else
    if f.extract.ExtractFailed? then Abort(h.(addon := f.extract.partial), f) else
    var x := h.(addon := Some(job.package));
    if f.crash == AfterExtract then Crashed(x) else Activate(x, f)
  }

  function Install(h: Host, job: Job, f: Faults): Result {
    if f.dump.DumpFailed? then Abort(h.(dump := f.dump.left), f)
    else
      var d := h.(dump := Some(h.db));
      if f.crash == AfterDump then Crashed(d) else
      var m := MoveAside(d);
      if f.crash == AfterMove then Crashed(m) else Unpack(m, job, f)
  }

  function Deploy(h: Host, job: Job, f: Faults): Result {
    if !Accepted(h, job, f) then Finish(h, Failed) else
    var v := h.(seen := h.seen + {job.nonce});
    if f.crash == AfterVerify then Crashed(v) else
    if !f.ledgerOk then Finish(v, Failed) else
    var l := v.(ledger := v.ledger + [job.nonce]);
    if f.crash == AfterLedger then Crashed(l) else
    if !Fetched(f) then Finish(l, Failed) else
    if f.crash == AfterFetch then Crashed(l) else
    Install(l.(installs := l.installs + [job.nonce]), job, f)
  }

  predicate Installs(h: Host, job: Job, f: Faults) {
    Accepted(h, job, f) && f.ledgerOk && Fetched(f)
  }

  // ---------------------------------------------------------------- compensation

  /** What undoing comes to: the backup is the addon again, and the dump is still there. */
  ghost predicate Undone(h: Host, f: Faults, r: Result) {
    && r.host.addon == h.backup && r.host.dump == h.dump && (f.crash == Never ==> r.Ended?)
    && (r.Ended? ==> r.host.report in {Some(Failed), Some(RolledBack)})
    && (r.Ended? && r.host.report == Some(RolledBack) ==> Some(r.host.db) == h.dump)
  }

  lemma RecoverUndoes(h: Host, f: Faults)
    requires h.dump.Some?
    ensures Undone(h, f, Recover(h, f))
  {
  }

  /** What unpacking and all that follows come to, on a host whose addon was moved aside. */
  ghost predicate Tried(h: Host, job: Job, f: Faults, r: Result) {
    && r.host.dump == h.dump && (f.crash == Never ==> r.Ended?)
    && (r.Crashed? ==> r.host.backup == h.backup || r.host.addon == h.backup)
    && (r.Ended? ==>
          if r.host.report == Some(Succeeded)
          then r.host.addon == Some(job.package) && r.host.backup == h.backup && f.command == DbChanged(r.host.db)
          else Undone(h, f, r))
  }

  lemma ActivateTries(h: Host, job: Job, f: Faults)
    requires h.dump.Some? && h.addon == Some(job.package)
    ensures Tried(h, job, f, Activate(h, f))
  {
    if f.command.DbFailed? {
      RecoverUndoes(h.(db := f.command.after), f);
    } else {
      RecoverUndoes(h.(db := f.command.now), f);
    }
  }

  lemma UnpackTries(h: Host, job: Job, f: Faults)
    requires h.dump.Some?
    ensures Tried(h, job, f, Unpack(h, job, f))
  {
    if !f.tempOk {
      RecoverUndoes(h, f);
    } else if f.extract.ExtractFailed? {
      RecoverUndoes(h.(addon := f.extract.partial), f);
    } else {
      ActivateTries(h.(addon := Some(job.package)), job, f);
    }
  }

  /** The install phase: aborted over whatever the dump left, crashed early, or tried. */
  lemma InstallTries(h: Host, job: Job, f: Faults)
    ensures var r := Install(h, job, f);
            if f.dump.DumpFailed? then
              if f.dump.left.None? then r == Finish(h.(dump := None), Failed)
              else Undone(h.(dump := f.dump.left), f, r)
            else if f.crash == AfterDump then r == Crashed(h.(dump := Some(h.db)))
            else if f.crash == AfterMove then r == Crashed(MoveAside(h.(dump := Some(h.db))))
            else Tried(MoveAside(h.(dump := Some(h.db))), job, f, r)
  {
    if f.dump.DumpFailed? {
      if f.dump.left.Some? { RecoverUndoes(h.(dump := f.dump.left), f); }
    } else {
      UnpackTries(MoveAside(h.(dump := Some(h.db))), job, f);
    }
  }

  /** A job that never gets to the install phase leaves the files and the database alone. */
  lemma NotInstalled(h: Host, job: Job, f: Faults)
    requires !Installs(h, job, f) || f.crash in {AfterVerify, AfterLedger, AfterFetch}
    ensures var r := Deploy(h, job, f);
            && r.host.addon == h.addon && r.host.backup == h.backup && r.host.dump == h.dump && r.host.db == h.db
            && (f.crash == Never ==> r.Ended?) && (r.Ended? ==> r.host.report == Some(Failed))
  {
  }

  function Entered(h: Host, job: Job): Host {
    h.(seen := h.seen + {job.nonce}, ledger := h.ledger + [job.nonce], installs := h.installs + [job.nonce])
  }

  lemma DeployInstalls(h: Host, job: Job, f: Faults)
    requires Installs(h, job, f) && f.crash !in {AfterVerify, AfterLedger, AfterFetch}
    ensures Deploy(h, job, f) == Install(Entered(h, job), job, f)
  {
  }

  /** Either the job stays outside the install phase, or it is that phase. */
  lemma DeployTries(h: Host, job: Job, f: Faults)
    ensures if Installs(h, job, f) && f.crash !in {AfterVerify, AfterLedger, AfterFetch}
            then Deploy(h, job, f) == Install(Entered(h, job), job, f)
            else var r := Deploy(h, job, f);
              && r.host.addon == h.addon && r.host.backup == h.backup && r.host.dump == h.dump && r.host.db == h.db
              && (f.crash == Never ==> r.Ended?) && (r.Ended? ==> r.host.report == Some(Failed))
  {
    if Installs(h, job, f) && f.crash !in {AfterVerify, AfterLedger, AfterFetch} {
      DeployInstalls(h, job, f);
    } else {
      NotInstalled(h, job, f);
    }
  }

  /** Success means the new package is in place and the prior addon is kept in backup. */
  lemma SuccessKeepsBackup(h: Host, job: Job, f: Faults)
    requires Deploy(h, job, f).Ended? && Deploy(h, job, f).host.report == Some(Succeeded)
    ensures var g := Deploy(h, job, f).host;
            && g.addon == Some(job.package) && f.command == DbChanged(g.db)
            && (h.addon.Some? ==> g.backup == h.addon) && g.dump == Some(h.db)
  {
    DeployTries(h, job, f);
    InstallTries(Entered(h, job), job, f);
  }

  /**
   When the prior addon survives an unsuccessful job: before the install phase always; when the
   dump failed, if it left no file or a previous backup under the same job id equals the addon;
   later on, if there was an addon to move aside or no previous backup to mistake for it.
   */
  predicate AddonRecoverable(h: Host, job: Job, f: Faults) {
    if !Installs(h, job, f) then true
    else if f.dump.DumpFailed? then f.dump.left.None? || h.backup == h.addon
    else h.addon.Some? || h.backup.None?
  }

  /** The exact compensation law, for every host, job and fault schedule without a crash. */
  lemma Compensation(h: Host, job: Job, f: Faults)
    requires f.crash == Never && Deploy(h, job, f).host.report != Some(Succeeded)
    ensures Deploy(h, job, f).Ended? && Deploy(h, job, f).host.report in {Some(Failed), Some(RolledBack)}
    ensures Deploy(h, job, f).host.addon == h.addon <==> AddonRecoverable(h, job, f)
  {
    DeployTries(h, job, f);
    InstallTries(Entered(h, job), job, f);
  }

  /** A job reported as rolled back restored the prior database, unless it restored a bad dump. */
  lemma RolledBackDatabase(h: Host, job: Job, f: Faults)
    requires Deploy(h, job, f).Ended? && Deploy(h, job, f).host.report == Some(RolledBack)
    ensures Deploy(h, job, f).host.db == h.db <==> (f.dump.DumpFailed? ==> f.dump.left == Some(h.db))
  {
    DeployTries(h, job, f);
    InstallTries(Entered(h, job), job, f);
  }

  ghost predicate FreshJob(h: Host) {
    h.backup.None? && h.dump.None?
  }

  /**
   With a fresh job id the addon is lost in exactly one situation: the dump command failed but
   left a file behind while an addon was installed.
   */
  lemma FreshCompensation(h: Host, job: Job, f: Faults)
    requires FreshJob(h) && f.crash == Never && Deploy(h, job, f).host.report != Some(Succeeded)
    ensures Deploy(h, job, f).host.addon == h.addon
            <==> !(Installs(h, job, f) && f.dump.DumpFailed? && f.dump.left.Some? && h.addon.Some?)
  {
    Compensation(h, job, f);
  }

  function AllGood(now: Database): Faults {
    Faults(true, true, true, true, true, true, true, true, Dumped, true, Extracted, DbChanged(now), true, Restored, true, Never)
  }

  /** That situation occurs: a dump that times out half-way costs the installed addon. */
  lemma LeftoverDumpLosesAddon(addon: Content, package: Content, db: Database, half: Database, nonce: Nonce)
    requires nonce != ""
    ensures var h := Host(Some(addon), None, None, db, {}, [], None, []);
            var f := AllGood(db).(dump := DumpFailed(Some(half)));
            var g := Deploy(h, Job(nonce, package), f).host;
            FreshJob(h) && g.addon.None? && g.report == Some(RolledBack) && g.db == half
  {
  }

  /** A second job under the same id recovers the wrong addon when nothing was installed meanwhile. */
  lemma StaleBackupReturns(stale: Content, package: Content, db: Database, nonce: Nonce)
    requires nonce != ""
    ensures var h := Host(None, Some(stale), None, db, {}, [], None, []);
            var g := Deploy(h, Job(nonce, package), AllGood(db).(restartOk := false)).host;
            g.report == Some(RolledBack) && g.addon == Some(stale)
  {
  }

  /**
   Nothing is lost in a crash: under a fresh job id, when a failed dump left no file, the job ends
   or crashes with the prior addon in place or in backup, and with the prior database in place or
   in the dump.
   */
  lemma NothingIsLost(h: Host, job: Job, f: Faults)
    requires FreshJob(h) && (f.dump.DumpFailed? ==> f.dump.left.None?)
    ensures var g := Deploy(h, job, f).host;
            && (h.addon.Some? ==> g.addon == h.addon || g.backup == h.addon)
            && (g.db == h.db || g.dump == Some(h.db))
  {
    DeployTries(h, job, f);
    InstallTries(Entered(h, job), job, f);
  }

  // ---------------------------------------------------------------- a series of jobs

  datatype Delivery = Delivery(job: Job, faults: Faults)

  /** The host after jobs for one module, each under an id of its own. */
  function Deliver(h: Host, deliveries: seq<Delivery>): Host {
    if deliveries == [] then h
    else
      var last := deliveries[|deliveries| - 1];
      Deploy(Deliver(h, deliveries[..|deliveries| - 1]).(backup := None, dump := None), last.job, last.faults).host
  }

  /** The package of the last job reported as succeeded, or what was there before them all. */
  function Standing(h: Host, deliveries: seq<Delivery>): Option<Content> {
    if deliveries == [] then h.addon
    else if Deliver(h, deliveries).report == Some(Succeeded) then Some(deliveries[|deliveries| - 1].job.package)
    else Standing(h, deliveries[..|deliveries| - 1])
  }

  /** However many jobs fail and at whichever step, the last success stays installed. */
  lemma {:induction false} LastSuccessStands(h: Host, deliveries: seq<Delivery>)
    requires forall d <- deliveries :: d.faults.crash == Never && (d.faults.dump.DumpFailed? ==> d.faults.dump.left.None?)
    ensures Deliver(h, deliveries).addon == Standing(h, deliveries)
  {
    if deliveries != [] {
      var front, last := deliveries[..|deliveries| - 1], deliveries[|deliveries| - 1];
      assert last in deliveries;
      LastSuccessStands(h, front);
      OneDelivery(Deliver(h, front).(backup := None, dump := None), last.job, last.faults);
    }
  }

  lemma OneDelivery(h: Host, job: Job, f: Faults)
    requires FreshJob(h) && f.crash == Never && (f.dump.DumpFailed? ==> f.dump.left.None?)
    ensures var g := Deploy(h, job, f).host;
            g.addon == if g.report == Some(Succeeded) then Some(job.package) else h.addon
  {
    if Deploy(h, job, f).host.report == Some(Succeeded) {
      SuccessKeepsBackup(h, job, f);
    } else {
      FreshCompensation(h, job, f);
    }
  }

  // ---------------------------------------------------------------- crashes and restarts

  /** The runner's life: jobs with their faults, and restarts that reload the ledger. */
  datatype Event = RunJob(job: Job, faults: Faults, files: (Option<Content>, Option<Content>, Option<Database>)) | Restart

  datatype Runner = Up(host: Host) | Down(host: Host)

  function Apply(r: Runner, e: Event): Runner {
    match e
    case Restart => Up(r.host.(seen := set n | n in r.host.ledger))
    case RunJob(job, f, files) =>
      if r.Down? then r
      else
        // Another job sees its own directory and backup files.
        var h := r.host.(addon := files.0, backup := files.1, dump := files.2);
        match Deploy(h, job, f)
        case Ended(g) => Up(g)
        case Crashed(g) => Down(g)
  }

  function Live(r: Runner, events: seq<Event>): Runner {
    if events == [] then r else Apply(Live(r, events[..|events| - 1]), events[|events| - 1])
  }

  ghost predicate NoRepeats(s: seq<Nonce>) {
    forall i, j :: 0 <= i < j < |s| ==> s[i] != s[j]
  }

  /** Whatever was installed is in the ledger, and a running runner remembers its ledger. */
  ghost predicate Remembers(r: Runner) {
    && (forall n :: n in r.host.installs ==> n in r.host.ledger)
    && (r.Up? ==> forall n :: n in r.host.ledger ==> n in r.host.seen)
    && NoRepeats(r.host.installs)
  }

  ghost predicate SameNonces(g: Host, h: Host) {
    g.seen == h.seen && g.ledger == h.ledger && g.installs == h.installs
  }

  lemma RecoverKeepsNonces(h: Host, f: Faults)
    requires h.dump.Some?
    ensures SameNonces(Recover(h, f).host, h)
  {
  }

  lemma AbortKeepsNonces(h: Host, f: Faults)
    ensures SameNonces(Abort(h, f).host, h)
  {
    if h.dump.Some? { RecoverKeepsNonces(h, f); }
  }

  lemma ActivateKeepsNonces(h: Host, f: Faults)
    requires h.dump.Some?
    ensures SameNonces(Activate(h, f).host, h)
  {
    if f.command.DbFailed? {
      RecoverKeepsNonces(h.(db := f.command.after), f);
    } else {
      RecoverKeepsNonces(h.(db := f.command.now), f);
    }
  }

  lemma UnpackKeepsNonces(h: Host, job: Job, f: Faults)
    requires h.dump.Some?
    ensures SameNonces(Unpack(h, job, f).host, h)
  {
    if !f.tempOk {
      AbortKeepsNonces(h, f);
    } else if f.extract.ExtractFailed? {
      AbortKeepsNonces(h.(addon := f.extract.partial), f);
    } else {
      ActivateKeepsNonces(h.(addon := Some(job.package)), f);
    }
  }

  lemma InstallKeepsNonces(h: Host, job: Job, f: Faults)
    ensures SameNonces(Install(h, job, f).host, h)
  {
    if f.dump.DumpFailed? {
      AbortKeepsNonces(h.(dump := f.dump.left), f);
    } else {
      UnpackKeepsNonces(MoveAside(h.(dump := Some(h.db))), job, f);
    }
  }

  lemma DeployNonces(h: Host, job: Job, f: Faults)
    ensures var g := Deploy(h, job, f).host;
            if !Accepted(h, job, f) then SameNonces(g, h)
            else
              && g.seen == h.seen + {job.nonce}
              && (g.ledger == h.ledger || g.ledger == h.ledger + [job.nonce])
              && (g.installs == h.installs || (g.installs == h.installs + [job.nonce] && job.nonce in g.ledger))
  {
    InstallKeepsNonces(h.(seen := h.seen + {job.nonce}, ledger := h.ledger + [job.nonce],
                          installs := h.installs + [job.nonce]), job, f);
  }

  lemma ApplyRemembers(r: Runner, e: Event)
    requires Remembers(r)
    ensures Remembers(Apply(r, e))
  {
    if e.RunJob? && r.Up? {
      var h := r.host.(addon := e.files.0, backup := e.files.1, dump := e.files.2);
      DeployNonces(h, e.job, e.faults);
      var g := Deploy(h, e.job, e.faults).host;
      assert Apply(r, e).host == g;
      if g.installs == h.installs + [e.job.nonce] && Accepted(h, e.job, e.faults) {
        assert e.job.nonce !in h.installs;
        forall i, j | 0 <= i < j < |g.installs| ensures g.installs[i] != g.installs[j] {
          assert g.installs[i] == h.installs[i] && h.installs[i] in h.installs;
        }
      }
    }
  }

  /**
   At most once: whatever jobs arrive, wherever the runner crashes and however often it
   restarts, no nonce enters the backup-and-install phase twice.
   */
  lemma {:induction false} InstallsAtMostOnce(r: Runner, events: seq<Event>)
    requires Remembers(r)
    ensures NoRepeats(Live(r, events).host.installs) && Remembers(Live(r, events))
  {
    if events != [] {
      InstallsAtMostOnce(r, events[..|events| - 1]);
      ApplyRemembers(Live(r, events[..|events| - 1]), events[|events| - 1]);
    }
  }

  // ---------------------------------------------------------------- run_deploy, as written

  class RunnerProcess {
    var addon: Option<Content>
    var backup: Option<Content>
    var databaseDump: Option<Database>
    var database: Database
    var seenNonces: set<Nonce>
    var nonceLedger: seq<Nonce>
    var terminalStatus: Option<Report>
    ghost var installs: seq<Nonce>

    ghost function View(): Host
      reads this
    {
      Host(addon, backup, databaseDump, database, seenNonces, nonceLedger, terminalStatus, installs)
    }

    constructor (installed: Option<Content>, db: Database, ledger: seq<Nonce>)
      ensures View() == Host(installed, None, None, db, (set n | n in ledger), ledger, None, [])
    {
      addon, backup, databaseDump, database := installed, None, None, db;
      seenNonces, nonceLedger, terminalStatus, installs := (set n | n in ledger), ledger, None, [];
    }

    /** Adds the nonce of an acceptable job to the ones seen. */
    method VerifyJob(job: Job, f: Faults) returns (ok: bool)
      modifies this`seenNonces
      ensures ok <==> f.keyOk && f.signatureOk && f.unexpired && job.nonce != "" && job.nonce !in old(seenNonces)
      ensures View() == if ok then old(View()).(seen := old(seenNonces) + {job.nonce}) else old(View())
    {
      if !f.keyOk || job.nonce == "" || job.nonce in seenNonces || !f.signatureOk || !f.unexpired {
        return false;
      }
      seenNonces := seenNonces + {job.nonce};
      return true;
    }

    method SaveTerminalStatus(state: Report)
      modifies this`terminalStatus
      ensures View() == old(View()).(report := Some(state))
    {
      terminalStatus := Some(state);
    }

    /** Restores files, then the dump, then restarts; reports how far that got. */
    method RestoreEverything(f: Faults) returns (crashed: bool)
      requires databaseDump.Some?
      modifies this
      ensures (if crashed then Crashed(View()) else Ended(View())) == Recover(old(View()), f)
    {
      if backup.Some? {
        addon, backup := backup, None;
      } else {
        addon := None;
      }
      if f.crash == AfterUndo { return true; }
      if f.restore.RestoreFailed? {
        database := f.restore.half;
        SaveTerminalStatus(Failed);
        return false;
      }
      database := databaseDump.value;
      if f.crash == AfterRestore { return true; }
      SaveTerminalStatus(if f.restartAgainOk then RolledBack else Failed);
      return false;
    }

    method AbortDeploy(f: Faults) returns (crashed: bool)
      modifies this
      ensures (if crashed then Crashed(View()) else Ended(View())) == Abort(old(View()), f)
    {
      if databaseDump.Some? {
        crashed := RestoreEverything(f);
      } else {
        SaveTerminalStatus(Failed);
        crashed := false;
      }
    }

    method InstallPackage(job: Job, f: Faults) returns (crashed: bool)
      modifies this
      ensures (if crashed then Crashed(View()) else Ended(View())) == Install(old(View()), job, f)
    {
      if f.dump.DumpFailed? {
        databaseDump := f.dump.left;
        crashed := AbortDeploy(f);
        return;
      }
      databaseDump := Some(database);
      if f.crash == AfterDump { return true; }
      if addon.Some? {
        if backup.Some? {
          backup := None;
        }
        addon, backup := None, addon;
      }
      if f.crash == AfterMove { return true; }
      crashed := UnpackPackage(job, f);
    }

    method UnpackPackage(job: Job, f: Faults) returns (crashed: bool)
      requires databaseDump.Some?
      modifies this
      ensures (if crashed then Crashed(View()) else Ended(View())) == Unpack(old(View()), job, f)
    {
      if !f.tempOk {
        crashed := AbortDeploy(f);
        return;
      }
      if f.extract.ExtractFailed? {
        addon := f.extract.partial;
        crashed := AbortDeploy(f);
        return;
      }
      addon := Some(job.package);
      if f.crash == AfterExtract { return true; }
      crashed := ActivatePackage(f);
    }

    method ActivatePackage(f: Faults) returns (crashed: bool)
      requires databaseDump.Some?
      modifies this
      ensures (if crashed then Crashed(View()) else Ended(View())) == Activate(old(View()), f)
    {
      if f.command.DbFailed? {
        database := f.command.after;
        crashed := RestoreEverything(f);
        return;
      }
      database := f.command.now;
      if f.crash == AfterCommand { return true; }
      if !f.restartOk {
        crashed := RestoreEverything(f);
        return;
      }
      SaveTerminalStatus(Succeeded);
      return false;
    }

    method RunDeploy(job: Job, f: Faults) returns (crashed: bool)
      modifies this
      ensures (if crashed then Crashed(View()) else Ended(View())) == Deploy(old(View()), job, f)
    {
      var ok := VerifyJob(job, f);
      if !ok {
        SaveTerminalStatus(Failed);
        return false;
      }
      if f.crash == AfterVerify { return true; }
      if !f.ledgerOk {
        SaveTerminalStatus(Failed);
        return false;
      }
      nonceLedger := nonceLedger + [job.nonce];
      if f.crash == AfterLedger { return true; }
      if !(f.announceOk && f.downloadOk && f.digestOk && f.rootOk) {
        SaveTerminalStatus(Failed);
        return false;
      }
      if f.crash == AfterFetch { return true; }
      installs := installs + [job.nonce];
      crashed := InstallPackage(job, f);
    }
  }
}

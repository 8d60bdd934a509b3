/**
 Rollback inside whole runs: a snapshot a run retains restores to exactly its own text if and
 only if its mailbox holds no '@', and none does while administrators' addresses hold at most
 one.
 */
module SystemRestores {
  import opened Text
  import opened Serial
  import Pipeline
  import opened ZoneText
  import opened ZoneLaws
  import opened Store
  import StoreLaws
  import opened StoreTheorems
  import opened System
  import SystemLaws
  import opened Agreement

  // ---------------------------------------------------------------------
  // Mailboxes over runs
  // ---------------------------------------------------------------------

  predicate PlainMail(row: ZoneRow) {
    multiset(row.soa.mbox)['@'] <= 1
  }

  /** The mailbox a zone-file text names in its first record. */
  function TextMailbox(zone: string, content: string): string {
    var p := ParseText(content, zone);
    if p.Ok? && |p.value.records| > 0 && p.value.records[0].SoaRR? then p.value.records[0].mbox else ""
  }

  predicate PlainFlight(f: Flight) {
    match f
    case Idle => true
    case Opened(_) => true
    case HasSettings(_, row) => PlainMail(row)
    case Rendered(job) => PlainMail(job.row)
    case Moved(job) => PlainMail(job.row)
    case SerialSet(job) => PlainMail(job.row)
    case Snapshotted(job) => PlainMail(job.row)
  }

  ghost predicate PlainSnaps(zone: string, snaps: seq<SnapRow>) {
    forall s <- snaps :: '@' !in TextMailbox(zone, s.content)
  }

  ghost predicate Plain(cfg: Config, sys: Sys) {
    && (cfg.zone in sys.db.zones ==> PlainMail(sys.db.zones[cfg.zone]))
    && PlainFlight(sys.flight) && PlainSnaps(cfg.zone, SnapsOf(sys.db, cfg.zone))
  }

  /** Edits that keep the zone's address plain. */
  predicate PlainEdit(cfg: Config, stmt: Stmt) {
    stmt.zone == cfg.zone ==>
      match stmt
      case InsertZone(_, row) => PlainMail(row)
      case ImportTx(_, row, _) => PlainMail(row)
      case UpdateSettings(_, row) => PlainMail(row)
      case RestoreTx(_, soa, _) => PlainMail(ZoneRow(soa, ""))
      case _ => true
  }

  predicate PlainAction(cfg: Config, a: Action) {
    a.Edit? ==> PlainEdit(cfg, a.stmt)
  }

  lemma JobMailbox(cfg: Config, job: Job)
    requires Faithful(cfg, job) && PlainMail(job.row)
    ensures '@' !in TextMailbox(cfg.zone, job.content)
  {
    DeployedIsPublished(cfg.zone, job.row, job.rows, job.serial);
    MailboxFreeOfAt(job.row.soa.mbox);
    hide ParseText, BuildFrom, RenderText, IsBuilt, DataRecordsOf, DnsMbox, NameIn, HoldsName;
  }

  lemma EditKeepsMail(cfg: Config, db: Db, stmt: Stmt)
    requires cfg.zone in db.zones ==> PlainMail(db.zones[cfg.zone])
    requires PlainEdit(cfg, stmt)
    ensures cfg.zone in Exec(db, stmt).zones ==> PlainMail(Exec(db, stmt).zones[cfg.zone])
  {
    if stmt.zone != cfg.zone { StoreLaws.Isolation(db, stmt, cfg.zone); hide Exec; }
  }

  lemma FewerPlain(zone: string, snaps: seq<SnapRow>, fewer: seq<SnapRow>)
    requires PlainSnaps(zone, snaps) && forall s <- fewer :: s in snaps
    ensures PlainSnaps(zone, fewer)
  {
  }

  lemma PlainDb(cfg: Config, sys: Sys, db: Db)
    requires Plain(cfg, sys) && (cfg.zone in db.zones ==> PlainMail(db.zones[cfg.zone]))
    requires forall s <- SnapsOf(db, cfg.zone) :: s in SnapsOf(sys.db, cfg.zone)
    ensures Plain(cfg, sys.(db := db))
  {
    hide PlainMail, PlainSnaps, SnapsOf, PlainFlight;
    FewerPlain(cfg.zone, SnapsOf(sys.db, cfg.zone), SnapsOf(db, cfg.zone));
  }

  lemma PlainParts(cfg: Config, sys: Sys)
    requires Plain(cfg, sys)
    ensures cfg.zone in sys.db.zones ==> PlainMail(sys.db.zones[cfg.zone])
    ensures PlainFlight(sys.flight) && PlainSnaps(cfg.zone, SnapsOf(sys.db, cfg.zone))
  {
    hide PlainMail, PlainSnaps, PlainFlight;
  }

  /** A permitted edit, the deploy's own serial update and its pruning among them. */
  lemma PlainAfterEdit(cfg: Config, sys: Sys, stmt: Stmt)
    requires Coherent(cfg, sys) && PermittedEdit(cfg, sys.db, stmt) && Plain(cfg, sys) && PlainEdit(cfg, stmt)
    ensures Plain(cfg, sys.(db := Exec(sys.db, stmt)))
  {
    hide *;
    CoherentParts(cfg, sys);
    PlainParts(cfg, sys);
    EditKeepsMail(cfg, sys.db, stmt);
    SystemLaws.EditKeepsSnaps(cfg, sys.db, stmt);
    PlainDb(cfg, sys, Exec(sys.db, stmt));
  }

  lemma PlainWithFlight(cfg: Config, sys: Sys, f: Flight)
    requires Plain(cfg, sys) && PlainFlight(f)
    ensures Plain(cfg, sys.(flight := f))
  {
    hide PlainMail, PlainSnaps, PlainFlight;
  }

  lemma DeploysArePlain(cfg: Config, db: Db, serial: uint32)
    ensures PermittedEdit(cfg, db, SetSerial(cfg.zone, serial)) && PlainEdit(cfg, SetSerial(cfg.zone, serial))
    ensures PermittedEdit(cfg, db, PruneSnapshots(cfg.zone)) && PlainEdit(cfg, PruneSnapshots(cfg.zone))
  {
  }

  lemma PlainSnapshotStep(cfg: Config, sys: Sys)
    requires Coherent(cfg, sys) && Plain(cfg, sys) && sys.flight.SerialSet?
    ensures Plain(cfg, Act(cfg, sys, WriteSnapshot))
  {
    hide *;
    var job, sys' := sys.flight.job, Act(cfg, sys, WriteSnapshot);
    SnapshotEffect(cfg, sys);
    PlainParts(cfg, sys);
    PlainFlights(job);
    if cfg.zone in sys.db.zones {
      JobIsSound(cfg, sys);
      JobMailbox(cfg, job);
      SystemLaws.InsertedLast(sys.db, cfg.zone, job.serial, job.content);
      PlainSnoc(cfg.zone, SnapsOf(sys.db, cfg.zone), SnapRow(sys.db.lastSnap + 1, cfg.zone, job.serial, job.content));
      PlainIs(cfg, sys');
    } else {
      PlainWithFlight(cfg, sys, Idle);
    }
  }

  lemma PlainFlights(job: Job)
    ensures PlainFlight(Idle)
    ensures PlainFlight(SerialSet(job)) <==> PlainMail(job.row)
    ensures PlainFlight(Snapshotted(job)) <==> PlainMail(job.row)
    ensures PlainFlight(Moved(job)) <==> PlainMail(job.row)
  {
  }

  lemma PlainIs(cfg: Config, sys: Sys)
    requires cfg.zone in sys.db.zones ==> PlainMail(sys.db.zones[cfg.zone])
    requires PlainFlight(sys.flight) && PlainSnaps(cfg.zone, SnapsOf(sys.db, cfg.zone))
    ensures Plain(cfg, sys)
  {
    hide PlainMail, PlainSnaps, PlainFlight;
  }

  /** Steps that leave the tables alone. */
  lemma PlainReading(cfg: Config, sys: Sys, a: Action)
    requires Plain(cfg, sys) && !a.Edit? && !a.WriteSerial? && !a.WriteSnapshot? && !a.Prune?
    ensures Plain(cfg, Act(cfg, sys, a))
  {
    hide Pipeline.Run, Pipeline.Init, Fits, BuildFrom, PlainMail, PlainSnaps, SplitTargets, Records;
  }

  lemma PlainStep(cfg: Config, sys: Sys, a: Action)
    requires Coherent(cfg, sys) && Permitted(cfg, sys, a) && Plain(cfg, sys) && PlainAction(cfg, a)
    ensures Plain(cfg, Act(cfg, sys, a))
  {
    hide Coherent, Plain, PermittedEdit, PlainEdit, Exec, PlainFlight, Pipeline.Run, Pipeline.Init, Render;
    PlainParts(cfg, sys);
    match a
    case Edit(stmt) => PlainAfterEdit(cfg, sys, stmt);
    case WriteSerial =>
      if sys.flight.Moved? {
        var job := sys.flight.job;
        DeploysArePlain(cfg, sys.db, job.serial);
        PlainFlights(job);
        PlainAfterEdit(cfg, sys, SetSerial(cfg.zone, job.serial));
        PlainWithFlight(cfg, sys, Idle);
        PlainWithFlight(cfg, sys.(db := Exec(sys.db, SetSerial(cfg.zone, job.serial))), SerialSet(job));
      }
    case WriteSnapshot => if sys.flight.SerialSet? { PlainSnapshotStep(cfg, sys); }
    case Prune =>
      if sys.flight.Snapshotted? {
        DeploysArePlain(cfg, sys.db, 0);
        PlainFlights(sys.flight.job);
        PlainAfterEdit(cfg, sys, PruneSnapshots(cfg.zone));
        PlainWithFlight(cfg, sys.(db := Exec(sys.db, PruneSnapshots(cfg.zone))), Idle);
      }
    case _ => PlainReading(cfg, sys, a);
  }

  lemma PlainSnoc(zone: string, snaps: seq<SnapRow>, s: SnapRow)
    requires PlainSnaps(zone, snaps) && '@' !in TextMailbox(zone, s.content)
    ensures PlainSnaps(zone, snaps + [s])
  {
  }

  lemma {:induction false} PlainRun(cfg: Config, sys: Sys, actions: seq<Action>)
    requires Coherent(cfg, sys) && PermittedRun(cfg, sys, actions)
    requires Plain(cfg, sys) && forall a <- actions :: PlainAction(cfg, a)
    ensures Plain(cfg, ActAll(cfg, sys, actions))
    decreases |actions|
  {
    hide Act, Coherent, Permitted, Plain, PlainAction;
    if actions != [] {
      var k := |actions| - 1;
      PermittedPrefix(cfg, sys, actions, k);
      RunIsCoherent(cfg, sys, actions[..k]);
      forall a | a in actions[..k] ensures PlainAction(cfg, a) { assert a in actions; }
      PlainRun(cfg, sys, actions[..k]);
      assert actions[k] in actions;
      PlainStep(cfg, ActAll(cfg, sys, actions[..k]), actions[k]);
    }
  }

  // ---------------------------------------------------------------------
  // Restores
  // ---------------------------------------------------------------------

  /** What restoring a retained snapshot gives: its serial, its text if and only if its mailbox
      holds no '@', and, if it is the newest, a clean zone under the same condition. */
  ghost predicate Restores(cfg: Config, db: Db, s: SnapRow) {
    var db' := RestoreSnapshot(db, cfg.zone, s.id);
    && cfg.zone in db'.zones && db'.zones[cfg.zone].soa.serial == s.serial
    && SnapsOf(db', cfg.zone) == SnapsOf(db, cfg.zone)
    && BuildDb(db', cfg.zone).Ok?
    && (RenderText(BuildDb(db', cfg.zone).value) == s.content <==> '@' !in TextMailbox(cfg.zone, s.content))
    && (LastSnapshot(db, cfg.zone) == Some(s) ==>
          (!Dirty(db', cfg.zone) <==> '@' !in TextMailbox(cfg.zone, s.content)))
  }

  lemma RetainedRestores(cfg: Config, db: Db, s: SnapRow)
    requires StoreSound(cfg, db) && s in SnapsOf(db, cfg.zone)
    ensures Restores(cfg, db, s)
  {
    RetainedIsPublished(cfg, db, s);
    RestoreRoundTrip(db, s);
    PublishedMailbox(s);
    if LastSnapshot(db, cfg.zone) == Some(s) { RestoreNewestIsClean(db, s); }
    hide StoreSound, RestoreSnapshot, BuildDb, Dirty, RenderText, TextMailbox, ParseText, LastSnapshot, SnapsOf,
         StoreLaws.Integrity, IsPublished;
  }

  /** At any point of any run, after rollbacks, deletions and whatever else, restoring any
      retained snapshot makes the database render exactly its text if and only if its mailbox
      holds no '@'. */
  lemma EverySnapshotRestores(cfg: Config, sys: Sys, actions: seq<Action>, s: SnapRow)
    requires Coherent(cfg, sys) && PermittedRun(cfg, sys, actions)
    requires s in SnapsOf(ActAll(cfg, sys, actions).db, cfg.zone)
    ensures Restores(cfg, ActAll(cfg, sys, actions).db, s)
  {
    hide *;
    var b := ActAll(cfg, sys, actions);
    RunIsCoherent(cfg, sys, actions);
    CoherentParts(cfg, b);
    RetainedRestores(cfg, b.db, s);
  }

  /** If the address never holds two '@', no retained snapshot's mailbox holds one, so every one
      restores to the letter. */
  lemma PlainSnapshotsRestore(cfg: Config, sys: Sys, actions: seq<Action>, s: SnapRow)
    requires Coherent(cfg, sys) && PermittedRun(cfg, sys, actions)
    requires Plain(cfg, sys) && forall a <- actions :: PlainAction(cfg, a)
    requires s in SnapsOf(ActAll(cfg, sys, actions).db, cfg.zone)
    ensures '@' !in TextMailbox(cfg.zone, s.content) && Restores(cfg, ActAll(cfg, sys, actions).db, s)
  {
    hide *;
    var b := ActAll(cfg, sys, actions);
    PlainRun(cfg, sys, actions);
    PlainParts(cfg, b);
    PlainSnap(cfg.zone, SnapsOf(b.db, cfg.zone), s);
    EverySnapshotRestores(cfg, sys, actions, s);
  }

  lemma PlainSnap(zone: string, snaps: seq<SnapRow>, s: SnapRow)
    requires PlainSnaps(zone, snaps) && s in snaps
    ensures '@' !in TextMailbox(zone, s.content)
  {
    hide TextMailbox;
  }

  /** A rollback itself never brings a second '@' in. */
  lemma RollbackIsPlain(cfg: Config, sys: Sys, id: nat)
    requires Coherent(cfg, sys) && Plain(cfg, sys) && RestorePlan(sys.db, cfg.zone, id).Ok?
    ensures PlainAction(cfg, Edit(RestorePlan(sys.db, cfg.zone, id).value))
  {
    hide *;
    CoherentParts(cfg, sys);
    PlainParts(cfg, sys);
    var s := FoundIsRetained(sys.db, cfg.zone, id);
    RetainedIsPublished(cfg, sys.db, s);
    PlainSnap(cfg.zone, SnapsOf(sys.db, cfg.zone), s);
    PublishedMailbox(s);
    RestoredMail(cfg, s);
  }

  lemma RestoredMail(cfg: Config, s: SnapRow)
    requires IsPublished(cfg.zone, s.serial, s.content) && '@' !in TextMailbox(cfg.zone, s.content)
    ensures var z := ParseText(s.content, cfg.zone).value;
            && HasSoa(z)
            && PlainAction(cfg, Edit(RestoreTx(cfg.zone, SoaOf(z), DataRecordsOf(z.records))))
  {
    BuiltDataRecords(ParseText(s.content, cfg.zone).value, cfg.zone);
    hide ParseText, IsBuilt, DataRecordsOf, RenderText, KeySorted;
  }

  lemma PublishedMailbox(s: SnapRow)
    requires IsPublished(s.zone, s.serial, s.content)
    ensures ParseText(s.content, s.zone).Ok? && |ParseText(s.content, s.zone).value.records| > 0
    ensures ParseText(s.content, s.zone).value.records[0].SoaRR?
    ensures TextMailbox(s.zone, s.content) == ParseText(s.content, s.zone).value.records[0].mbox
  {
    hide ParseText, RenderText, WellFormed;
  }
}

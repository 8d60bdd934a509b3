/**
 What database, servers and snapshots agree on over whole runs, whatever the serials do: the
 zone may be rolled back, deleted and created again at any point, servers may hold any file,
 and the clock may jump.
 */
module Agreement {
  import opened Text
  import opened Serial
  import opened Pipeline
  import opened ZoneText
  import opened ZoneLaws
  import opened Settings
  import UnknownTypes
  import opened Seqs
  import opened Store
  import opened StoreLaws
  import opened StoreTheorems
  import opened System
  import opened SystemLaws

  // ---------------------------------------------------------------------
  // Steps
  // ---------------------------------------------------------------------

  lemma CoherentParts(cfg: Config, sys: Sys)
    requires Coherent(cfg, sys)
    ensures StoreSound(cfg, sys.db) && FlightSound(cfg, sys) && Integrity(sys.db) && sys.db.keep > 0
  {
    hide FlightSound, Integrity, StorableZone, SafeSettings, IsPublished, SnapsOf;
  }

  lemma SnapshotHasZone(db: Db, zone: string)
    requires Integrity(db) && LastSnapshot(db, zone).Some?
    ensures zone in db.zones
  {
    LastSnapshotIsThere(db, zone);
  }

  /** A step that leaves the zone's rows, or only loses them, and the flight's promises. */
  lemma SameFlight(cfg: Config, a: Sys, b: Sys)
    requires FlightSound(cfg, a) && SameLiveFiles(cfg, a, b) && (b.flight == a.flight || b.flight.Idle?)
    requires LastSnapshot(b.db, cfg.zone) in {None, LastSnapshot(a.db, cfg.zone)}
    ensures FlightSound(cfg, b)
  {
    hide Faithful, EveryTargetHolds, LastSnapshot, SameLiveFiles, SafeSettings;
    if (b.flight.Moved? || b.flight.SerialSet? || b.flight.Snapshotted?) {
      SameTargetsHold(cfg, a, b, b.flight.job);
    }
  }

  lemma SameFilesStay(cfg: Config, a: Sys, b: Sys)
    requires a.files == b.files
    ensures SameLiveFiles(cfg, a, b)
  {
    hide IsLive;
  }

  lemma EditIsCoherent(cfg: Config, sys: Sys, stmt: Stmt)
    requires Coherent(cfg, sys) && PermittedEdit(cfg, sys.db, stmt)
    ensures Coherent(cfg, Act(cfg, sys, Edit(stmt)))
  {
    CoherentParts(cfg, sys);
    var sys' := sys.(db := Exec(sys.db, stmt));
    assert Act(cfg, sys, Edit(stmt)) == sys';
    hide FlightSound, StoreSound, PermittedEdit, Exec, LastSnapshot, SnapsOf, Integrity, SameLiveFiles;
    EditKeepsSound(cfg, sys.db, stmt);
    EditKeepsSnaps(cfg, sys.db, stmt);
    SameFilesStay(cfg, sys, sys');
    SameFlight(cfg, sys, sys');
  }

  lemma ReadIsCoherent(cfg: Config, sys: Sys, a: Action)
    requires Coherent(cfg, sys) && (a.Tick? || a.OpenDeploy? || a.ReadSettings? || a.Abandon?)
    ensures Coherent(cfg, Act(cfg, sys, a))
  {
    hide Faithful, Integrity, StorableZone, IsPublished, SnapsOf, SafeSettings, SplitTargets, LastSnapshot;
  }

  lemma RenderEffect(cfg: Config, sys: Sys)
    requires Coherent(cfg, sys)
    ensures var sys' := Act(cfg, sys, ReadRecords);
            if !sys.flight.HasSettings? then sys' == sys
            else
              var job := Render(cfg, sys.flight.targets, sys.flight.row, Records(sys.db, cfg.zone), sys.now);
              && SafeSettings(cfg.zone, sys.flight.row.soa)
              && sys' == sys.(flight := if job.None? then Idle else Rendered(job.value))
  {
    hide StoreSound, SafeSettings, Render, Records, Faithful, EveryTargetHolds, LastSnapshot;
  }

  lemma RenderedIsCoherent(cfg: Config, sys: Sys, job: Option<Job>)
    requires StoreSound(cfg, sys.db) && (job.Some? ==> Faithful(cfg, job.value))
    ensures Coherent(cfg, sys.(flight := if job.None? then Idle else Rendered(job.value)))
  {
    hide StoreSound, Faithful;
  }

  lemma RenderIsCoherent(cfg: Config, sys: Sys)
    requires Coherent(cfg, sys)
    ensures Coherent(cfg, Act(cfg, sys, ReadRecords))
  {
    hide *;
    CoherentParts(cfg, sys);
    RenderEffect(cfg, sys);
    if sys.flight.HasSettings? {
      var rows := Records(sys.db, cfg.zone);
      SoundRows(cfg, sys.db);
      RenderExactly(cfg, sys.flight.targets, sys.flight.row, rows, sys.now);
      RenderedIsCoherent(cfg, sys, Render(cfg, sys.flight.targets, sys.flight.row, rows, sys.now));
    }
  }

  lemma SoundRows(cfg: Config, db: Db)
    requires StoreSound(cfg, db)
    ensures StorableRows(Records(db, cfg.zone)) && RowsSorted(Records(db, cfg.zone))
  {
    RecordsStorable(db, cfg.zone);
    hide Records, StorableRows, RowsSorted, Integrity, IsPublished, SafeSettings;
  }

  lemma PushIsCoherent(cfg: Config, sys: Sys, env: Env, schedule: seq<Thread>)
    requires Coherent(cfg, sys)
    ensures Coherent(cfg, Act(cfg, sys, Push(env, schedule)))
  {
    CoherentParts(cfg, sys);
    var sys' := Act(cfg, sys, Push(env, schedule));
    hide StoreSound, Run, Init, Fits, Faithful, EveryTargetHolds;
    if sys.flight.Rendered? && Fits(cfg, sys, sys.flight.job, env) {
      PushEffect(cfg, sys, env, schedule);
      if sys'.flight != Idle {
        PushedEverywhere(cfg, sys, sys.flight.job, env, schedule);
        TargetsHold(cfg, sys', sys.flight.job);
      }
    } else {
      NoPush(cfg, sys, env, schedule);
    }
  }

  lemma JobIsSound(cfg: Config, sys: Sys)
    requires Coherent(cfg, sys) && (sys.flight.Moved? || sys.flight.SerialSet?)
    ensures Faithful(cfg, sys.flight.job) && EveryTargetHolds(cfg, sys, sys.flight.job)
  {
    hide StoreSound, Faithful, EveryTargetHolds;
  }

  lemma SerialEffect(cfg: Config, sys: Sys)
    ensures var sys' := Act(cfg, sys, WriteSerial);
            if !sys.flight.Moved? then sys' == sys
            else if cfg.zone !in sys.db.zones then sys' == sys.(flight := Idle)
            else var job := sys.flight.job;
              sys' == sys.(db := Exec(sys.db, SetSerial(cfg.zone, job.serial)), flight := SerialSet(job))
  {
    hide Exec;
  }

  lemma SerialSetIsCoherent(cfg: Config, sys: Sys, job: Job)
    requires StoreSound(cfg, sys.db) && Faithful(cfg, job) && EveryTargetHolds(cfg, sys, job)
    requires sys.flight == SerialSet(job)
    ensures Coherent(cfg, sys)
  {
    hide StoreSound, Faithful, EveryTargetHolds;
  }

  lemma IdleIsCoherent(cfg: Config, sys: Sys)
    requires StoreSound(cfg, sys.db)
    ensures Coherent(cfg, sys.(flight := Idle))
  {
    hide StoreSound;
  }

  lemma SerialIsPermitted(cfg: Config, db: Db, serial: uint32)
    ensures PermittedEdit(cfg, db, SetSerial(cfg.zone, serial))
  {
  }

  lemma WriteSerialIsCoherent(cfg: Config, sys: Sys)
    requires Coherent(cfg, sys)
    ensures Coherent(cfg, Act(cfg, sys, WriteSerial))
  {
    hide *;
    CoherentParts(cfg, sys);
    SerialEffect(cfg, sys);
    if sys.flight.Moved? && cfg.zone in sys.db.zones {
      var job, sys' := sys.flight.job, Act(cfg, sys, WriteSerial);
      JobIsSound(cfg, sys);
      SerialIsPermitted(cfg, sys.db, job.serial);
      EditKeepsSound(cfg, sys.db, SetSerial(cfg.zone, job.serial));
      SameFilesStay(cfg, sys, sys');
      SameTargetsHold(cfg, sys, sys', job);
      SerialSetIsCoherent(cfg, sys', job);
    } else if sys.flight.Moved? {
      IdleIsCoherent(cfg, sys);
    }
  }

  lemma InsertIsSound(cfg: Config, db: Db, serial: uint32, content: string)
    requires StoreSound(cfg, db) && cfg.zone in db.zones && IsPublished(cfg.zone, serial, content)
    ensures StoreSound(cfg, Exec(db, InsertSnapshot(cfg.zone, serial, content)))
    ensures LastSnapshot(Exec(db, InsertSnapshot(cfg.zone, serial, content)), cfg.zone)
         == Some(SnapRow(db.lastSnap + 1, cfg.zone, serial, content))
  {
    ExecKeepsIntegrity(db, InsertSnapshot(cfg.zone, serial, content));
    InsertedLast(db, cfg.zone, serial, content);
    hide Integrity, IsPublished, Exec, SnapsOf, LastSnapshot, SafeSettings, UnknownTypes.Storable;
  }

  lemma SnapshotEffect(cfg: Config, sys: Sys)
    ensures var sys' := Act(cfg, sys, WriteSnapshot);
            if !sys.flight.SerialSet? then sys' == sys
            else if cfg.zone !in sys.db.zones then sys' == sys.(flight := Idle)
            else var job := sys.flight.job;
              sys' == sys.(db := Exec(sys.db, InsertSnapshot(cfg.zone, job.serial, job.content)),
                           flight := Snapshotted(job))
  {
    hide Exec;
  }

  lemma SnapshottedIsCoherent(cfg: Config, sys: Sys, job: Job, id: nat)
    requires StoreSound(cfg, sys.db) && Faithful(cfg, job) && EveryTargetHolds(cfg, sys, job)
    requires sys.flight == Snapshotted(job)
    requires LastSnapshot(sys.db, cfg.zone) == Some(SnapRow(id, cfg.zone, job.serial, job.content))
    ensures Coherent(cfg, sys)
  {
    hide StoreSound, Faithful, EveryTargetHolds, LastSnapshot;
  }

  lemma WriteSnapshotIsCoherent(cfg: Config, sys: Sys)
    requires Coherent(cfg, sys)
    ensures Coherent(cfg, Act(cfg, sys, WriteSnapshot))
  {
    hide *;
    CoherentParts(cfg, sys);
    SnapshotEffect(cfg, sys);
    if sys.flight.SerialSet? && cfg.zone in sys.db.zones {
      var job, sys' := sys.flight.job, Act(cfg, sys, WriteSnapshot);
      JobIsSound(cfg, sys);
      JobText(cfg, job);
      InsertIsSound(cfg, sys.db, job.serial, job.content);
      SameFilesStay(cfg, sys, sys');
      SameTargetsHold(cfg, sys, sys', job);
      SnapshottedIsCoherent(cfg, sys', job, sys.db.lastSnap + 1);
    } else if sys.flight.SerialSet? {
      IdleIsCoherent(cfg, sys);
    }
  }

  lemma PruningIsPermitted(cfg: Config, db: Db)
    ensures PermittedEdit(cfg, db, PruneSnapshots(cfg.zone))
  {
  }

  lemma PruneEffect(cfg: Config, sys: Sys)
    ensures !sys.flight.Snapshotted? ==> Act(cfg, sys, Prune) == sys
    ensures sys.flight.Snapshotted? ==>
              && Act(cfg, sys, Prune) == sys.(db := Exec(sys.db, PruneSnapshots(cfg.zone)), flight := Idle)
              && Act(cfg, sys, Prune).db.zones == sys.db.zones
              && (cfg.zone in sys.db.zones ==> Stored(cfg, Act(cfg, sys, Prune)) == Stored(cfg, sys))
  {
  }

  lemma PruneIsCoherent(cfg: Config, sys: Sys)
    requires Coherent(cfg, sys)
    ensures Coherent(cfg, Act(cfg, sys, Prune))
    ensures sys.flight.Snapshotted? ==>
              LastSnapshot(Act(cfg, sys, Prune).db, cfg.zone) == LastSnapshot(sys.db, cfg.zone)
  {
    hide *;
    PruneEffect(cfg, sys);
    if sys.flight.Snapshotted? {
      CoherentParts(cfg, sys);
      PruningIsPermitted(cfg, sys.db);
      EditKeepsSound(cfg, sys.db, PruneSnapshots(cfg.zone));
      EditKeepsSnaps(cfg, sys.db, PruneSnapshots(cfg.zone));
      IdleIsCoherent(cfg, sys.(db := Exec(sys.db, PruneSnapshots(cfg.zone))));
    }
  }

  lemma ForeignIsCoherent(cfg: Config, sys: Sys, env: Env, schedule: seq<Thread>)
    requires Coherent(cfg, sys) && Permitted(cfg, sys, Foreign(env, schedule))
    ensures Coherent(cfg, Act(cfg, sys, Foreign(env, schedule)))
  {
    CoherentParts(cfg, sys);
    var sys' := Act(cfg, sys, Foreign(env, schedule));
    hide StoreSound, FlightSound;
    if env.Valid() && env.files == sys.files && env.req.zone != cfg.zone {
      forall l | IsLive(cfg, l) ensures Lookup(sys'.files, l) == Lookup(sys.files, l) {
        ForeignFiles(cfg, env, schedule, l);
      }
    }
    hide Run, Init, IsLive;
    SameFlight(cfg, sys, sys');
  }

  /** Every permitted step keeps database, servers and deploy in agreement. */
  lemma StepIsCoherent(cfg: Config, sys: Sys, a: Action)
    requires Coherent(cfg, sys) && Permitted(cfg, sys, a)
    ensures Coherent(cfg, Act(cfg, sys, a))
  {
    hide Coherent, Act, PermittedEdit;
    match a
    case Edit(stmt) => EditIsCoherent(cfg, sys, stmt);
    case ReadRecords => RenderIsCoherent(cfg, sys);
    case Push(env, schedule) => PushIsCoherent(cfg, sys, env, schedule);
    case WriteSerial => WriteSerialIsCoherent(cfg, sys);
    case WriteSnapshot => WriteSnapshotIsCoherent(cfg, sys);
    case Prune => PruneIsCoherent(cfg, sys);
    case Foreign(env, schedule) => ForeignIsCoherent(cfg, sys, env, schedule);
    case _ => ReadIsCoherent(cfg, sys, a);
  }

  lemma PermittedPrefix(cfg: Config, sys: Sys, actions: seq<Action>, k: nat)
    requires PermittedRun(cfg, sys, actions) && k <= |actions|
    ensures PermittedRun(cfg, sys, actions[..k])
  {
    hide Permitted, ActAll;
    forall j | 0 <= j < k ensures Permitted(cfg, ActAll(cfg, sys, actions[..k][..j]), actions[..k][j]) {
      assert actions[..k][..j] == actions[..j];
    }
  }

  /** So does every run. */
  lemma {:induction false} RunIsCoherent(cfg: Config, sys: Sys, actions: seq<Action>)
    requires Coherent(cfg, sys) && PermittedRun(cfg, sys, actions)
    ensures Coherent(cfg, ActAll(cfg, sys, actions))
    decreases |actions|
  {
    hide Coherent, Permitted, Act;
    if actions != [] {
      var k := |actions| - 1;
      PermittedPrefix(cfg, sys, actions, k);
      RunIsCoherent(cfg, sys, actions[..k]);
      StepIsCoherent(cfg, ActAll(cfg, sys, actions[..k]), actions[k]);
    }
  }

  /** What the serial theorems assume is more. */
  lemma InvIsCoherent(cfg: Config, sys: Sys)
    requires SysInv(cfg, sys)
    ensures Coherent(cfg, sys)
  {
    hide StoreSound, Faithful, EveryTargetHolds, LastSnapshot, LiveAtMost, Base, NextNat, ClockInRange, SnapsOf,
         SafeSettings;
  }

  lemma AllowedIsPermitted(cfg: Config, sys: Sys, a: Action)
    requires cfg.zone in sys.db.zones && Allowed(cfg, sys, a)
    ensures Permitted(cfg, sys, a)
  {
    if a.Edit? { OrdinaryIsPermitted(cfg, sys.db, a.stmt); }
    hide OrdinaryEdit, PermittedEdit;
  }

  // ---------------------------------------------------------------------
  // The snapshot of a deploy that has stored one
  // ---------------------------------------------------------------------

  /** A deploy that has just stored its snapshot finds one. */
  ghost predicate SnapshotThere(cfg: Config, sys: Sys) {
    sys.flight.Snapshotted? ==> LastSnapshot(sys.db, cfg.zone).Some?
  }

  lemma SnapshotIsThere(cfg: Config, sys: Sys)
    requires SnapshotThere(cfg, sys) && sys.flight.Snapshotted?
    ensures LastSnapshot(sys.db, cfg.zone).Some?
  {
  }

  predicate NoDeletion(cfg: Config, actions: seq<Action>) {
    Edit(DeleteZone(cfg.zone)) !in actions
  }

  lemma SnapshotStaysStep(cfg: Config, sys: Sys, a: Action)
    requires Coherent(cfg, sys) && Permitted(cfg, sys, a) && SnapshotThere(cfg, sys) && a != Edit(DeleteZone(cfg.zone))
    ensures SnapshotThere(cfg, Act(cfg, sys, a))
  {
    CoherentParts(cfg, sys);
    hide Coherent, StoreSound, FlightSound, Integrity, PermittedEdit, Exec, LastSnapshot, Run, Init, Fits, Render,
         Records, SplitTargets;
    match a
    case Edit(stmt) => EditKeepsSnaps(cfg, sys.db, stmt);
    case WriteSnapshot =>
      if sys.flight.SerialSet? && cfg.zone in sys.db.zones {
        InsertedLast(sys.db, cfg.zone, sys.flight.job.serial, sys.flight.job.content);
      }
    case _ =>
  }

  /** It stays until the zone is deleted. */
  lemma {:induction false} SnapshotStays(cfg: Config, sys: Sys, actions: seq<Action>)
    requires Coherent(cfg, sys) && PermittedRun(cfg, sys, actions) && SnapshotThere(cfg, sys)
    requires NoDeletion(cfg, actions)
    ensures SnapshotThere(cfg, ActAll(cfg, sys, actions))
    decreases |actions|
  {
    hide Coherent, Permitted, Act, SnapshotThere;
    if actions != [] {
      var k := |actions| - 1;
      PermittedPrefix(cfg, sys, actions, k);
      RunIsCoherent(cfg, sys, actions[..k]);
      SnapshotStays(cfg, sys, actions[..k]);
      SnapshotStaysStep(cfg, ActAll(cfg, sys, actions[..k]), actions[k]);
    }
  }

  lemma NoneDeletes(cfg: Config, actions: seq<Action>)
    requires NoOwnEdit(cfg, actions)
    ensures NoDeletion(cfg, actions)
  {
  }

  lemma FreshSnapshot(cfg: Config, sys: Sys)
    requires Coherent(cfg, sys) && sys.flight.Snapshotted? && LastSnapshot(sys.db, cfg.zone).Some?
    ensures var job := sys.flight.job;
            && Faithful(cfg, job)
            && LastSnapshot(sys.db, cfg.zone).value.content == job.content
            && LastSnapshot(sys.db, cfg.zone).value.serial == job.serial
            && forall t <- job.targets :: Lookup(sys.files, TargetLoc(cfg, t)) == Some(job.content)
  {
    hide StoreSound, Faithful, LastSnapshot;
  }

  // ---------------------------------------------------------------------
  // Rollback
  // ---------------------------------------------------------------------

  /** What rollback restores of a published text. */
  lemma PublishedIsStorable(zone: string, serial: uint32, content: string)
    requires IsPublished(zone, serial, content)
    ensures var z := ParseText(content, zone).value;
            HasSoa(z) && SafeSettings(zone, SoaOf(z)) && UnknownTypes.AllStorable(DataRecordsOf(z.records))
  {
    var z := ParseText(content, zone).value;
    RequestedOfBuilt(z, zone);
    SafeExactly(zone, SoaOf(z));
    assert WellFormedZone(z);
    hide ParseText, RenderText, IsBuilt, SafeSettings, GoodSettings, WellFormed, DataRecordsOf, UnknownTypes.Storable,
         SoaIndex, RequestedZone, KeySorted;
    DataRecordsStorable(z.records);
  }

  /** The snapshot a rollback finds is one of the zone's. */
  lemma FoundIsRetained(db: Db, zone: string, id: nat) returns (s: SnapRow)
    requires RestorePlan(db, zone, id).Ok?
    ensures s in SnapsOf(db, zone) && ParseText(s.content, zone).Ok? && HasSoa(ParseText(s.content, zone).value)
    ensures var z := ParseText(s.content, zone).value;
            RestorePlan(db, zone, id) == Ok(RestoreTx(zone, SoaOf(z), DataRecordsOf(z.records)))
  {
    FilterMembers(db.snapshots, SnapIs(zone, id));
    FilterMembers(db.snapshots, SnapIn(zone));
    hide ParseText, Filter, DataRecordsOf, SoaOf, SoaIndex;
    s := Filter(db.snapshots, SnapIs(zone, id))[0];
    assert s in Filter(db.snapshots, SnapIs(zone, id));
  }

  lemma RetainedIsPublished(cfg: Config, db: Db, s: SnapRow)
    requires StoreSound(cfg, db) && s in SnapsOf(db, cfg.zone)
    ensures Integrity(db) && s in db.snapshots && s.zone == cfg.zone && IsPublished(cfg.zone, s.serial, s.content)
  {
    FilterMembers(db.snapshots, SnapIn(cfg.zone));
    hide Integrity, IsPublished, SafeSettings, StorableZone;
  }

  lemma StorablePlan(cfg: Config, db: Db, soa: SoaData, recs: seq<Record>)
    requires SafeSettings(cfg.zone, soa) && UnknownTypes.AllStorable(recs)
    ensures PermittedEdit(cfg, db, RestoreTx(cfg.zone, soa, recs))
  {
    hide SafeSettings, UnknownTypes.Storable;
  }

  /** A rollback is a permitted edit, at any point and to any retained snapshot. */
  lemma RollbackIsPermitted(cfg: Config, db: Db, id: nat)
    requires StoreSound(cfg, db) && RestorePlan(db, cfg.zone, id).Ok?
    ensures var plan := RestorePlan(db, cfg.zone, id).value;
            && plan.RestoreTx? && plan.zone == cfg.zone && PermittedEdit(cfg, db, plan)
            && RestoreSnapshot(db, cfg.zone, id) == Exec(db, plan)
  {
    assert RestoreSnapshot(db, cfg.zone, id) == Exec(db, RestorePlan(db, cfg.zone, id).value);
    hide *;
    var s := FoundIsRetained(db, cfg.zone, id);
    var z := ParseText(s.content, cfg.zone).value;
    RetainedIsPublished(cfg, db, s);
    PublishedIsStorable(cfg.zone, s.serial, s.content);
    StorablePlan(cfg, db, SoaOf(z), DataRecordsOf(z.records));
  }

  // ---------------------------------------------------------------------
  // Clean and dirty
  // ---------------------------------------------------------------------

  /** The zone as the database builds it now, for comparison with what a deploy rendered. */
  lemma CurrentBuilds(cfg: Config, db: Db)
    requires StoreSound(cfg, db) && cfg.zone in db.zones
    ensures var p := BuildDb(db, cfg.zone);
            && (p.Ok? <==> CanonicalRows(Records(db, cfg.zone)))
            && (p.Ok? ==>
                  && WellFormedZone(p.value) && p.value.origin == Fqdn(cfg.zone)
                  && HasSoa(p.value) && SoaOf(p.value).serial == db.zones[cfg.zone].soa.serial)
  {
    var row, rows := db.zones[cfg.zone], Records(db, cfg.zone);
    RecordsStorable(db, cfg.zone);
    RowsBuildExactly(cfg.zone, row, rows);
    if CanonicalRows(rows) {
      SafeExactly(cfg.zone, row.soa);
      RequestedKeySorted(cfg.zone, row.soa, rows);
      BuildParses(cfg.zone, row.soa, RecsOf(rows));
      BuiltDataRecords(RequestedZone(cfg.zone, row.soa, RecsOf(rows)), cfg.zone);
    }
    hide Records, RecsOf, WellFormed, RequestedAll, BuildZone, StorableRows, CanonicalRows, SafeSettings, StoreSound;
  }

  /** A clean zone's newest snapshot carries the stored serial. */
  lemma CleanMeansCurrent(cfg: Config, db: Db)
    requires StoreSound(cfg, db) && !Dirty(db, cfg.zone)
    ensures cfg.zone in db.zones && LastSnapshot(db, cfg.zone).Some?
    ensures LastSnapshot(db, cfg.zone).value.serial == db.zones[cfg.zone].soa.serial
  {
    CleanIsThere(db, cfg.zone);
    CurrentBuilds(cfg, db);
    var built, s := BuildDb(db, cfg.zone).value, LastSnapshot(db, cfg.zone).value;
    assert s in SnapsOf(db, cfg.zone);
    PublishedText(cfg.zone, s.serial, s.content);
    DirtyMeans(db, cfg.zone);
    hide WellFormedZone, RenderText, ParseText, BuildDb, IsPublished, SoaOf, SnapsOf, Integrity, StorableZone,
         GoodSettings, SafeSettings, Dirty;
    RenderInjective(built, ParseText(s.content, cfg.zone).value);
  }

  lemma CleanIsThere(db: Db, zone: string)
    requires !Dirty(db, zone)
    ensures zone in db.zones && BuildDb(db, zone).Ok? && LastSnapshot(db, zone).Some?
  {
    hide RenderText, BuildFrom;
  }

  lemma PublishedText(zone: string, serial: uint32, content: string)
    requires IsPublished(zone, serial, content)
    ensures var p := ParseText(content, zone);
            p.Ok? && WellFormedZone(p.value) && p.value.origin == Fqdn(zone) && RenderText(p.value) == content
            && HasSoa(p.value) && SoaOf(p.value).serial == serial
  {
    BuiltDataRecords(ParseText(content, zone).value, zone);
    hide ParseText, RenderText, WellFormedZone;
  }

  /** When a deploy has published and the zone was not deleted since, every one of its targets
      holds exactly the newest snapshot, and the zone is dirty if and only if what the database
      builds now differs from what the deploy's rows build with the new serial. */
  lemma PublishAgreement(cfg: Config, sys: Sys)
    requires Coherent(cfg, sys) && sys.flight.Snapshotted? && LastSnapshot(sys.db, cfg.zone).Some?
    ensures var job, sys' := sys.flight.job, Act(cfg, sys, Prune);
            var last := LastSnapshot(sys'.db, cfg.zone);
            && Coherent(cfg, sys') && cfg.zone in sys'.db.zones && last.Some?
            && (forall t <- job.targets :: Lookup(sys'.files, TargetLoc(cfg, t)) == Some(last.value.content))
            && last.value.serial == job.serial && last.value.content == job.content
            && (!Dirty(sys'.db, cfg.zone) ==> Stored(cfg, sys') == job.serial)
            && var rendered := BuildFrom(cfg.zone, job.row.(soa := job.row.soa.(serial := job.serial)), job.rows);
            (Dirty(sys'.db, cfg.zone) <==> BuildDb(sys'.db, cfg.zone) != rendered)
  {
    hide *;
    var job, sys' := sys.flight.job, Act(cfg, sys, Prune);
    FreshSnapshot(cfg, sys);
    PruneIsCoherent(cfg, sys);
    CoherentParts(cfg, sys');
    PruneEffect(cfg, sys);
    SnapshotHasZone(sys'.db, cfg.zone);
    JobText(cfg, job);
    CurrentBuilds(cfg, sys'.db);
    PublishedText(cfg.zone, job.serial, job.content);
    if BuildDb(sys'.db, cfg.zone).Err? {
      UnbuildableIsDirty(sys'.db, cfg.zone);
    } else {
      DirtyMeans(sys'.db, cfg.zone);
      var built, parsed := BuildDb(sys'.db, cfg.zone).value, ParseText(job.content, cfg.zone).value;
      if RenderText(built) == job.content {
        RenderInjective(built, parsed);
      }
    }
    if !Dirty(sys'.db, cfg.zone) {
      CleanMeansCurrent(cfg, sys'.db);
      StoredRow(cfg, sys');
    }
  }

  lemma StoredRow(cfg: Config, sys: Sys)
    requires cfg.zone in sys.db.zones
    ensures Stored(cfg, sys) == sys.db.zones[cfg.zone].soa.serial
  {
  }

  lemma UnbuildableIsDirty(db: Db, zone: string)
    requires BuildDb(db, zone).Err?
    ensures Dirty(db, zone)
  {
  }

  /** Clean is exactly this: the newest snapshot reads as what the database builds. */
  lemma CleanExactly(cfg: Config, db: Db)
    requires StoreSound(cfg, db)
    ensures var last := LastSnapshot(db, cfg.zone);
            !Dirty(db, cfg.zone) <==> last.Some? && BuildDb(db, cfg.zone) == ParseText(last.value.content, cfg.zone)
  {
    hide *;
    CoherentDb(cfg, db);
    if LastSnapshot(db, cfg.zone).Some? {
      var s, built := LastSnapshot(db, cfg.zone).value, BuildDb(db, cfg.zone);
      LastIsRetained(db, cfg.zone);
      SnapshotHasZone(db, cfg.zone);
      RetainedIsPublished(cfg, db, s);
      PublishedText(cfg.zone, s.serial, s.content);
      CurrentBuilds(cfg, db);
      if built.Err? {
        UnbuildableIsDirty(db, cfg.zone);
      } else {
        DirtyMeans(db, cfg.zone);
        if RenderText(built.value) == s.content {
          RenderInjective(built.value, ParseText(s.content, cfg.zone).value);
        }
      }
    } else if !Dirty(db, cfg.zone) {
      CleanIsThere(db, cfg.zone);
      assert false;
    }
  }

  lemma CoherentDb(cfg: Config, db: Db)
    requires StoreSound(cfg, db)
    ensures Integrity(db)
  {
    hide Integrity, IsPublished, SafeSettings, StorableZone;
  }

  lemma LastIsRetained(db: Db, zone: string)
    requires LastSnapshot(db, zone).Some?
    ensures LastSnapshot(db, zone).value in SnapsOf(db, zone)
  {
  }

  // ---------------------------------------------------------------------
  // Edits that slip into a deploy
  // ---------------------------------------------------------------------

  predicate SameButSerial(a: ZoneRow, b: ZoneRow) {
    a.targets == b.targets && a.soa == b.soa.(serial := a.soa.serial)
  }

  /** No step but an edit of the zone changes its records, or its settings but for the serial
      that a deploy writes: whatever was edited while a deploy was in flight survives. */
  lemma OnlyEditsEdit(cfg: Config, sys: Sys, a: Action)
    requires cfg.zone in sys.db.zones && (a.Edit? ==> a.stmt.zone != cfg.zone)
    ensures var sys' := Act(cfg, sys, a);
            && cfg.zone in sys'.db.zones
            && RowsOf(sys'.db, cfg.zone) == RowsOf(sys.db, cfg.zone)
            && sys'.db.zones[cfg.zone]
               == if a.WriteSerial? && sys.flight.Moved? then AtSerial(sys.db.zones[cfg.zone], sys.flight.job.serial)
                  else sys.db.zones[cfg.zone]
  {
    match a
    case Edit(stmt) =>
      Isolation(sys.db, stmt, cfg.zone);
      hide Exec, RowsOf, SnapsOf;
    case _ => hide Run, Init, NewestIds, Filter;
  }

  /** The row with another serial. */
  function AtSerial(row: ZoneRow, serial: uint32): ZoneRow {
    row.(soa := row.soa.(serial := serial))
  }

  /** What the deploy in flight has read is what the database still holds. */
  ghost predicate Undisturbed(cfg: Config, sys: Sys)
    requires cfg.zone in sys.db.zones
  {
    var row, rows := sys.db.zones[cfg.zone], Records(sys.db, cfg.zone);
    match sys.flight
    case Idle => true
    case Opened(_) => true
    case HasSettings(_, r) => SameButSerial(r, row)
    case Rendered(job) => SameButSerial(job.row, row) && job.rows == rows
    case Moved(job) => SameButSerial(job.row, row) && job.rows == rows
    case SerialSet(job) => row == AtSerial(job.row, job.serial) && job.rows == rows
    case Snapshotted(job) => row == AtSerial(job.row, job.serial) && job.rows == rows
  }

  lemma SameRecords(a: Db, b: Db, zone: string)
    requires RowsOf(a, zone) == RowsOf(b, zone)
    ensures Records(a, zone) == Records(b, zone)
  {
    hide SortRows, RowsOf;
  }

  lemma UndisturbedStep(cfg: Config, sys: Sys, a: Action)
    requires cfg.zone in sys.db.zones && (a.Edit? ==> a.stmt.zone != cfg.zone) && Undisturbed(cfg, sys)
    ensures cfg.zone in Act(cfg, sys, a).db.zones && Undisturbed(cfg, Act(cfg, sys, a))
  {
    OnlyEditsEdit(cfg, sys, a);
    SameRecords(Act(cfg, sys, a).db, sys.db, cfg.zone);
    hide RowsOf, Exec, Run, Init, Fits, BuildFrom, Records, SplitTargets;
  }

  /** The zone's settings and records are left to themselves. */
  predicate NoOwnEdit(cfg: Config, actions: seq<Action>) {
    forall a <- actions :: a.Edit? ==> a.stmt.zone != cfg.zone
  }

  lemma {:induction false} UndisturbedRun(cfg: Config, sys: Sys, actions: seq<Action>)
    requires cfg.zone in sys.db.zones && Undisturbed(cfg, sys) && NoOwnEdit(cfg, actions)
    ensures cfg.zone in ActAll(cfg, sys, actions).db.zones && Undisturbed(cfg, ActAll(cfg, sys, actions))
    decreases |actions|
  {
    hide Undisturbed, Act;
    if actions != [] {
      var k := |actions| - 1;
      UndisturbedRun(cfg, sys, actions[..k]);
      UndisturbedStep(cfg, ActAll(cfg, sys, actions[..k]), actions[k]);
    }
  }

  lemma UndisturbedMeans(cfg: Config, sys: Sys)
    requires cfg.zone in sys.db.zones && (sys.flight.SerialSet? || sys.flight.Snapshotted?) && Undisturbed(cfg, sys)
    ensures var job := sys.flight.job;
            (BuildDb(sys.db, cfg.zone)
             == BuildFrom(cfg.zone, job.row.(soa := job.row.soa.(serial := job.serial)), job.rows))
  {
    hide BuildFrom, Records;
  }

  /** A deploy between whose opening and end nobody edits the zone leaves it clean, with the
      database building exactly what every target holds. */
  lemma UndisturbedDeployIsClean(cfg: Config, sys: Sys, actions: seq<Action>)
    requires Coherent(cfg, sys) && PermittedRun(cfg, sys, actions) && NoOwnEdit(cfg, actions)
    requires cfg.zone in sys.db.zones && (sys.flight.Idle? || sys.flight.Opened?)
    requires ActAll(cfg, sys, actions).flight.Snapshotted?
    ensures var b := ActAll(cfg, sys, actions);
            var sys' := Act(cfg, b, Prune);
            && !Dirty(sys'.db, cfg.zone)
            && BuildDb(sys'.db, cfg.zone).Ok?
            && forall t <- b.flight.job.targets ::
                 Lookup(sys'.files, TargetLoc(cfg, t)) == Some(RenderText(BuildDb(sys'.db, cfg.zone).value))
  {
    var b := ActAll(cfg, sys, actions);
    assert Undisturbed(cfg, sys) && SnapshotThere(cfg, sys);
    hide *;
    UndisturbedRun(cfg, sys, actions);
    RunIsCoherent(cfg, sys, actions);
    NoneDeletes(cfg, actions);
    SnapshotStays(cfg, sys, actions);
    SnapshotIsThere(cfg, b);
    PublishAgreement(cfg, b);
    var sys' := Act(cfg, b, Prune);
    PruneEffect(cfg, b);
    UndisturbedMeans(cfg, b);
    SameBuild(b.db, sys'.db, cfg.zone) by { PruneKeepsRecords(b.db, cfg.zone); }
    CleanIsThere(sys'.db, cfg.zone);
    DirtyMeans(sys'.db, cfg.zone);
  }

  lemma PruneKeepsRecords(db: Db, zone: string)
    ensures Exec(db, PruneSnapshots(zone)).records == db.records
  {
  }

  lemma SameBuild(a: Db, b: Db, zone: string)
    requires a.zones == b.zones && a.records == b.records
    ensures BuildDb(a, zone) == BuildDb(b, zone)
  {
  }

  // ---------------------------------------------------------------------
  // A publish cut short
  // ---------------------------------------------------------------------

  /** A publish that stops after its serial update, with nobody having edited the zone since it
      was read, leaves it clean exactly when the newest snapshot already is the very text that
      was pushed; every target then holds that snapshot. */
  lemma HalfDoneExactly(cfg: Config, sys: Sys)
    requires Coherent(cfg, sys) && sys.flight.SerialSet? && cfg.zone in sys.db.zones && Undisturbed(cfg, sys)
    ensures var job, last := sys.flight.job, LastSnapshot(sys.db, cfg.zone);
            && (!Dirty(sys.db, cfg.zone) <==> last.Some? && last.value.content == job.content)
            && (!Dirty(sys.db, cfg.zone) ==>
                  forall t <- job.targets :: Lookup(sys.files, TargetLoc(cfg, t)) == Some(last.value.content))
  {
    hide *;
    var job, last := sys.flight.job, LastSnapshot(sys.db, cfg.zone);
    CoherentParts(cfg, sys);
    JobIsSound(cfg, sys);
    HeldByTargets(cfg, sys, job);
    UndisturbedMeans(cfg, sys);
    JobText(cfg, job);
    PublishedText(cfg.zone, job.serial, job.content);
    CleanExactly(cfg, sys.db);
    if last.Some? {
      LastIsRetained(sys.db, cfg.zone);
      RetainedIsPublished(cfg, sys.db, last.value);
      PublishedText(cfg.zone, last.value.serial, last.value.content);
    }
  }

  lemma HeldByTargets(cfg: Config, sys: Sys, job: Job)
    requires EveryTargetHolds(cfg, sys, job)
    ensures forall t <- job.targets :: Lookup(sys.files, TargetLoc(cfg, t)) == Some(job.content)
  {
  }
}

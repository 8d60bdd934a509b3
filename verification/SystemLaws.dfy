/**
 Every step of the composed system keeps its invariant and only moves serials forward.
 */
module SystemLaws {
  import opened Text
  import opened Serial
  import opened Remote
  import opened Pipeline
  import PipelineSafety
  import PipelineTheorems
  import opened ZoneText
  import opened ZoneLaws
  import opened Settings
  import UnknownTypes
  import opened Seqs
  import opened Store
  import opened StoreLaws
  import opened StoreTheorems
  import opened System

  // ---------------------------------------------------------------------
  // The database under edits
  // ---------------------------------------------------------------------

  lemma RecordsStorable(db: Db, zone: string)
    requires StorableZone(db, zone)
    ensures StorableRows(Records(db, zone)) && RowsSorted(Records(db, zone))
  {
    var rows := RowsOf(db, zone);
    FilterMembers(db.records, RowIn(zone));
    SortRowsSorts(rows);
    forall r | r in SortRows(rows) ensures UnknownTypes.Storable(r.rec) {
      assert r in multiset(SortRows(rows));
      assert r in rows;
    }
  }

  /** Every row of the zone has a type. */
  ghost predicate CanonicalZone(db: Db, zone: string) {
    forall r <- db.records :: r.zone == zone ==> Canonical(r.rec)
  }

  lemma RecordsCanonical(db: Db, zone: string)
    ensures CanonicalRows(Records(db, zone)) <==> CanonicalZone(db, zone)
  {
    var rows := RowsOf(db, zone);
    FilterMembers(db.records, RowIn(zone));
    SortRowsSorts(rows);
    hide Canonical, SortRows, RowsSorted;
    assert forall r :: r in SortRows(rows) <==> r in multiset(SortRows(rows));
    assert forall r :: r in rows <==> r in multiset(rows);
  }

  /** A zone of stored rows builds exactly when every row has a type. */
  lemma BuildDbExactly(db: Db, zone: string)
    requires zone in db.zones && SafeSettings(zone, db.zones[zone].soa) && StorableZone(db, zone)
    ensures BuildDb(db, zone).Ok? <==> CanonicalZone(db, zone)
  {
    hide SafeSettings, StorableZone, CanonicalZone, Records, BuildFrom, CanonicalRows, StorableRows;
    RecordsStorable(db, zone);
    RecordsCanonical(db, zone);
    RowsBuildExactly(zone, db.zones[zone], Records(db, zone));
  }

  lemma NewRowsStorable(db: Db, zone: string, rows: seq<RecordRow>, recs: seq<Record>)
    requires UnknownTypes.AllStorable(recs) && forall r <- rows :: r.zone == zone ==> UnknownTypes.Storable(r.rec)
    ensures forall r <- rows + NewRows(zone, recs, db.lastRecord) :: r.zone == zone ==> UnknownTypes.Storable(r.rec)
  {
    hide UnknownTypes.Storable;
    forall r | r in NewRows(zone, recs, db.lastRecord) ensures UnknownTypes.Storable(r.rec) {
      assert r.rec in recs;
    }
  }

  lemma RestoreKeepsStorable(db: Db, zone: string, soa: SoaData, recs: seq<Record>)
    requires zone in db.zones && UnknownTypes.AllStorable(recs)
    ensures StorableZone(Exec(db, RestoreTx(zone, soa, recs)), zone)
  {
    FilterMembers(db.records, RowOutside(zone));
    hide Filter, UnknownTypes.Storable, NewRows;
    NewRowsStorable(db, zone, Filter(db.records, RowOutside(zone)), recs);
  }

  lemma OwnEditKeepsStorable(cfg: Config, db: Db, stmt: Stmt)
    requires StorableZone(db, cfg.zone) && PermittedEdit(cfg, db, stmt) && stmt.zone == cfg.zone
    ensures StorableZone(Exec(db, stmt), cfg.zone)
  {
    hide UnknownTypes.Storable, Settings.SafeSettings;
    match stmt
    case ImportTx(zone, row, recs) => if zone !in db.zones { NewRowsStorable(db, zone, db.records, recs); }
    case UpdateRecord(zone, id, rec) =>
      forall r | r in ReplaceRec(db.records, zone, id, rec) && r.zone == zone ensures UnknownTypes.Storable(r.rec) {
        var i :| 0 <= i < |db.records| && ReplaceRec(db.records, zone, id, rec)[i] == r;
        assert db.records[i] in db.records;
      }
    case DeleteRecord(zone, id) => FilterMembers(db.records, RowOther(zone, id));
    case DeleteZone(zone) => FilterMembers(db.records, RowOutside(zone));
    case RestoreTx(zone, soa, recs) => if zone in db.zones { RestoreKeepsStorable(db, zone, soa, recs); }
    case _ =>
  }

  lemma OtherEditKeepsStorable(db: Db, stmt: Stmt, zone: string)
    requires StorableZone(db, zone) && stmt.zone != zone
    ensures StorableZone(Exec(db, stmt), zone)
  {
    Isolation(db, stmt, zone);
    FilterMembers(db.records, RowIn(zone));
    FilterMembers(Exec(db, stmt).records, RowIn(zone));
    hide Exec, UnknownTypes.Storable;
    forall r | r in Exec(db, stmt).records && r.zone == zone ensures UnknownTypes.Storable(r.rec) {
      assert r in RowsOf(Exec(db, stmt), zone);
      assert r in RowsOf(db, zone);
    }
  }

  lemma EditKeepsSafe(cfg: Config, db: Db, stmt: Stmt)
    requires cfg.zone in db.zones ==> SafeSettings(cfg.zone, db.zones[cfg.zone].soa)
    requires PermittedEdit(cfg, db, stmt)
    ensures var db' := Exec(db, stmt); cfg.zone in db'.zones ==> SafeSettings(cfg.zone, db'.zones[cfg.zone].soa)
  {
    hide SafeSettings;
    if stmt.zone != cfg.zone {
      Isolation(db, stmt, cfg.zone);
      hide Exec;
    } else if cfg.zone in db.zones {
      var row := if stmt.UpdateSettings? then stmt.row else db.zones[cfg.zone];
      var serial := if stmt.SetSerial? then stmt.serial else db.zones[cfg.zone].soa.serial;
      if stmt.UpdateSettings? || stmt.SetSerial? {
        SafeIgnoresNumbers(cfg.zone, row.soa, row.soa.(serial := serial));
      }
    }
  }

  /** What a permitted edit does to the zone's snapshots: none comes in, and the newest stays
      unless the zone is deleted. */
  lemma EditKeepsSnaps(cfg: Config, db: Db, stmt: Stmt)
    requires Integrity(db) && db.keep > 0 && PermittedEdit(cfg, db, stmt)
    ensures forall s <- SnapsOf(Exec(db, stmt), cfg.zone) :: s in SnapsOf(db, cfg.zone)
    ensures LastSnapshot(Exec(db, stmt), cfg.zone)
         == if stmt == DeleteZone(cfg.zone) then None else LastSnapshot(db, cfg.zone)
  {
    if stmt.zone == cfg.zone {
      OwnSnaps(db, cfg.zone, stmt);
    } else {
      Isolation(db, stmt, cfg.zone);
    }
    hide Exec, SnapsOf, Integrity, SafeSettings, UnknownTypes.Storable;
  }

  /** A permitted edit keeps what the tables keep. */
  lemma EditKeepsSound(cfg: Config, db: Db, stmt: Stmt)
    requires StoreSound(cfg, db) && PermittedEdit(cfg, db, stmt)
    ensures StoreSound(cfg, Exec(db, stmt))
  {
    ExecKeepsIntegrity(db, stmt);
    ExecKeepsKeep(db, stmt);
    EditKeepsSnaps(cfg, db, stmt);
    EditKeepsSafe(cfg, db, stmt);
    if stmt.zone == cfg.zone {
      OwnEditKeepsStorable(cfg, db, stmt);
    } else {
      OtherEditKeepsStorable(db, stmt, cfg.zone);
    }
    hide Integrity, StorableZone, SnapsOf, IsPublished, SafeSettings, Exec, PermittedEdit, LastSnapshot;
  }

  lemma OrdinaryIsPermitted(cfg: Config, db: Db, stmt: Stmt)
    requires cfg.zone in db.zones && OrdinaryEdit(cfg, stmt)
    ensures PermittedEdit(cfg, db, stmt)
  {
    hide SafeSettings, UnknownTypes.Storable;
  }

  lemma OrdinaryKeepsRow(cfg: Config, db: Db, stmt: Stmt)
    requires cfg.zone in db.zones && OrdinaryEdit(cfg, stmt) && Integrity(db)
    ensures var db' := Exec(db, stmt);
            && cfg.zone in db'.zones && db'.zones[cfg.zone].soa.serial == db.zones[cfg.zone].soa.serial
            && SnapsOf(db', cfg.zone) == SnapsOf(db, cfg.zone)
  {
    if stmt.zone == cfg.zone {
      OwnSnaps(db, cfg.zone, stmt);
    } else {
      Isolation(db, stmt, cfg.zone);
      hide Exec;
    }
    hide SafeSettings, UnknownTypes.Storable, Integrity, SnapsOf;
  }

  /** An ordinary edit keeps the zone's integrity, its stored serial and its snapshots. */
  lemma EditKeepsZone(cfg: Config, db: Db, stmt: Stmt)
    requires ZoneInv(cfg, db) && OrdinaryEdit(cfg, stmt)
    ensures ZoneInv(cfg, Exec(db, stmt))
    ensures Exec(db, stmt).zones[cfg.zone].soa.serial == db.zones[cfg.zone].soa.serial
    ensures SnapsOf(Exec(db, stmt), cfg.zone) == SnapsOf(db, cfg.zone)
  {
    assert Integrity(db) by { hide Integrity; }
    OrdinaryIsPermitted(cfg, db, stmt);
    OrdinaryKeepsRow(cfg, db, stmt);
    hide Integrity, StoreSound, SnapsOf, OrdinaryEdit, PermittedEdit, Exec;
    EditKeepsSound(cfg, db, stmt);
  }

  // ---------------------------------------------------------------------
  // Jobs
  // ---------------------------------------------------------------------

  /** A job's text carries its serial and is publishable. */
  lemma JobText(cfg: Config, job: Job)
    requires Faithful(cfg, job)
    ensures TextSerial(cfg, job.content) == Some(job.serial)
    ensures IsPublished(cfg.zone, job.serial, job.content)
    ensures ParseText(job.content, cfg.zone)
         == BuildFrom(cfg.zone, job.row.(soa := job.row.soa.(serial := job.serial)), job.rows)
  {
    DeployedIsPublished(cfg.zone, job.row, job.rows, job.serial);
    BuiltDataRecords(ParseText(job.content, cfg.zone).value, cfg.zone);
    hide ParseText, BuildFrom, RenderText, IsBuilt, DataRecordsOf;
  }

  /** Rendering stored rows succeeds exactly when each has a type. The job is then faithful,
      with the policy's next serial; short of the largest one that is above the old. */
  lemma RenderExactly(cfg: Config, targets: seq<string>, row: ZoneRow, rows: seq<RecordRow>, now: Instant)
    requires SafeSettings(cfg.zone, row.soa) && StorableRows(rows) && RowsSorted(rows)
    ensures var job := Render(cfg, targets, row, rows, now);
            && (job.Some? <==> CanonicalRows(rows))
            && (job.Some? ==>
                  && Faithful(cfg, job.value)
                  && job.value.targets == targets && job.value.row == row && job.value.rows == rows
                  && job.value.serial == NextSerial(cfg.policy, row.soa.serial, now)
                  && (row.soa.serial < WORD - 1 ==>
                        && JobInv(cfg, job.value)
                        && job.value.serial == NextNat(Base(cfg.policy, now), row.soa.serial)))
  {
    RowsBuildExactly(cfg.zone, row, rows);
    if CanonicalRows(rows) {
      SafeExactly(cfg.zone, row.soa);
      hide SafeSettings, StorableRows;
      RenderSucceeds(cfg, targets, row, rows, now);
      NextSerialIsNextNat(cfg.policy, row.soa.serial, now);
    }
    hide BuildFrom, RenderText, CanonicalRows, StorableRows, SafeSettings, Faithful, RowsSorted, NextSerial, Base;
  }

  lemma RenderSucceeds(cfg: Config, targets: seq<string>, row: ZoneRow, rows: seq<RecordRow>, now: Instant)
    requires ZoneLaws.GoodSettings(cfg.zone, row.soa) && CanonicalRows(rows) && RowsSorted(rows)
    ensures var job := Render(cfg, targets, row, rows, now);
            && job.Some? && Faithful(cfg, job.value)
            && job.value.targets == targets && job.value.row == row && job.value.rows == rows
            && job.value.oldSerial == row.soa.serial
            && job.value.serial == NextSerial(cfg.policy, row.soa.serial, now)
  {
    RequestedKeySorted(cfg.zone, row.soa, rows);
    BuildParses(cfg.zone, row.soa, RecsOf(rows));
    var z := RequestedZone(cfg.zone, row.soa, RecsOf(rows));
    BuiltDataRecords(z, cfg.zone);
    assert BuildFrom(cfg.zone, row, rows) == Ok(z) && SoaOf(z).serial == row.soa.serial;
    hide BuildFrom, RequestedZone, RenderText, WithSerial, SoaOf, SoaIndex, NextSerial, Base, CanonicalRows,
         RowsSorted, GoodSettings;
  }

  // ---------------------------------------------------------------------
  // Files under pipeline runs
  // ---------------------------------------------------------------------

  lemma LiveIsNoTemp(cfg: Config, env: Env, l: Loc)
    requires env.Valid() && IsLive(cfg, l)
    ensures !IsTemp(env, l)
  {
    var dir :| l.path == FinalPath(dir, ZoneFile(cfg.zone));
    forall i | 0 <= i < env.N() ensures env.TempLoc(i) != l {
      TempIsNeverLive(env.ServerOf(i).zoneDir, env.req.zone, env.suffixes[i], dir, cfg.zone);
    }
  }

  /** A run for this zone leaves each live file as it was or puts the content there. */
  lemma PushedFiles(cfg: Config, env: Env, schedule: seq<Thread>, l: Loc)
    requires env.Valid() && IsLive(cfg, l)
    ensures Lookup(Run(env, Init(env), schedule).files, l) in {Lookup(env.files, l), Some(env.req.content)}
  {
    PipelineSafety.ReachableInv(env, schedule);
    LiveIsNoTemp(cfg, env, l);
  }

  /** A returned run that moved everywhere leaves the content on every target. */
  lemma PushedEverywhere(cfg: Config, sys: Sys, job: Job, env: Env, schedule: seq<Thread>)
    requires Fits(cfg, sys, job, env) && Run(env, Init(env), schedule).AllMoved()
    ensures forall t <- job.targets ::
              Lookup(Run(env, Init(env), schedule).files, TargetLoc(cfg, t)) == Some(job.content)
  {
    PipelineTheorems.AllMovedMeansLive(env, schedule);
    forall t | t in job.targets
      ensures Lookup(Run(env, Init(env), schedule).files, TargetLoc(cfg, t)) == Some(job.content)
    {
      var i :| 0 <= i < env.N() && job.targets[i] == t;
      assert env.LiveLoc(i) == TargetLoc(cfg, t);
    }
  }

  /** A run for a zone whose live file has another name leaves the live files of this one alone. */
  lemma ForeignFiles(cfg: Config, env: Env, schedule: seq<Thread>, l: Loc)
    requires env.Valid() && IsLive(cfg, l) && LiveName(env.req.zone) != LiveName(cfg.zone)
    ensures Lookup(Run(env, Init(env), schedule).files, l) == Lookup(env.files, l)
  {
    PipelineSafety.ReachableInv(env, schedule);
    LiveIsNoTemp(cfg, env, l);
    var dir :| l.path == FinalPath(dir, ZoneFile(cfg.zone));
    forall i | 0 <= i < env.N() ensures env.LiveLoc(i) != l {
      LivePathsExactly(env.ServerOf(i).zoneDir, dir, env.req.zone, cfg.zone);
    }
  }

  lemma TargetIsLive(cfg: Config, t: string)
    ensures IsLive(cfg, TargetLoc(cfg, t))
  {
    var srv := if t in cfg.servers then cfg.servers[t] else Server("", "");
    assert TargetLoc(cfg, t).path == FinalPath(srv.zoneDir, ZoneFile(cfg.zone));
  }

  // ---------------------------------------------------------------------
  // Steps that change no live file
  // ---------------------------------------------------------------------

  ghost predicate SameLiveFiles(cfg: Config, a: Sys, b: Sys) {
    forall l :: IsLive(cfg, l) ==> Lookup(b.files, l) == Lookup(a.files, l)
  }

  lemma SameLiveSerials(cfg: Config, a: Sys, b: Sys, bound: int, bound': int)
    requires SameLiveFiles(cfg, a, b) && LiveAtMost(cfg, a, bound) && bound <= bound'
    ensures LiveAtMost(cfg, b, bound')
  {
    hide TextSerial, IsLive;
    forall l | IsLive(cfg, l) && LiveSerial(cfg, b, l).Some? ensures LiveSerial(cfg, b, l).value <= bound' {
      assert Lookup(b.files, l) == Lookup(a.files, l);
      assert LiveSerial(cfg, a, l) == LiveSerial(cfg, b, l);
    }
  }

  lemma SameTargetsHold(cfg: Config, a: Sys, b: Sys, job: Job)
    requires SameLiveFiles(cfg, a, b) && EveryTargetHolds(cfg, a, job)
    ensures EveryTargetHolds(cfg, b, job)
  {
    forall t | t in job.targets ensures Lookup(b.files, TargetLoc(cfg, t)) == Some(job.content) {
      TargetIsLive(cfg, t);
    }
  }

  /** A step that leaves live files, stored serial, snapshots and flight alone. */
  lemma QuietStep(cfg: Config, a: Sys, b: Sys)
    requires SysInv(cfg, a) && ZoneInv(cfg, b.db) && ClockInRange(b.now) && NotAfter(a.now, b.now)
    requires SameLiveFiles(cfg, a, b) && Stored(cfg, b) == Stored(cfg, a)
    requires SnapsOf(b.db, cfg.zone) == SnapsOf(a.db, cfg.zone) && (b.flight == a.flight || b.flight.Idle?)
    ensures SysInv(cfg, b) && Advances(cfg, a, b)
  {
    BaseMonotone(cfg.policy, a.now, b.now);
    var stored := Stored(cfg, a);
    var nextA, nextB := NextNat(Base(cfg.policy, a.now), stored), NextNat(Base(cfg.policy, b.now), stored);
    NextNatMonotone(Base(cfg.policy, a.now), Base(cfg.policy, b.now), stored, stored);
    hide ZoneInv, Base, NextNat, ClockInRange, SameLiveFiles, LiveAtMost, FlightInv, SnapsOf;
    SameLiveSerials(cfg, a, b, nextA, nextB);
    QuietFlight(cfg, a, b);
    SameFilesAdvance(cfg, a, b);
  }

  lemma QuietFlight(cfg: Config, a: Sys, b: Sys)
    requires cfg.zone in a.db.zones && cfg.zone in b.db.zones && FlightInv(cfg, a)
    requires NextNat(Base(cfg.policy, a.now), Stored(cfg, a)) <= NextNat(Base(cfg.policy, b.now), Stored(cfg, b))
    requires SameLiveFiles(cfg, a, b) && Stored(cfg, b) == Stored(cfg, a)
    requires SnapsOf(b.db, cfg.zone) == SnapsOf(a.db, cfg.zone) && (b.flight == a.flight || b.flight.Idle?)
    ensures FlightInv(cfg, b)
  {
    hide Base, NextNat, JobInv, SnapsOf, SameLiveFiles, LiveAtMost, EveryTargetHolds;
    match b.flight
    case Idle =>
    case Opened(_) =>
    case HasSettings(_, _) =>
    case Rendered(job) => SameLiveSerials(cfg, a, b, job.serial, job.serial);
    case Moved(job) =>
      SameLiveSerials(cfg, a, b, job.serial, job.serial);
      SameTargetsHold(cfg, a, b, job);
    case SerialSet(job) => SameTargetsHold(cfg, a, b, job);
    case Snapshotted(job) => SameTargetsHold(cfg, a, b, job);
  }

  lemma SameFilesAdvance(cfg: Config, a: Sys, b: Sys)
    requires cfg.zone in a.db.zones && cfg.zone in b.db.zones
    requires SameLiveFiles(cfg, a, b) && Stored(cfg, a) <= Stored(cfg, b)
    ensures Advances(cfg, a, b)
  {
    hide LiveSerial, IsLive;
  }

  lemma NotAfterItself(t: Instant)
    ensures NotAfter(t, t)
  {
  }

  // ---------------------------------------------------------------------
  // Steps of the deploy
  // ---------------------------------------------------------------------

  /** A step that leaves clock and live files alone and stores no lower serial. */
  lemma ForwardStep(cfg: Config, a: Sys, b: Sys)
    requires SysInv(cfg, a) && ZoneInv(cfg, b.db) && FlightInv(cfg, b)
    requires b.files == a.files && b.now == a.now && Stored(cfg, a) <= Stored(cfg, b)
    ensures SysInv(cfg, b) && Advances(cfg, a, b)
  {
    var base := Base(cfg.policy, a.now);
    NextNatMonotone(base, base, Stored(cfg, a), Stored(cfg, b));
    hide ZoneInv, FlightInv, Base, NextNat, ClockInRange, LiveAtMost;
    assert SameLiveFiles(cfg, a, b);
    SameLiveSerials(cfg, a, b, NextNat(base, Stored(cfg, a)), NextNat(base, Stored(cfg, b)));
    SameFilesAdvance(cfg, a, b);
  }

  lemma ReadEffect(cfg: Config, sys: Sys)
    requires SysInv(cfg, sys)
    ensures var sys' := Act(cfg, sys, ReadRecords);
            if !sys.flight.HasSettings? then sys' == sys
            else
              var job := Render(cfg, sys.flight.targets, sys.flight.row, Records(sys.db, cfg.zone), sys.now);
              && cfg.zone in sys.db.zones && SafeSettings(cfg.zone, sys.flight.row.soa)
              && sys.flight.row.soa.serial == Stored(cfg, sys)
              && LiveAtMost(cfg, sys, NextNat(Base(cfg.policy, sys.now), Stored(cfg, sys)))
              && sys' == sys.(flight := if job.None? then Idle else Rendered(job.value))
  {
    hide *;
    SettingsRead(cfg, sys);
    ReadActs(cfg, sys);
  }

  lemma ReadActs(cfg: Config, sys: Sys)
    ensures var sys' := Act(cfg, sys, ReadRecords);
            if !sys.flight.HasSettings? then sys' == sys
            else
              var job := Render(cfg, sys.flight.targets, sys.flight.row, Records(sys.db, cfg.zone), sys.now);
              sys' == sys.(flight := if job.None? then Idle else Rendered(job.value))
  {
    hide Render, Records, Run, Init, Exec, Fits, SplitTargets;
  }

  lemma SettingsRead(cfg: Config, sys: Sys)
    requires SysInv(cfg, sys)
    ensures cfg.zone in sys.db.zones
    ensures LiveAtMost(cfg, sys, NextNat(Base(cfg.policy, sys.now), Stored(cfg, sys)))
    ensures sys.flight.HasSettings? ==>
              SafeSettings(cfg.zone, sys.flight.row.soa) && sys.flight.row.soa.serial == Stored(cfg, sys)
  {
    ZoneIsThere(cfg, sys);
    hide ZoneInv, SafeSettings, JobInv, EveryTargetHolds, LastSnapshot, LiveAtMost, Base, NextNat, ClockInRange;
  }

  lemma RenderedFlight(cfg: Config, sys: Sys, job: Job)
    requires cfg.zone in sys.db.zones && sys.flight == Rendered(job)
    requires JobInv(cfg, job) && job.row.soa.serial == Stored(cfg, sys)
    requires job.serial == NextNat(Base(cfg.policy, sys.now), Stored(cfg, sys)) && LiveAtMost(cfg, sys, job.serial)
    ensures FlightInv(cfg, sys)
  {
    JobOldSerial(cfg, job);
    hide JobInv, LiveAtMost, Base, NextNat;
  }

  lemma NoMoreFiles(cfg: Config, a: Sys, b: Sys, bound: int)
    requires a.files == b.files && LiveAtMost(cfg, a, bound)
    ensures LiveAtMost(cfg, b, bound)
  {
    hide IsLive, TextSerial;
    forall l | IsLive(cfg, l) && LiveSerial(cfg, b, l).Some? ensures LiveSerial(cfg, b, l).value <= bound {
      assert LiveSerial(cfg, a, l) == LiveSerial(cfg, b, l);
    }
  }

  lemma ReadRecordsStep(cfg: Config, sys: Sys)
    requires SysInv(cfg, sys) && Allowed(cfg, sys, ReadRecords)
    ensures SysInv(cfg, Act(cfg, sys, ReadRecords)) && Advances(cfg, sys, Act(cfg, sys, ReadRecords))
  {
    hide *;
    var sys' := Act(cfg, sys, ReadRecords);
    ZoneIsThere(cfg, sys);
    ReadEffect(cfg, sys);
    if sys.flight.HasSettings? {
      ShortOfLargest(cfg, sys);
      ZoneRows(cfg, sys.db);
      RenderExactly(cfg, sys.flight.targets, sys.flight.row, Records(sys.db, cfg.zone), sys.now);
      SameStored(cfg, sys, sys');
      if sys'.flight.Rendered? {
        NoMoreFiles(cfg, sys, sys', sys'.flight.job.serial);
        RenderedFlight(cfg, sys', sys'.flight.job);
      } else {
        IdleFlight(cfg, sys');
      }
      ForwardStep(cfg, sys, sys');
    } else {
      StaysPut(cfg, sys);
    }
  }

  lemma ShortOfLargest(cfg: Config, sys: Sys)
    requires Allowed(cfg, sys, ReadRecords) && sys.flight.HasSettings?
    ensures sys.flight.row.soa.serial < WORD - 1
  {
  }

  lemma ZoneRows(cfg: Config, db: Db)
    requires ZoneInv(cfg, db)
    ensures StorableRows(Records(db, cfg.zone)) && RowsSorted(Records(db, cfg.zone))
  {
    RecordsStorable(db, cfg.zone);
    hide Records, StorableRows, RowsSorted, Integrity, IsPublished, SafeSettings;
  }

  lemma JobOldSerial(cfg: Config, job: Job)
    requires JobInv(cfg, job)
    ensures job.oldSerial == job.row.soa.serial < job.serial
  {
  }

  lemma PushEffect(cfg: Config, sys: Sys, env: Env, schedule: seq<Thread>)
    requires sys.flight.Rendered? && Fits(cfg, sys, sys.flight.job, env)
    ensures var sys', st := Act(cfg, sys, Push(env, schedule)), Run(env, Init(env), schedule);
            && sys' == sys.(files := st.files, flight := sys'.flight)
            && (sys'.flight == Idle || (sys'.flight == Moved(sys.flight.job) && st.AllMoved()))
    ensures env.Valid() && env.req.content == sys.flight.job.content && env.files == sys.files
  {
    hide Run, Init, Env.Valid;
  }

  lemma TargetsHold(cfg: Config, sys: Sys, job: Job)
    requires forall t <- job.targets :: Lookup(sys.files, TargetLoc(cfg, t)) == Some(job.content)
    ensures EveryTargetHolds(cfg, sys, job)
  {
  }

  lemma PushRendered(cfg: Config, sys: Sys, env: Env, schedule: seq<Thread>)
    requires SysInv(cfg, sys) && sys.flight.Rendered? && Fits(cfg, sys, sys.flight.job, env)
    ensures var sys' := Act(cfg, sys, Push(env, schedule)); SysInv(cfg, sys') && Advances(cfg, sys, sys')
  {
    hide *;
    var job, sys' := sys.flight.job, Act(cfg, sys, Push(env, schedule));
    PushEffect(cfg, sys, env, schedule);
    RenderedFacts(cfg, sys);
    JobText(cfg, job);
    forall l | IsLive(cfg, l) ensures Lookup(sys'.files, l) in {Lookup(sys.files, l), Some(job.content)} {
      PushedFiles(cfg, env, schedule, l);
    }
    if sys'.flight != Idle {
      PushedEverywhere(cfg, sys, job, env, schedule);
      TargetsHold(cfg, sys', job);
    }
    PushedSerials(cfg, sys, sys', job);
  }

  lemma NoPush(cfg: Config, sys: Sys, env: Env, schedule: seq<Thread>)
    requires !sys.flight.Rendered? || !Fits(cfg, sys, sys.flight.job, env)
    ensures Act(cfg, sys, Push(env, schedule)) == sys
  {
    hide Run, Init, Fits;
  }

  /** Pushing, wherever it stops and whatever it reports, keeps every live file within the
      next serial and only replaces it by a newer one. */
  lemma PushStep(cfg: Config, sys: Sys, env: Env, schedule: seq<Thread>)
    requires SysInv(cfg, sys)
    ensures var sys' := Act(cfg, sys, Push(env, schedule)); SysInv(cfg, sys') && Advances(cfg, sys, sys')
  {
    hide *;
    if sys.flight.Rendered? && Fits(cfg, sys, sys.flight.job, env) {
      PushRendered(cfg, sys, env, schedule);
    } else {
      NoPush(cfg, sys, env, schedule);
      StaysPut(cfg, sys);
    }
  }

  lemma RenderedFacts(cfg: Config, sys: Sys)
    requires SysInv(cfg, sys) && sys.flight.Rendered?
    ensures JobInv(cfg, sys.flight.job) && Faithful(cfg, sys.flight.job)
  {
    hide ZoneInv, LiveAtMost, Faithful, Base, NextNat, ClockInRange;
  }

  lemma StaysPut(cfg: Config, sys: Sys)
    requires SysInv(cfg, sys)
    ensures cfg.zone in sys.db.zones && Advances(cfg, sys, sys)
  {
    ZoneIsThere(cfg, sys);
    hide SysInv, IsLive, LiveSerial;
  }

  lemma PushedSerials(cfg: Config, sys: Sys, sys': Sys, job: Job)
    requires SysInv(cfg, sys) && sys.flight == Rendered(job)
    requires sys' == sys.(files := sys'.files, flight := sys'.flight)
    requires TextSerial(cfg, job.content) == Some(job.serial)
    requires forall l :: IsLive(cfg, l) ==> Lookup(sys'.files, l) in {Lookup(sys.files, l), Some(job.content)}
    requires sys'.flight == Idle || (sys'.flight == Moved(job) && EveryTargetHolds(cfg, sys', job))
    ensures SysInv(cfg, sys') && Advances(cfg, sys, sys')
  {
    ZoneIsThere(cfg, sys);
    hide ZoneInv, Base, NextNat, ClockInRange, TextSerial, IsLive, EveryTargetHolds;
    JobOldSerial(cfg, job);
    hide JobInv;
    PushedWithin(cfg, sys, sys', job);
    LiveAtMostWeakens(cfg, sys', job.serial, NextNat(Base(cfg.policy, sys.now), Stored(cfg, sys)));
    hide LiveAtMost;
  }

  lemma PushedWithin(cfg: Config, sys: Sys, sys': Sys, job: Job)
    requires cfg.zone in sys.db.zones && sys'.db == sys.db
    requires LiveAtMost(cfg, sys, job.serial) && Stored(cfg, sys) < job.serial
    requires TextSerial(cfg, job.content) == Some(job.serial)
    requires forall l :: IsLive(cfg, l) ==> Lookup(sys'.files, l) in {Lookup(sys.files, l), Some(job.content)}
    ensures LiveAtMost(cfg, sys', job.serial) && Advances(cfg, sys, sys')
  {
    hide TextSerial, IsLive;
    forall l | IsLive(cfg, l)
      ensures LiveSerial(cfg, sys', l).Some? ==> LiveSerial(cfg, sys', l).value <= job.serial
      ensures Lookup(sys'.files, l) == Lookup(sys.files, l) || LiveSerial(cfg, sys', l) == Some(job.serial)
    {
      assert Lookup(sys'.files, l) in {Lookup(sys.files, l), Some(job.content)};
    }
  }

  lemma LiveAtMostWeakens(cfg: Config, sys: Sys, bound: int, bound': int)
    requires LiveAtMost(cfg, sys, bound) && bound <= bound'
    ensures LiveAtMost(cfg, sys, bound')
  {
  }

  lemma ZoneIsThere(cfg: Config, sys: Sys)
    requires SysInv(cfg, sys)
    ensures cfg.zone in sys.db.zones && ZoneInv(cfg, sys.db)
  {
  }

  lemma SerialBelowJob(cfg: Config, sys: Sys, job: Job)
    requires SysInv(cfg, sys) && sys.flight == Moved(job)
    ensures cfg.zone in sys.db.zones && sys.db.zones[cfg.zone].soa.serial < job.serial
  {
    ZoneIsThere(cfg, sys);
    hide ZoneInv, LiveAtMost, EveryTargetHolds, JobInv;
    JobOldSerial(cfg, job);
  }

  lemma WriteSerialStep(cfg: Config, sys: Sys)
    requires SysInv(cfg, sys) && sys.flight.Moved?
    ensures SysInv(cfg, Act(cfg, sys, WriteSerial)) && Advances(cfg, sys, Act(cfg, sys, WriteSerial))
  {
    hide ZoneInv, LiveAtMost, JobInv, EveryTargetHolds, FlightInv, SysInv, Exec, SnapsOf, Run, Init, Render,
         BuildFrom, Records, SplitTargets, LastSnapshot, IsPublished;
    ZoneIsThere(cfg, sys);
    var job := sys.flight.job;
    var sys' := sys.(db := Exec(sys.db, SetSerial(cfg.zone, job.serial)), flight := SerialSet(job));
    assert Act(cfg, sys, WriteSerial) == sys';
    SerialBelowJob(cfg, sys, job);
    SetSerialZone(cfg, sys.db, job.serial);
    SerialSetFlight(cfg, sys, sys', job);
    hide *;
    ForwardStep(cfg, sys, sys');
  }

  lemma MovedFacts(cfg: Config, sys: Sys, job: Job)
    requires SysInv(cfg, sys) && sys.flight == Moved(job)
    ensures JobInv(cfg, job) && EveryTargetHolds(cfg, sys, job)
    ensures cfg.zone in sys.db.zones && Stored(cfg, sys) < job.serial
  {
    SerialBelowJob(cfg, sys, job);
    hide ZoneInv, LiveAtMost, EveryTargetHolds, JobInv;
  }

  lemma SerialSetFlight(cfg: Config, sys: Sys, sys': Sys, job: Job)
    requires SysInv(cfg, sys) && sys.flight == Moved(job) && sys'.flight == SerialSet(job) && sys'.files == sys.files
    requires cfg.zone in sys'.db.zones && Stored(cfg, sys') == job.serial
    requires forall s <- SnapsOf(sys'.db, cfg.zone) :: s.serial < job.serial
    ensures cfg.zone in sys.db.zones && FlightInv(cfg, sys') && Stored(cfg, sys) <= Stored(cfg, sys')
  {
    hide SysInv, JobInv, LiveAtMost, SnapsOf, EveryTargetHolds, IsLive;
    MovedFacts(cfg, sys, job);
    assert SameLiveFiles(cfg, sys, sys');
    SameTargetsHold(cfg, sys, sys', job);
  }

  lemma SetSerialZone(cfg: Config, db: Db, serial: uint32)
    requires ZoneInv(cfg, db) && db.zones[cfg.zone].soa.serial < serial
    ensures ZoneInv(cfg, Exec(db, SetSerial(cfg.zone, serial)))
    ensures forall s <- SnapsOf(Exec(db, SetSerial(cfg.zone, serial)), cfg.zone) :: s.serial < serial
    ensures cfg.zone in Exec(db, SetSerial(cfg.zone, serial)).zones
    ensures Exec(db, SetSerial(cfg.zone, serial)).zones[cfg.zone].soa.serial == serial
  {
    ExecKeepsIntegrity(db, SetSerial(cfg.zone, serial));
    SafeIgnoresNumbers(cfg.zone, db.zones[cfg.zone].soa, db.zones[cfg.zone].soa.(serial := serial));
    hide Integrity, IsPublished, SafeSettings;
  }

  lemma SerialIsJobs(cfg: Config, sys: Sys, job: Job)
    requires SysInv(cfg, sys) && sys.flight == SerialSet(job)
    ensures cfg.zone in sys.db.zones && sys.db.zones[cfg.zone].soa.serial == job.serial && JobInv(cfg, job)
    ensures Faithful(cfg, job)
  {
    ZoneIsThere(cfg, sys);
    hide ZoneInv, LiveAtMost, EveryTargetHolds, Faithful, SnapsOf;
  }

  lemma WriteSnapshotStep(cfg: Config, sys: Sys)
    requires SysInv(cfg, sys) && sys.flight.SerialSet?
    ensures SysInv(cfg, Act(cfg, sys, WriteSnapshot)) && Advances(cfg, sys, Act(cfg, sys, WriteSnapshot))
  {
    hide ZoneInv, LiveAtMost, JobInv, EveryTargetHolds, FlightInv, SysInv, Exec, SnapsOf, Run, Init, Render,
         BuildFrom, Records, SplitTargets, LastSnapshot, IsPublished;
    ZoneIsThere(cfg, sys);
    var job := sys.flight.job;
    var sys' := sys.(db := Exec(sys.db, InsertSnapshot(cfg.zone, job.serial, job.content)), flight := Snapshotted(job));
    assert Act(cfg, sys, WriteSnapshot) == sys';
    SerialIsJobs(cfg, sys, job);
    JobText(cfg, job);
    SnapshotZone(cfg, sys.db, job.serial, job.content);
    SnapshottedFlight(cfg, sys, sys', job);
    hide *;
    ForwardStep(cfg, sys, sys');
  }

  lemma SnapshottedFlight(cfg: Config, sys: Sys, sys': Sys, job: Job)
    requires SysInv(cfg, sys) && sys.flight == SerialSet(job) && sys'.flight == Snapshotted(job)
    requires sys'.files == sys.files
    requires sys'.db.zones == sys.db.zones
    requires LastSnapshot(sys'.db, cfg.zone).Some?
    requires LastSnapshot(sys'.db, cfg.zone).value.content == job.content
    requires LastSnapshot(sys'.db, cfg.zone).value.serial == job.serial
    ensures FlightInv(cfg, sys') && Stored(cfg, sys) <= Stored(cfg, sys')
  {
    hide ZoneInv, JobInv, LiveAtMost, SnapsOf, EveryTargetHolds, LastSnapshot;
    SameTargetsHold(cfg, sys, sys', job) by { assert SameLiveFiles(cfg, sys, sys'); }
  }

  lemma InsertedLast(db: Db, zone: string, serial: uint32, content: string)
    requires zone in db.zones
    ensures var db' := Exec(db, InsertSnapshot(zone, serial, content));
            && db'.zones == db.zones && db'.records == db.records && db'.keep == db.keep
            && SnapsOf(db', zone) == SnapsOf(db, zone) + [SnapRow(db.lastSnap + 1, zone, serial, content)]
            && LastSnapshot(db', zone) == Some(SnapRow(db.lastSnap + 1, zone, serial, content))
  {
    FilterSnoc(db.snapshots, SnapRow(db.lastSnap + 1, zone, serial, content), SnapIn(zone));
  }

  lemma SnapshotZone(cfg: Config, db: Db, serial: uint32, content: string)
    requires ZoneInv(cfg, db) && db.zones[cfg.zone].soa.serial == serial && IsPublished(cfg.zone, serial, content)
    ensures var db' := Exec(db, InsertSnapshot(cfg.zone, serial, content));
            && ZoneInv(cfg, db') && db'.zones == db.zones
            && LastSnapshot(db', cfg.zone) == Some(SnapRow(db.lastSnap + 1, cfg.zone, serial, content))
  {
    ExecKeepsIntegrity(db, InsertSnapshot(cfg.zone, serial, content));
    InsertedLast(db, cfg.zone, serial, content);
    hide Integrity, IsPublished, Exec, SnapsOf, LastSnapshot;
  }

  lemma PruneZone(cfg: Config, db: Db)
    requires ZoneInv(cfg, db)
    ensures var db' := Exec(db, PruneSnapshots(cfg.zone));
            && ZoneInv(cfg, db') && db'.zones == db.zones && db'.records == db.records
            && LastSnapshot(db', cfg.zone) == LastSnapshot(db, cfg.zone)
            && SnapsOf(db', cfg.zone) == Last(SnapsOf(db, cfg.zone), db.keep)
  {
    hide Integrity, IsPublished, Filter, SnapsOf, SafeSettings, StorableZone;
    var db' := Exec(db, PruneSnapshots(cfg.zone));
    assert db'.zones == db.zones && db'.records == db.records && db'.keep == db.keep;
    SameRowsStorable(db, db', cfg.zone);
    hide Exec;
    ExecKeepsIntegrity(db, PruneSnapshots(cfg.zone));
    IntegrityParts(db);
    PruneKeepsNewest(db, cfg.zone);
  }

  lemma SameRowsStorable(a: Db, b: Db, zone: string)
    requires a.records == b.records && StorableZone(a, zone)
    ensures StorableZone(b, zone)
  {
  }

  lemma IdleFlight(cfg: Config, sys: Sys)
    requires cfg.zone in sys.db.zones && sys.flight.Idle?
    ensures FlightInv(cfg, sys)
  {
  }

  lemma PruneStep(cfg: Config, sys: Sys)
    requires SysInv(cfg, sys) && sys.flight.Snapshotted?
    ensures SysInv(cfg, Act(cfg, sys, Prune)) && Advances(cfg, sys, Act(cfg, sys, Prune))
  {
    hide ZoneInv, LiveAtMost, JobInv, EveryTargetHolds, FlightInv, SysInv, Exec, SnapsOf, Run, Init, Render,
         BuildFrom, Records, SplitTargets, LastSnapshot, IsPublished;
    ZoneIsThere(cfg, sys);
    var sys' := sys.(db := Exec(sys.db, PruneSnapshots(cfg.zone)), flight := Idle);
    assert Act(cfg, sys, Prune) == sys';
    PruneZone(cfg, sys.db);
    IdleFlight(cfg, sys');
    ForwardStep(cfg, sys, sys');
  }

  lemma ReadingEffect(cfg: Config, sys: Sys, a: Action)
    requires a.OpenDeploy? || a.ReadSettings? || a.Abandon?
    ensures Act(cfg, sys, a) == sys.(flight := Act(cfg, sys, a).flight)
  {
    hide SplitTargets;
  }

  lemma ReadingStep(cfg: Config, sys: Sys, a: Action)
    requires SysInv(cfg, sys) && (a.OpenDeploy? || a.ReadSettings? || a.Abandon?)
    ensures SysInv(cfg, Act(cfg, sys, a)) && Advances(cfg, sys, Act(cfg, sys, a))
  {
    hide *;
    ZoneIsThere(cfg, sys);
    ReadingEffect(cfg, sys, a);
    ReadingFlight(cfg, sys, a);
    SameStored(cfg, sys, Act(cfg, sys, a));
    ForwardStep(cfg, sys, Act(cfg, sys, a));
  }

  lemma SameStored(cfg: Config, a: Sys, b: Sys)
    requires cfg.zone in a.db.zones && b.db == a.db
    ensures Stored(cfg, b) == Stored(cfg, a)
  {
  }

  lemma ReadingFlight(cfg: Config, sys: Sys, a: Action)
    requires SysInv(cfg, sys) && (a.OpenDeploy? || a.ReadSettings? || a.Abandon?)
    ensures cfg.zone in sys.db.zones && FlightInv(cfg, sys.(flight := Act(cfg, sys, a).flight))
  {
    hide Integrity, StorableZone, IsPublished, Base, NextNat, ClockInRange, SnapsOf, JobInv, SplitTargets, LiveAtMost,
         SafeSettings, EveryTargetHolds;
  }

  /** Every allowed step keeps the invariant and only moves serials forward. */
  lemma ActKeepsInv(cfg: Config, sys: Sys, a: Action)
    requires SysInv(cfg, sys) && Allowed(cfg, sys, a)
    ensures SysInv(cfg, Act(cfg, sys, a)) && Advances(cfg, sys, Act(cfg, sys, a))
  {
    NotAfterItself(sys.now);
    match a
    case Tick(t) => QuietStep(cfg, sys, Act(cfg, sys, a));
    case Edit(stmt) =>
      EditKeepsZone(cfg, sys.db, stmt);
      hide Exec, ZoneInv, OrdinaryEdit;
      QuietStep(cfg, sys, Act(cfg, sys, a));
    case OpenDeploy => ReadingStep(cfg, sys, a);
    case ReadSettings => ReadingStep(cfg, sys, a);
    case ReadRecords => ReadRecordsStep(cfg, sys);
    case Push(env, schedule) => PushStep(cfg, sys, env, schedule);
    case WriteSerial => if sys.flight.Moved? { WriteSerialStep(cfg, sys); } else { QuietStep(cfg, sys, sys); }
    case WriteSnapshot => if sys.flight.SerialSet? { WriteSnapshotStep(cfg, sys); } else { QuietStep(cfg, sys, sys); }
    case Prune => if sys.flight.Snapshotted? { PruneStep(cfg, sys); } else { QuietStep(cfg, sys, sys); }
    case Abandon => ReadingStep(cfg, sys, a);
    case Foreign(env, schedule) =>
      var sys' := Act(cfg, sys, a);
      if env.Valid() && env.files == sys.files && env.req.zone != cfg.zone {
        forall l | IsLive(cfg, l) ensures Lookup(sys'.files, l) == Lookup(sys.files, l) {
          ForeignFiles(cfg, env, schedule, l);
        }
      }
      hide Run, Init, IsLive;
      QuietStep(cfg, sys, sys');
  }
}

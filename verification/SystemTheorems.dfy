/**
 What a maintainer may rely on over the runs in which serials are safe: they never go back on
 any server, what is published is what is stored, and a publish cut short is never reported
 clean; where such runs start; and what a restore does to serials.
 */
module SystemTheorems {
  import opened Text
  import opened Serial
  import opened Pipeline
  import opened ZoneText
  import opened Settings
  import opened UnknownTypes
  import opened Seqs
  import opened Store
  import opened StoreLaws
  import opened StoreTheorems
  import opened System
  import opened SystemLaws
  import opened Agreement

  // ---------------------------------------------------------------------
  // Serial safety over whole runs
  // ---------------------------------------------------------------------

  lemma AdvancesTransitive(cfg: Config, a: Sys, b: Sys, c: Sys)
    requires cfg.zone in a.db.zones && cfg.zone in b.db.zones && cfg.zone in c.db.zones
    requires Advances(cfg, a, b) && Advances(cfg, b, c)
    ensures Advances(cfg, a, c)
  {
    hide TextSerial, IsLive;
    forall l | IsLive(cfg, l)
      ensures Lookup(c.files, l) == Lookup(a.files, l)
           || (LiveSerial(cfg, c, l).Some? && LiveSerial(cfg, c, l).value > Stored(cfg, a)
               && (LiveSerial(cfg, a, l).Some? ==> LiveSerial(cfg, a, l).value <= LiveSerial(cfg, c, l).value))
    {
      assert Lookup(b.files, l) == Lookup(a.files, l) || LiveSerial(cfg, b, l).Some?;
      assert Lookup(c.files, l) == Lookup(b.files, l) || LiveSerial(cfg, c, l).Some?;
    }
  }

  lemma AllowedPrefix(cfg: Config, sys: Sys, actions: seq<Action>, k: nat)
    requires AllowedRun(cfg, sys, actions) && k <= |actions|
    ensures AllowedRun(cfg, sys, actions[..k])
  {
    hide Allowed, ActAll;
    forall j | 0 <= j < k ensures Allowed(cfg, ActAll(cfg, sys, actions[..k][..j]), actions[..k][j]) {
      assert actions[..k][..j] == actions[..j];
    }
  }

  lemma {:induction false} RunKeepsInv(cfg: Config, sys: Sys, actions: seq<Action>)
    requires SysInv(cfg, sys) && AllowedRun(cfg, sys, actions)
    ensures SysInv(cfg, ActAll(cfg, sys, actions))
    decreases |actions|
  {
    hide SysInv, Allowed, Act;
    if actions != [] {
      var k := |actions| - 1;
      AllowedPrefix(cfg, sys, actions, k);
      RunKeepsInv(cfg, sys, actions[..k]);
      ActKeepsInv(cfg, ActAll(cfg, sys, actions[..k]), actions[k]);
    }
  }

  lemma SerialNeverBackwards(cfg: Config, a: Sys, b: Sys, l: Loc)
    requires cfg.zone in a.db.zones && cfg.zone in b.db.zones && Advances(cfg, a, b) && IsLive(cfg, l)
    ensures LiveSerial(cfg, a, l).Some? ==>
              LiveSerial(cfg, b, l).Some? && LiveSerial(cfg, a, l).value <= LiveSerial(cfg, b, l).value
    ensures Lookup(b.files, l) != Lookup(a.files, l) ==>
              LiveSerial(cfg, b, l).Some? && Stored(cfg, a) < LiveSerial(cfg, b, l).value
  {
    hide TextSerial, IsLive;
  }

  /** Whole-run serial safety. Over any allowed run, between any two of its points, the stored
      serial never decreases, no live file of the zone loses or lowers its serial, and a live
      file that changed carries a serial above the one stored at the earlier point. Deploys may
      fail anywhere, half-finish, or die; moves may land and report an error. */
  lemma {:induction false} WholeRunSerialSafety(cfg: Config, sys: Sys, actions: seq<Action>, i: nat, j: nat)
    requires SysInv(cfg, sys) && AllowedRun(cfg, sys, actions) && i <= j <= |actions|
    ensures var a, b := ActAll(cfg, sys, actions[..i]), ActAll(cfg, sys, actions[..j]);
            && SysInv(cfg, a) && SysInv(cfg, b) && Advances(cfg, a, b)
    ensures var a, b := ActAll(cfg, sys, actions[..i]), ActAll(cfg, sys, actions[..j]);
            forall l :: IsLive(cfg, l) && LiveSerial(cfg, a, l).Some? ==>
              LiveSerial(cfg, b, l).Some? && LiveSerial(cfg, a, l).value <= LiveSerial(cfg, b, l).value
    decreases j
  {
    hide FlightInv, ZoneInv, LiveAtMost, ClockInRange, Act, Allowed, IsLive, TextSerial, Base, NextNat;
    var a, b := ActAll(cfg, sys, actions[..i]), ActAll(cfg, sys, actions[..j]);
    AllowedPrefix(cfg, sys, actions, i);
    RunKeepsInv(cfg, sys, actions[..i]);
    ZoneIsThere(cfg, a);
    if i == j {
      assert SameLiveFiles(cfg, a, a);
      SameFilesAdvance(cfg, a, a);
    } else {
      WholeRunSerialSafety(cfg, sys, actions, i, j - 1);
      var m := ActAll(cfg, sys, actions[..j - 1]);
      assert actions[..j][..j - 1] == actions[..j - 1];
      assert Allowed(cfg, m, actions[j - 1]);
      ActKeepsInv(cfg, m, actions[j - 1]);
      ZoneIsThere(cfg, m);
      ZoneIsThere(cfg, b);
      hide SysInv, LiveSerial;
      AdvancesTransitive(cfg, a, m, b);
    }
    hide *;
    ZoneIsThere(cfg, b);
    forall l | IsLive(cfg, l) && LiveSerial(cfg, a, l).Some?
      ensures LiveSerial(cfg, b, l).Some? && LiveSerial(cfg, a, l).value <= LiveSerial(cfg, b, l).value
    {
      SerialNeverBackwards(cfg, a, b, l);
    }
  }

  /** Past a published deploy serials strictly increase: at any later point each of its
      targets still holds exactly what was published or a file with a greater serial. */
  lemma PublishedIsPassed(cfg: Config, sys: Sys, actions: seq<Action>, i: nat, j: nat, target: string)
    requires SysInv(cfg, sys) && AllowedRun(cfg, sys, actions) && i <= j <= |actions|
    requires var a := ActAll(cfg, sys, actions[..i]); a.flight.Snapshotted? && target in a.flight.job.targets
    ensures var a, b := ActAll(cfg, sys, actions[..i]), ActAll(cfg, sys, actions[..j]);
            var l := TargetLoc(cfg, target);
            || Lookup(b.files, l) == Some(a.flight.job.content)
            || (LiveSerial(cfg, b, l).Some? && LiveSerial(cfg, b, l).value > a.flight.job.serial)
  {
    hide *;
    var a, b := ActAll(cfg, sys, actions[..i]), ActAll(cfg, sys, actions[..j]);
    WholeRunSerialSafety(cfg, sys, actions, i, j);
    TargetIsLive(cfg, target);
    SnapshottedFacts(cfg, a);
    ZoneIsThere(cfg, b);
    SerialNeverBackwards(cfg, a, b, TargetLoc(cfg, target));
  }

  lemma SnapshottedFacts(cfg: Config, sys: Sys)
    requires SysInv(cfg, sys) && sys.flight.Snapshotted?
    ensures var job := sys.flight.job;
            && cfg.zone in sys.db.zones && Stored(cfg, sys) == job.serial && JobInv(cfg, job) && ZoneInv(cfg, sys.db)
            && LastSnapshot(sys.db, cfg.zone).Some?
            && LastSnapshot(sys.db, cfg.zone).value.content == job.content
            && LastSnapshot(sys.db, cfg.zone).value.serial == job.serial
            && forall t <- job.targets :: Lookup(sys.files, TargetLoc(cfg, t)) == Some(job.content)
  {
    ZoneIsThere(cfg, sys);
    hide ZoneInv, LiveAtMost, JobInv, LastSnapshot;
  }

  /** In these runs what has just been published is what is stored. */
  lemma PublishedIsStored(cfg: Config, sys: Sys)
    requires SysInv(cfg, sys) && sys.flight.Snapshotted?
    ensures var sys' := Act(cfg, sys, Prune);
            var last := LastSnapshot(sys'.db, cfg.zone);
            && SysInv(cfg, sys') && cfg.zone in sys'.db.zones && last.Some?
            && last.value.serial == sys.flight.job.serial == Stored(cfg, sys')
            && last.value.content == sys.flight.job.content
  {
    hide *;
    SnapshottedFacts(cfg, sys);
    InvIsCoherent(cfg, sys);
    PruneStep(cfg, sys);
    PruneIsCoherent(cfg, sys);
    PruneEffect(cfg, sys);
    ZoneIsThere(cfg, Act(cfg, sys, Prune));
  }

  // ---------------------------------------------------------------------
  // Where runs start
  // ---------------------------------------------------------------------

  lemma NewZoneInv(cfg: Config, db: Db, stmt: Stmt)
    requires Integrity(db) && db.keep > 0 && cfg.zone !in db.zones
    requires (stmt.InsertZone? || stmt.ImportTx?) && stmt.zone == cfg.zone
    requires stmt.ImportTx? ==> AllStorable(stmt.recs)
    ensures var db' := Exec(db, stmt);
            && cfg.zone in db'.zones && db'.zones[cfg.zone] == stmt.row
            && SnapsOf(db', cfg.zone) == []
            && (ZoneInv(cfg, db') <==> SafeSettings(cfg.zone, stmt.row.soa))
  {
    var db' := Exec(db, stmt);
    ExecKeepsIntegrity(db, stmt);
    SnapsNeedZone(db, cfg.zone);
    assert SnapsOf(db', cfg.zone) == SnapsOf(db, cfg.zone) == [];
    hide SafeSettings, Storable, IsPublished, SnapsOf, IdsIncrease;
    assert StorableZone(db', cfg.zone);
  }

  lemma RestingInv(cfg: Config, sys: Sys)
    requires cfg.zone in sys.db.zones && ClockInRange(sys.now) && sys.flight.Idle?
    ensures SysInv(cfg, sys)
       <==> ZoneInv(cfg, sys.db) && LiveAtMost(cfg, sys, NextNat(Base(cfg.policy, sys.now), Stored(cfg, sys)))
  {
    hide ZoneInv, LiveAtMost, Base, NextNat, ClockInRange;
  }

  lemma SameFilesLive(cfg: Config, a: Sys, b: Sys, bound: int)
    requires a.files == b.files
    ensures LiveAtMost(cfg, a, bound) <==> LiveAtMost(cfg, b, bound)
  {
    hide IsLive, TextSerial;
    assert forall l :: LiveSerial(cfg, a, l) == LiveSerial(cfg, b, l);
  }

  /** A newly stored zone starts a run exactly when its settings are safe and no server has a
      file with a serial beyond the next one to be issued. */
  lemma NewZoneStarts(cfg: Config, sys: Sys, stmt: Stmt)
    requires Integrity(sys.db) && sys.db.keep > 0 && cfg.zone !in sys.db.zones && sys.flight.Idle?
    requires ClockInRange(sys.now)
    requires (stmt.InsertZone? || stmt.ImportTx?) && stmt.zone == cfg.zone
    requires stmt.ImportTx? ==> AllStorable(stmt.recs)
    ensures SysInv(cfg, sys.(db := Exec(sys.db, stmt)))
       <==> SafeSettings(cfg.zone, stmt.row.soa)
            && LiveAtMost(cfg, sys, NextNat(Base(cfg.policy, sys.now), stmt.row.soa.serial))
  {
    var sys' := sys.(db := Exec(sys.db, stmt));
    NewZoneInv(cfg, sys.db, stmt);
    hide *;
    RestingInv(cfg, sys');
    StoredRow(cfg, sys');
    SameFilesLive(cfg, sys', sys, NextNat(Base(cfg.policy, sys.now), stmt.row.soa.serial));
  }

  /** A zone created with settings the handler accepts, names on one line, starts a run exactly
      when no server has a file for it with a serial beyond the next; in particular where no
      server has any. */
  lemma CreatedZoneStarts(cfg: Config, sys: Sys, row: ZoneRow)
    requires Integrity(sys.db) && sys.db.keep > 0 && cfg.zone !in sys.db.zones && sys.flight.Idle?
    requires ClockInRange(sys.now)
    requires SafeSettings(cfg.zone, row.soa)
    ensures SysInv(cfg, sys.(db := Exec(sys.db, InsertZone(cfg.zone, row))))
       <==> LiveAtMost(cfg, sys, NextNat(Base(cfg.policy, sys.now), row.soa.serial))
    ensures (forall l :: IsLive(cfg, l) ==> l !in sys.files) ==>
              LiveAtMost(cfg, sys, NextNat(Base(cfg.policy, sys.now), row.soa.serial))
  {
    NewZoneStarts(cfg, sys, InsertZone(cfg.zone, row));
    hide SafeSettings, SysInv, IsLive, TextSerial, Base, NextNat, Integrity, ClockInRange, Exec;
  }

  /** The statement that stores an imported zone file. */
  function ImportOf(zone: string, content: string, targets: seq<string>): Stmt
    requires ParseText(content, zone).Ok? && HasSoa(ParseText(content, zone).value)
  {
    var z := ParseText(content, zone).value;
    ImportTx(zone, ZoneRow(WithDefaults(SoaOf(z)), JoinTargets(targets)), DataRecordsOf(z.records))
  }

  lemma ImportIsStorable(zone: string, content: string, targets: seq<string>)
    requires ParseText(content, zone).Ok? && HasSoa(ParseText(content, zone).value) && IsName(Fqdn(zone))
    ensures var stmt := ImportOf(zone, content, targets);
            && stmt.ImportTx? && stmt.zone == zone
            && stmt.row.soa.serial == SoaOf(ParseText(content, zone).value).serial
            && SafeSettings(zone, stmt.row.soa) && AllStorable(stmt.recs)
  {
    ParsedIsStorable(content, zone);
    var soa := SoaOf(ParseText(content, zone).value);
    SafeIgnoresNumbers(zone, soa, WithDefaults(soa));
    hide ParseText, SafeSettings, Storable, SoaOf, DataRecordsOf;
  }

  /** A zone already live on servers, once its file is imported, starts a run exactly when each
      live serial is at most the one the next deploy will issue. */
  lemma ImportedZoneStarts(cfg: Config, sys: Sys, content: string, targets: seq<string>)
    requires Integrity(sys.db) && sys.db.keep > 0 && cfg.zone !in sys.db.zones && sys.flight.Idle?
    requires ClockInRange(sys.now)
    requires ParseText(content, cfg.zone).Ok? && HasSoa(ParseText(content, cfg.zone).value) && IsName(Fqdn(cfg.zone))
    ensures var imported := SoaOf(ParseText(content, cfg.zone).value).serial;
            SysInv(cfg, sys.(db := Exec(sys.db, ImportOf(cfg.zone, content, targets))))
            <==> LiveAtMost(cfg, sys, NextNat(Base(cfg.policy, sys.now), imported))
  {
    hide *;
    ImportIsStorable(cfg.zone, content, targets);
    NewZoneStarts(cfg, sys, ImportOf(cfg.zone, content, targets));
  }

  // ---------------------------------------------------------------------
  // A publish cut short
  // ---------------------------------------------------------------------

  /** The stored serial has moved on and no snapshot carries it. */
  ghost predicate AheadOfSnapshots(cfg: Config, db: Db)
    requires cfg.zone in db.zones
  {
    forall s <- SnapsOf(db, cfg.zone) :: s.serial < db.zones[cfg.zone].soa.serial
  }

  lemma AheadIsDirty(cfg: Config, db: Db)
    requires StoreSound(cfg, db) && cfg.zone in db.zones && AheadOfSnapshots(cfg, db)
    ensures Dirty(db, cfg.zone)
  {
    if !Dirty(db, cfg.zone) {
      CleanMeansCurrent(cfg, db);
      NewestIsOne(db, cfg.zone);
      hide *;
      hide SnapsOf;
      assert false;
    }
  }

  lemma NewestIsOne(db: Db, zone: string)
    requires LastSnapshot(db, zone).Some?
    ensures LastSnapshot(db, zone).value in SnapsOf(db, zone)
  {
  }

  lemma AheadKept(cfg: Config, a: Db, b: Db)
    requires cfg.zone in a.zones && cfg.zone in b.zones && AheadOfSnapshots(cfg, a)
    requires forall s <- SnapsOf(b, cfg.zone) :: s in SnapsOf(a, cfg.zone)
    requires a.zones[cfg.zone].soa.serial <= b.zones[cfg.zone].soa.serial
    ensures AheadOfSnapshots(cfg, b)
  {
  }

  lemma StaysAhead(cfg: Config, sys: Sys, a: Action)
    requires SysInv(cfg, sys) && Allowed(cfg, sys, a) && !a.WriteSnapshot? && AheadOfSnapshots(cfg, sys.db)
    ensures cfg.zone in Act(cfg, sys, a).db.zones && AheadOfSnapshots(cfg, Act(cfg, sys, a).db)
  {
    hide FlightInv, LiveAtMost, Run, Init, ZoneInv, AheadOfSnapshots, Exec, SnapsOf, IsPublished, BuildFrom,
         OrdinaryEdit, ClockInRange, Base, NextNat;
    ZoneIsThere(cfg, sys);
    hide SysInv;
    match a
    case Edit(stmt) =>
      EditKeepsZone(cfg, sys.db, stmt);
      ZoneIsIn(cfg, Exec(sys.db, stmt));
      AheadKept(cfg, sys.db, Exec(sys.db, stmt));
    case Prune =>
      PruneZone(cfg, sys.db);
      LastMembers(SnapsOf(sys.db, cfg.zone), sys.db.keep);
      AheadKept(cfg, sys.db, Act(cfg, sys, a).db);
    case WriteSerial =>
      if sys.flight.Moved? {
        SerialBelowJob(cfg, sys, sys.flight.job);
        SetSerialZone(cfg, sys.db, sys.flight.job.serial);
        AheadIs(cfg, Exec(sys.db, SetSerial(cfg.zone, sys.flight.job.serial)));
      }
    case _ =>
  }

  lemma ZoneIsIn(cfg: Config, db: Db)
    requires ZoneInv(cfg, db)
    ensures cfg.zone in db.zones
  {
  }

  lemma AheadIs(cfg: Config, db: Db)
    requires cfg.zone in db.zones && forall s <- SnapsOf(db, cfg.zone) :: s.serial < db.zones[cfg.zone].soa.serial
    ensures AheadOfSnapshots(cfg, db)
  {
  }

  lemma LastMembers(snaps: seq<SnapRow>, k: nat)
    ensures forall s <- Last(snaps, k) :: s in snaps
  {
  }

  lemma SerialSetIsAhead(cfg: Config, sys: Sys)
    requires SysInv(cfg, sys) && sys.flight.SerialSet?
    ensures cfg.zone in sys.db.zones && AheadOfSnapshots(cfg, sys.db)
  {
    hide JobInv, LiveAtMost, EveryTargetHolds, SnapsOf, IsPublished, Integrity, Base, NextNat;
  }

  lemma {:induction false} RunStaysAhead(cfg: Config, sys: Sys, actions: seq<Action>)
    requires SysInv(cfg, sys) && sys.flight.SerialSet? && AllowedRun(cfg, sys, actions)
    requires forall a <- actions :: !a.WriteSnapshot?
    ensures var b := ActAll(cfg, sys, actions); cfg.zone in b.db.zones && AheadOfSnapshots(cfg, b.db)
    decreases |actions|
  {
    hide Act, SysInv, Allowed, AheadOfSnapshots;
    if actions == [] {
      SerialSetIsAhead(cfg, sys);
    } else {
      var k := |actions| - 1;
      AllowedPrefix(cfg, sys, actions, k);
      RunKeepsInv(cfg, sys, actions[..k]);
      forall a | a in actions[..k] ensures !a.WriteSnapshot? { assert a in actions; }
      RunStaysAhead(cfg, sys, actions[..k]);
      assert actions[k] in actions;
      StaysAhead(cfg, ActAll(cfg, sys, actions[..k]), actions[k]);
    }
  }

  /** If a publish stops after its serial update, the zone reads dirty from then on, through
      any further steps, until some deploy stores a snapshot. */
  lemma HalfDonePublishIsDirty(cfg: Config, sys: Sys, actions: seq<Action>)
    requires SysInv(cfg, sys) && sys.flight.SerialSet? && AllowedRun(cfg, sys, actions)
    requires forall a <- actions :: !a.WriteSnapshot?
    ensures var b := ActAll(cfg, sys, actions);
            SysInv(cfg, b) && cfg.zone in b.db.zones && AheadOfSnapshots(cfg, b.db) && Dirty(b.db, cfg.zone)
  {
    hide *;
    hide ActAll;
    var b := ActAll(cfg, sys, actions);
    RunKeepsInv(cfg, sys, actions);
    ZoneIsThere(cfg, b);
    RunStaysAhead(cfg, sys, actions);
    AheadIsDirty(cfg, b.db);
  }

  lemma PublishStatementsFindNothing(db: Db, zone: string, content: string, serial: uint32)
    requires Integrity(db) && zone !in db.zones
    ensures Exec(db, SetSerial(zone, serial)) == db
         && Exec(db, InsertSnapshot(zone, serial, content)) == db
         && Exec(db, PruneSnapshots(zone)) == db
  {
    FilterAll(db.snapshots, SnapKept(zone, NewestIds(db, zone))) by {
      assert forall s <- db.snapshots :: s.zone in db.zones;
    }
    hide Filter, NewestIds, Integrity;
  }

  /** Publishing to a zone that was deleted meanwhile changes nothing, wherever it stops. */
  lemma {:induction false} PublishToDeletedZone(db: Db, zone: string, content: string, serial: uint32, k: nat)
    requires Integrity(db) && zone !in db.zones && k <= 3
    ensures ExecAll(db, PublishStmts(zone, content, serial)[..k]) == db
  {
    PublishStatementsFindNothing(db, zone, content, serial);
    hide Exec, Integrity;
    if k > 0 {
      PublishToDeletedZone(db, zone, content, serial, k - 1);
      assert PublishStmts(zone, content, serial)[..k][..k - 1] == PublishStmts(zone, content, serial)[..k - 1];
    }
  }

  // ---------------------------------------------------------------------
  // After a restore
  // ---------------------------------------------------------------------

  /** Restoring sets the stored serial back to the snapshot's. The next deploy passes a serial
      that some server already has exactly when the policy's base does, or the restored
      serial is no lower. */
  lemma AfterRestore(policy: Policy, db: Db, s: SnapRow, now: Instant, live: uint32)
    requires Integrity(db) && s in db.snapshots && IsPublished(s.zone, s.serial, s.content) && s.serial < WORD - 1
    ensures var db' := RestoreSnapshot(db, s.zone, s.id);
            && s.zone in db'.zones
            && (NextSerial(policy, db'.zones[s.zone].soa.serial, now) > live
                <==> Base(policy, now) > live || s.serial >= live)
  {
    hide *;
    RestoreRoundTrip(db, s);
    NextSerialIsNextNat(policy, s.serial, now);
    NextNatPasses(Base(policy, now), s.serial, live);
  }

  lemma NextNatPasses(base: int, current: int, live: int)
    ensures NextNat(base, current) > live <==> base > live || current >= live
  {
  }
}

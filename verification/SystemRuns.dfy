/**
 The whole-run promises with no invariant among their premises: a zone is created or imported,
 and then any allowed run of requests, deploys and crashes follows.
 */
module SystemRuns {
  import opened Text
  import opened Serial
  import opened Pipeline
  import opened ZoneText
  import Settings
  import UnknownTypes
  import opened Store
  import opened StoreLaws
  import StoreTheorems
  import opened System
  import opened SystemLaws
  import opened Agreement
  import opened SystemTheorems
  import opened SystemRestores

  /** How a zone comes into the database. */
  datatype Start = ByCreation(row: ZoneRow) | ByImport(content: string, targets: seq<string>)

  /** Safe settings, as the create handler checks them; or a zone file that import takes, under
      a zone name that is one. */
  predicate Fit(cfg: Config, start: Start) {
    match start
    case ByCreation(row) => Settings.SafeSettings(cfg.zone, row.soa)
    case ByImport(content, _) =>
      ParseText(content, cfg.zone).Ok? && HasSoa(ParseText(content, cfg.zone).value) && IsName(Fqdn(cfg.zone))
  }

  function StartStmt(cfg: Config, start: Start): (stmt: Stmt)
    requires Fit(cfg, start)
    ensures (stmt.InsertZone? || stmt.ImportTx?) && stmt.zone == cfg.zone
  {
    match start
    case ByCreation(row) => InsertZone(cfg.zone, row)
    case ByImport(content, targets) => ImportOf(cfg.zone, content, targets)
  }

  /** A site on which the zone can start: the name is free. */
  ghost predicate Begins(cfg: Config, sys: Sys, start: Start) {
    && Fit(cfg, start)
    && Integrity(sys.db) && sys.db.keep > 0 && cfg.zone !in sys.db.zones && sys.flight.Idle?
  }

  /** One on which its serials are safe: no server has a file for it with a serial beyond the
      next one to be issued; in particular if none has any file. */
  ghost predicate Ready(cfg: Config, sys: Sys, start: Start) {
    && Begins(cfg, sys, start) && ClockInRange(sys.now)
    && LiveAtMost(cfg, sys, NextNat(Base(cfg.policy, sys.now), StartStmt(cfg, start).row.soa.serial))
  }

  function Started(cfg: Config, sys: Sys, start: Start): Sys
    requires Fit(cfg, start)
  {
    sys.(db := Exec(sys.db, StartStmt(cfg, start)))
  }

  /** What creation and import store. */
  lemma StartedCoherent(cfg: Config, sys: Sys, start: Start)
    requires Begins(cfg, sys, start)
    ensures Coherent(cfg, Started(cfg, sys, start)) && Started(cfg, sys, start).flight.Idle?
    ensures var db := Started(cfg, sys, start).db;
            cfg.zone in db.zones && db.zones[cfg.zone] == StartStmt(cfg, start).row && SnapsOf(db, cfg.zone) == []
  {
    if start.ByImport? { ImportIsStorable(cfg.zone, start.content, start.targets); }
    hide Settings.SafeSettings, ParseText, Integrity, StoreSound, Exec, SnapsOf, UnknownTypes.Storable, ImportOf,
         IsName;
    NewZoneInv(cfg, sys.db, StartStmt(cfg, start));
    NewZoneIsSound(cfg, Started(cfg, sys, start));
  }

  lemma NewZoneIsSound(cfg: Config, sys: Sys)
    requires ZoneInv(cfg, sys.db) && sys.flight.Idle?
    ensures Coherent(cfg, sys)
  {
    hide StoreSound;
  }

  lemma StartedInv(cfg: Config, sys: Sys, start: Start)
    requires Ready(cfg, sys, start)
    ensures SysInv(cfg, Started(cfg, sys, start)) && Started(cfg, sys, start).flight.Idle?
    ensures var db := Started(cfg, sys, start).db;
            cfg.zone in db.zones && db.zones[cfg.zone] == StartStmt(cfg, start).row && SnapsOf(db, cfg.zone) == []
  {
    if start.ByImport? { ImportIsStorable(cfg.zone, start.content, start.targets); }
    hide Settings.SafeSettings, ParseText, Integrity, ClockInRange, LiveAtMost, Base, NextNat, SysInv, Exec, SnapsOf,
         UnknownTypes.Storable, ImportOf, IsName;
    NewZoneInv(cfg, sys.db, StartStmt(cfg, start));
    NewZoneStarts(cfg, sys, StartStmt(cfg, start));
  }

  /** The state after a run from the start. */
  ghost function After(cfg: Config, sys: Sys, start: Start, actions: seq<Action>): Sys
    requires Fit(cfg, start)
  {
    ActAll(cfg, Started(cfg, sys, start), actions)
  }

  ghost predicate RunsFrom(cfg: Config, sys: Sys, start: Start, actions: seq<Action>) {
    Ready(cfg, sys, start) && AllowedRun(cfg, Started(cfg, sys, start), actions)
  }

  lemma RunsFromParts(cfg: Config, sys: Sys, start: Start, actions: seq<Action>)
    requires Fit(cfg, start) && RunsFrom(cfg, sys, start, actions)
    ensures Ready(cfg, sys, start) && AllowedRun(cfg, Started(cfg, sys, start), actions)
  {
    hide Fit, Started, AllowedRun;
  }

  lemma AfterInv(cfg: Config, sys: Sys, start: Start, actions: seq<Action>)
    requires Fit(cfg, start) && RunsFrom(cfg, sys, start, actions)
    ensures SysInv(cfg, After(cfg, sys, start, actions)) && cfg.zone in After(cfg, sys, start, actions).db.zones
  {
    hide *;
    RunsFromParts(cfg, sys, start, actions);
    AfterIs(cfg, sys, start, actions);
    StartedInv(cfg, sys, start);
    RunKeepsInv(cfg, Started(cfg, sys, start), actions);
    ZoneIsThere(cfg, After(cfg, sys, start, actions));
  }

  lemma AfterIs(cfg: Config, sys: Sys, start: Start, actions: seq<Action>)
    requires Fit(cfg, start)
    ensures After(cfg, sys, start, actions) == ActAll(cfg, Started(cfg, sys, start), actions)
  {
    hide ActAll, Fit, Started;
  }

  /** Any run of permitted steps from a start: rollbacks, deletions and new creations of the
      zone among them, and whatever files the servers hold. */
  ghost predicate Runs(cfg: Config, sys: Sys, start: Start, actions: seq<Action>) {
    Begins(cfg, sys, start) && PermittedRun(cfg, Started(cfg, sys, start), actions)
  }

  lemma RunsParts(cfg: Config, sys: Sys, start: Start, actions: seq<Action>)
    requires Fit(cfg, start) && Runs(cfg, sys, start, actions)
    ensures Begins(cfg, sys, start) && PermittedRun(cfg, Started(cfg, sys, start), actions)
  {
    hide Fit, Started, PermittedRun;
  }

  lemma AfterCoherent(cfg: Config, sys: Sys, start: Start, actions: seq<Action>)
    requires Fit(cfg, start) && Runs(cfg, sys, start, actions)
    ensures Coherent(cfg, After(cfg, sys, start, actions))
  {
    hide *;
    RunsParts(cfg, sys, start, actions);
    AfterIs(cfg, sys, start, actions);
    StartedCoherent(cfg, sys, start);
    RunIsCoherent(cfg, Started(cfg, sys, start), actions);
  }

  /** The runs in which serials are safe are among them. */
  lemma SafeRunsAreRuns(cfg: Config, sys: Sys, start: Start, actions: seq<Action>)
    requires Fit(cfg, start) && RunsFrom(cfg, sys, start, actions)
    ensures Runs(cfg, sys, start, actions)
  {
    var a := Started(cfg, sys, start);
    RunsFromParts(cfg, sys, start, actions);
    hide Fit, Started, Allowed, Permitted, Act, ActAll, SysInv, LiveAtMost, Integrity, ClockInRange;
    StartedInv(cfg, sys, start);
    forall k | 0 <= k < |actions| ensures Permitted(cfg, ActAll(cfg, a, actions[..k]), actions[k]) {
      AllowedPrefix(cfg, a, actions, k);
      RunKeepsInv(cfg, a, actions[..k]);
      ZoneIsThere(cfg, ActAll(cfg, a, actions[..k]));
      AllowedIsPermitted(cfg, ActAll(cfg, a, actions[..k]), actions[k]);
    }
  }

  /** From the start on, at every place where the zone's file may lie: once there is a serial
      there is one for good, it never decreases, and whenever the file changes between two
      points the new one is above the serial that was stored at the earlier point. */
  lemma LiveSerialsNeverDecrease(cfg: Config, sys: Sys, start: Start, actions: seq<Action>, i: nat, j: nat, l: Loc)
    requires Fit(cfg, start) && RunsFrom(cfg, sys, start, actions)
    requires i <= j <= |actions| && IsLive(cfg, l)
    ensures var a, b := After(cfg, sys, start, actions[..i]), After(cfg, sys, start, actions[..j]);
            && cfg.zone in a.db.zones && cfg.zone in b.db.zones && Stored(cfg, a) <= Stored(cfg, b)
            && (LiveSerial(cfg, a, l).Some? ==>
                  LiveSerial(cfg, b, l).Some? && LiveSerial(cfg, a, l).value <= LiveSerial(cfg, b, l).value)
            && (Lookup(b.files, l) != Lookup(a.files, l) ==>
                  LiveSerial(cfg, b, l).Some? && LiveSerial(cfg, b, l).value > Stored(cfg, a))
  {
    hide *;
    RunsFromParts(cfg, sys, start, actions);
    var a, b := After(cfg, sys, start, actions[..i]), After(cfg, sys, start, actions[..j]);
    AfterIs(cfg, sys, start, actions[..i]);
    AfterIs(cfg, sys, start, actions[..j]);
    StartedInv(cfg, sys, start);
    WholeRunSerialSafety(cfg, Started(cfg, sys, start), actions, i, j);
    ZoneIsThere(cfg, a);
    ZoneIsThere(cfg, b);
    SerialNeverBackwards(cfg, a, b, l);
    StoredAdvances(cfg, a, b);
  }

  lemma StoredAdvances(cfg: Config, a: Sys, b: Sys)
    requires cfg.zone in a.db.zones && cfg.zone in b.db.zones && Advances(cfg, a, b)
    ensures Stored(cfg, a) <= Stored(cfg, b)
  {
    hide IsLive, LiveSerial;
  }

  /** Whenever a deploy has just published and the zone was not deleted since, each of its
      targets holds exactly the newest snapshot, and the zone is dirty if and only if an edit
      since its reads changed what the database builds. */
  lemma PublishedEverywhereAlike(cfg: Config, sys: Sys, start: Start, actions: seq<Action>)
    requires Fit(cfg, start) && Runs(cfg, sys, start, actions)
    requires After(cfg, sys, start, actions).flight.Snapshotted?
    ensures var a := After(cfg, sys, start, actions);
            var b, job := Act(cfg, a, Prune), a.flight.job;
            var last := LastSnapshot(b.db, cfg.zone);
            && (NoDeletion(cfg, actions) ==> last.Some?)
            && (last.Some? ==>
                  && cfg.zone in b.db.zones && last.value.serial == job.serial
                  && (forall t <- job.targets :: Lookup(b.files, TargetLoc(cfg, t)) == Some(last.value.content))
                  && var rendered := BuildFrom(cfg.zone, job.row.(soa := job.row.soa.(serial := job.serial)), job.rows);
                  (Dirty(b.db, cfg.zone) <==> BuildDb(b.db, cfg.zone) != rendered))
  {
    hide *;
    var a := After(cfg, sys, start, actions);
    RunsParts(cfg, sys, start, actions);
    AfterCoherent(cfg, sys, start, actions);
    PruneIsCoherent(cfg, a);
    if NoDeletion(cfg, actions) {
      AfterIs(cfg, sys, start, actions);
      StartedCoherent(cfg, sys, start);
      RestHasNone(cfg, Started(cfg, sys, start));
      SnapshotStays(cfg, Started(cfg, sys, start), actions);
      SnapshotIsThere(cfg, a);
    }
    if LastSnapshot(a.db, cfg.zone).Some? { PublishAgreement(cfg, a); }
  }

  lemma RestHasNone(cfg: Config, sys: Sys)
    requires sys.flight.Idle?
    ensures SnapshotThere(cfg, sys)
  {
  }

  /** At every statement boundary of any run: no orphan is present, every snapshot is a text a
      deploy can have published, and a zone that reads clean is there, builds what its newest
      snapshot holds, and stores its serial. */
  lemma CleanThroughout(cfg: Config, sys: Sys, start: Start, actions: seq<Action>)
    requires Fit(cfg, start) && Runs(cfg, sys, start, actions)
    ensures var db := After(cfg, sys, start, actions).db;
            var last := LastSnapshot(db, cfg.zone);
            && Integrity(db)
            && (forall s <- SnapsOf(db, cfg.zone) :: StoreTheorems.IsPublished(cfg.zone, s.serial, s.content))
            && (!Dirty(db, cfg.zone)
                <==> last.Some? && BuildDb(db, cfg.zone) == ParseText(last.value.content, cfg.zone))
            && (!Dirty(db, cfg.zone) ==>
                  cfg.zone in db.zones && last.value.serial == db.zones[cfg.zone].soa.serial)
  {
    hide *;
    var b := After(cfg, sys, start, actions);
    AfterCoherent(cfg, sys, start, actions);
    CoherentParts(cfg, b);
    forall s | s in SnapsOf(b.db, cfg.zone) ensures StoreTheorems.IsPublished(cfg.zone, s.serial, s.content) {
      RetainedIsPublished(cfg, b.db, s);
    }
    CleanExactly(cfg, b.db);
    if !Dirty(b.db, cfg.zone) { CleanMeansCurrent(cfg, b.db); }
  }

  /** At no point is a snapshot ahead of the stored serial, an orphan present, or a zone with
      a half-done publish reported clean. */
  lemma StoreIsConsistentThroughout(cfg: Config, sys: Sys, start: Start, actions: seq<Action>)
    requires Fit(cfg, start) && RunsFrom(cfg, sys, start, actions)
    ensures var b := After(cfg, sys, start, actions);
            && Integrity(b.db) && cfg.zone in b.db.zones
            && (forall s <- SnapsOf(b.db, cfg.zone) :: s.serial <= Stored(cfg, b))
            && (b.flight.SerialSet? ==> Dirty(b.db, cfg.zone))
            && (!Dirty(b.db, cfg.zone) ==>
                  LastSnapshot(b.db, cfg.zone).Some? && LastSnapshot(b.db, cfg.zone).value.serial == Stored(cfg, b))
  {
    hide *;
    RunsFromParts(cfg, sys, start, actions);
    var b := After(cfg, sys, start, actions);
    AfterInv(cfg, sys, start, actions);
    ZoneIsThere(cfg, b);
    ZoneInvParts(cfg, b);
    if b.flight.SerialSet? {
      SerialSetIsAhead(cfg, b);
      AheadIsDirty(cfg, b.db);
    }
    if !Dirty(b.db, cfg.zone) {
      CleanMeansCurrent(cfg, b.db);
      StoredRow(cfg, b);
    }
  }

  lemma ZoneInvParts(cfg: Config, sys: Sys)
    requires ZoneInv(cfg, sys.db) && cfg.zone in sys.db.zones
    ensures Integrity(sys.db) && forall s <- SnapsOf(sys.db, cfg.zone) :: s.serial <= Stored(cfg, sys)
  {
    hide Integrity, SnapsOf, StoreTheorems.IsPublished, StorableZone, Settings.SafeSettings;
  }

  /** Every snapshot any run retains can be restored to the letter if and only if its mailbox
      holds no '@'; and none does if the address never holds two. */
  lemma SnapshotsRestoreThroughout(cfg: Config, sys: Sys, start: Start, actions: seq<Action>, s: SnapRow)
    requires Fit(cfg, start) && Runs(cfg, sys, start, actions)
    requires s in SnapsOf(After(cfg, sys, start, actions).db, cfg.zone)
    ensures Restores(cfg, After(cfg, sys, start, actions).db, s)
    ensures PlainMail(StartStmt(cfg, start).row) && (forall a <- actions :: PlainAction(cfg, a)) ==>
              '@' !in TextMailbox(cfg.zone, s.content)
  {
    hide *;
    RunsParts(cfg, sys, start, actions);
    AfterIs(cfg, sys, start, actions);
    StartedCoherent(cfg, sys, start);
    EverySnapshotRestores(cfg, Started(cfg, sys, start), actions, s);
    if PlainMail(StartStmt(cfg, start).row) && forall a <- actions :: PlainAction(cfg, a) {
      StartedPlain(cfg, sys, start);
      PlainSnapshotsRestore(cfg, Started(cfg, sys, start), actions, s);
    }
  }

  lemma StartedPlain(cfg: Config, sys: Sys, start: Start)
    requires Begins(cfg, sys, start) && PlainMail(StartStmt(cfg, start).row)
    ensures Plain(cfg, Started(cfg, sys, start))
  {
    StartedCoherent(cfg, sys, start);
    hide PlainMail, Fit, StartStmt, Started, Coherent, SnapsOf, Begins;
  }
}

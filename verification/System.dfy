/**
 One zone's whole life: the shared database, the servers' files, the clock and the deploy in
 flight, with every query, statement and pipeline run of handleDeploy (internal/web/zones.go)
 as a separate step that other requests may slip between.
 */
module System {
  import opened Text
  import opened Serial
  import opened Remote
  import opened Pipeline
  import opened ZoneText
  import ZoneLaws
  import Settings
  import UnknownTypes
  import opened Store
  import StoreLaws
  import StoreTheorems

  // ---------------------------------------------------------------------
  // State
  // ---------------------------------------------------------------------

  /** The zone under consideration and the service configuration. */
  datatype Config = Config(zone: string, policy: Policy, servers: map<string, Server>)

  /** What a deploy carries once its content is rendered: the target names, settings row and
      record rows it read, and the text and serial it made of them. */
  datatype Job = Job(targets: seq<string>, row: ZoneRow, rows: seq<RecordRow>, content: string,
                     oldSerial: uint32, serial: uint32)

  /** How far the zone's deploy has come; at most one is in flight. */
  datatype Flight =
    | Idle
    | Opened(targets: seq<string>)
    | HasSettings(targets: seq<string>, row: ZoneRow)
    | Rendered(job: Job)
    | Moved(job: Job)
    | SerialSet(job: Job)
    | Snapshotted(job: Job)

  datatype Sys = Sys(db: Db, files: Files, now: Instant, flight: Flight)

  datatype Action =
    | Tick(t: Instant)
    | Edit(stmt: Stmt)
    | OpenDeploy
    | ReadSettings
    | ReadRecords
    | Push(env: Env, schedule: seq<Thread>)
    | WriteSerial
    | WriteSnapshot
    | Prune
    | Abandon
    | Foreign(env: Env, schedule: seq<Thread>)

  // ---------------------------------------------------------------------
  // Steps
  // ---------------------------------------------------------------------

  /** The rendered content and serials for the rows read, if they build. */
  function Render(cfg: Config, targets: seq<string>, row: ZoneRow, rows: seq<RecordRow>, now: Instant): Option<Job> {
    var built := BuildFrom(cfg.zone, row, rows);
    if built.Err? || !HasSoa(built.value) then None
    else
      var current := SoaOf(built.value).serial;
      var serial := NextSerial(cfg.policy, current, now);
      Some(Job(targets, row, rows, RenderText(WithSerial(built.value, serial)), current, serial))
  }

  /** The environment of a pipeline run for this job on the present files. */
  ghost predicate Fits(cfg: Config, sys: Sys, job: Job, env: Env) {
    && env.Valid()
    && env.req == Request(cfg.zone, job.content, job.oldSerial, job.serial, job.targets)
    && env.servers == cfg.servers && env.files == sys.files
  }

  /** One step. A pipeline run whose schedule stops early is a process that died on the way;
      only a returned run that moved everywhere goes on to publish. */
  ghost function Act(cfg: Config, sys: Sys, a: Action): Sys {
    match a
    case Tick(t) => sys.(now := t)
    case Edit(stmt) => sys.(db := Exec(sys.db, stmt))
    case OpenDeploy =>
      if sys.flight.Idle? && cfg.zone in sys.db.zones
      then sys.(flight := Opened(SplitTargets(sys.db.zones[cfg.zone].targets))) else sys
    case ReadSettings =>
      if !sys.flight.Opened? then sys
      else if cfg.zone !in sys.db.zones then sys.(flight := Idle)
      else sys.(flight := HasSettings(sys.flight.targets, sys.db.zones[cfg.zone]))
    case ReadRecords =>
      if !sys.flight.HasSettings? then sys
      else
        var job := Render(cfg, sys.flight.targets, sys.flight.row, Records(sys.db, cfg.zone), sys.now);
        sys.(flight := if job.None? then Idle else Rendered(job.value))
    case Push(env, schedule) =>
      if !sys.flight.Rendered? || !Fits(cfg, sys, sys.flight.job, env) then sys
      else
        var st := Run(env, Init(env), schedule);
        sys.(files := st.files, flight := if st.phase.Returned? && st.AllMoved() then Moved(sys.flight.job) else Idle)
    case WriteSerial =>
      if !sys.flight.Moved? then sys
      else if cfg.zone !in sys.db.zones then sys.(flight := Idle)
      else sys.(db := Exec(sys.db, SetSerial(cfg.zone, sys.flight.job.serial)), flight := SerialSet(sys.flight.job))
    case WriteSnapshot =>
      if !sys.flight.SerialSet? then sys
      else if cfg.zone !in sys.db.zones then sys.(flight := Idle)
      else sys.(db := Exec(sys.db, InsertSnapshot(cfg.zone, sys.flight.job.serial, sys.flight.job.content)),
                flight := Snapshotted(sys.flight.job))
    case Prune =>
      if !sys.flight.Snapshotted? then sys
      else sys.(db := Exec(sys.db, PruneSnapshots(cfg.zone)), flight := Idle)
    case Abandon => sys.(flight := Idle)
    case Foreign(env, schedule) =>
      if !env.Valid() || env.files != sys.files || env.req.zone == cfg.zone then sys
      else sys.(files := Run(env, Init(env), schedule).files)
  }

  ghost function ActAll(cfg: Config, sys: Sys, actions: seq<Action>): Sys
    decreases |actions|
  {
    if actions == [] then sys
    else Act(cfg, ActAll(cfg, sys, actions[..|actions| - 1]), actions[|actions| - 1])
  }

  // ---------------------------------------------------------------------
  // Runs under consideration
  // ---------------------------------------------------------------------

  /** Requests that may touch the zone besides its deploys: all there are. Settings must be
      ones that the handler's own check accepts, with no line break in a name and no comment
      sign in those of the SOA; rows such as the record handlers store. The zone may be rolled
      back, deleted and created again. */
  ghost predicate PermittedEdit(cfg: Config, db: Db, stmt: Stmt) {
    stmt.zone == cfg.zone ==>
      match stmt
      case InsertZone(_, row) => cfg.zone in db.zones || Settings.SafeSettings(cfg.zone, row.soa)
      case ImportTx(_, row, recs) =>
        cfg.zone in db.zones || (Settings.SafeSettings(cfg.zone, row.soa) && UnknownTypes.AllStorable(recs))
      case UpdateSettings(_, row) => Settings.SafeSettings(cfg.zone, row.soa)
      case InsertRecord(_, rec) => UnknownTypes.Storable(rec)
      case UpdateRecord(_, _, rec) => UnknownTypes.Storable(rec)
      case RestoreTx(_, soa, recs) => Settings.SafeSettings(cfg.zone, soa) && UnknownTypes.AllStorable(recs)
      case InsertSnapshot(_, _, _) => false
      case _ => true
  }

  /** Deploys of other zones have live files of another name; the clock does as it likes. */
  ghost predicate Permitted(cfg: Config, sys: Sys, a: Action) {
    match a
    case Edit(stmt) => PermittedEdit(cfg, sys.db, stmt)
    case Foreign(env, _) => env.req.zone != cfg.zone ==> LiveName(env.req.zone) != LiveName(cfg.zone)
    case _ => true
  }

  ghost predicate PermittedRun(cfg: Config, sys: Sys, actions: seq<Action>) {
    forall k :: 0 <= k < |actions| ==> Permitted(cfg, ActAll(cfg, sys, actions[..k]), actions[k])
  }

  // Of these runs, those in which serials are safe.

  /** Of a zone that is there, anything but rollback, deletion and a serial written outside its
      deploys. */
  predicate OrdinaryEdit(cfg: Config, stmt: Stmt) {
    stmt.zone == cfg.zone ==>
      match stmt
      case UpdateSettings(_, row) => Settings.SafeSettings(cfg.zone, row.soa)
      case InsertRecord(_, rec) => UnknownTypes.Storable(rec)
      case UpdateRecord(_, _, rec) => UnknownTypes.Storable(rec)
      case DeleteRecord(_, _) => true
      case InsertZone(_, _) => true
      case ImportTx(_, _, _) => true
      case _ => false
  }

  /** The clock does not go back, no serial is about to wrap, and the other zones deployed
      have live files of another name. */
  ghost predicate Allowed(cfg: Config, sys: Sys, a: Action) {
    match a
    case Tick(t) => ClockInRange(t) && NotAfter(sys.now, t)
    case Edit(stmt) => OrdinaryEdit(cfg, stmt)
    case ReadRecords => sys.flight.HasSettings? ==> sys.flight.row.soa.serial < WORD - 1
    case Foreign(env, _) => env.req.zone != cfg.zone ==> LiveName(env.req.zone) != LiveName(cfg.zone)
    case _ => true
  }

  ghost predicate AllowedRun(cfg: Config, sys: Sys, actions: seq<Action>) {
    forall k :: 0 <= k < |actions| ==> Allowed(cfg, ActAll(cfg, sys, actions[..k]), actions[k])
  }

  // ---------------------------------------------------------------------
  // Live files
  // ---------------------------------------------------------------------

  /** A place where the zone's live file may lie, on any server and in any directory. */
  ghost predicate IsLive(cfg: Config, l: Loc) {
    exists dir :: l.path == FinalPath(dir, ZoneFile(cfg.zone))
  }

  /** Where a target name's live file lies. */
  function TargetLoc(cfg: Config, target: string): Loc {
    var srv := if target in cfg.servers then cfg.servers[target] else Server("", "");
    Loc(srv.host, FinalPath(srv.zoneDir, ZoneFile(cfg.zone)))
  }

  /** The serial a zone-file text carries. */
  function TextSerial(cfg: Config, content: string): Option<uint32> {
    var p := ParseText(content, cfg.zone);
    if p.Ok? && HasSoa(p.value) then Some(SoaOf(p.value).serial) else None
  }

  function LiveSerial(cfg: Config, sys: Sys, l: Loc): Option<uint32> {
    if l in sys.files then TextSerial(cfg, sys.files[l]) else None
  }

  ghost predicate LiveAtMost(cfg: Config, sys: Sys, bound: int) {
    forall l :: IsLive(cfg, l) && LiveSerial(cfg, sys, l).Some? ==> LiveSerial(cfg, sys, l).value <= bound
  }

  ghost predicate EveryTargetHolds(cfg: Config, sys: Sys, job: Job) {
    forall t <- job.targets :: Lookup(sys.files, TargetLoc(cfg, t)) == Some(job.content)
  }

  // ---------------------------------------------------------------------
  // The invariant
  // ---------------------------------------------------------------------

  function Stored(cfg: Config, sys: Sys): uint32
    requires cfg.zone in sys.db.zones
  {
    sys.db.zones[cfg.zone].soa.serial
  }

  /** What the tables keep of the zone, whether it is there or not. */
  ghost predicate StoreSound(cfg: Config, db: Db) {
    && StoreLaws.Integrity(db) && db.keep > 0
    && (cfg.zone in db.zones ==> Settings.SafeSettings(cfg.zone, db.zones[cfg.zone].soa))
    && StorableZone(db, cfg.zone)
    && forall s <- SnapsOf(db, cfg.zone) :: StoreTheorems.IsPublished(cfg.zone, s.serial, s.content)
  }

  ghost predicate ZoneInv(cfg: Config, db: Db) {
    && StoreSound(cfg, db)
    && cfg.zone in db.zones
    && forall s <- SnapsOf(db, cfg.zone) :: s.serial <= db.zones[cfg.zone].soa.serial
  }

  ghost predicate StorableZone(db: Db, zone: string) {
    forall r <- db.records :: r.zone == zone ==> UnknownTypes.Storable(r.rec)
  }

  /** The job is a faithful rendering of canonical rows it read. */
  ghost predicate Faithful(cfg: Config, job: Job) {
    && ZoneLaws.GoodSettings(cfg.zone, job.row.soa)
    && StoreTheorems.CanonicalRows(job.rows) && StoreTheorems.RowsSorted(job.rows)
    && BuildFrom(cfg.zone, job.row, job.rows).Ok? && HasSoa(BuildFrom(cfg.zone, job.row, job.rows).value)
    && job.content == RenderText(WithSerial(BuildFrom(cfg.zone, job.row, job.rows).value, job.serial))
    && job.oldSerial == job.row.soa.serial
  }

  ghost predicate FlightSound(cfg: Config, sys: Sys) {
    match sys.flight
    case Idle => true
    case Opened(_) => true
    case HasSettings(_, row) => Settings.SafeSettings(cfg.zone, row.soa)
    case Rendered(job) => Faithful(cfg, job)
    case Moved(job) => Faithful(cfg, job) && EveryTargetHolds(cfg, sys, job)
    case SerialSet(job) => Faithful(cfg, job) && EveryTargetHolds(cfg, sys, job)
    case Snapshotted(job) =>
      && Faithful(cfg, job) && EveryTargetHolds(cfg, sys, job)
      && (LastSnapshot(sys.db, cfg.zone).Some? ==>
            && LastSnapshot(sys.db, cfg.zone).value.content == job.content
            && LastSnapshot(sys.db, cfg.zone).value.serial == job.serial)
  }

  /** Database, servers and the deploy in flight agree, whatever the serials are. */
  ghost predicate Coherent(cfg: Config, sys: Sys) {
    StoreSound(cfg, sys.db) && FlightSound(cfg, sys)
  }

  // Where serials are safe, more holds.

  /** A faithful job with a serial above the stored one at the time. */
  ghost predicate JobInv(cfg: Config, job: Job) {
    Faithful(cfg, job) && job.oldSerial < job.serial
  }

  ghost predicate FlightInv(cfg: Config, sys: Sys)
    requires cfg.zone in sys.db.zones
  {
    var stored := Stored(cfg, sys);
    match sys.flight
    case Idle => true
    case Opened(_) => true
    case HasSettings(_, row) => Settings.SafeSettings(cfg.zone, row.soa) && row.soa.serial == stored
    case Rendered(job) =>
      && JobInv(cfg, job) && job.oldSerial == stored
      && job.serial <= NextNat(Base(cfg.policy, sys.now), stored)
      && LiveAtMost(cfg, sys, job.serial)
    case Moved(job) =>
      && JobInv(cfg, job) && job.oldSerial == stored
      && job.serial <= NextNat(Base(cfg.policy, sys.now), stored)
      && LiveAtMost(cfg, sys, job.serial)
      && EveryTargetHolds(cfg, sys, job)
    case SerialSet(job) =>
      && JobInv(cfg, job) && job.serial == stored
      && EveryTargetHolds(cfg, sys, job)
      && (forall s <- SnapsOf(sys.db, cfg.zone) :: s.serial < stored)
    case Snapshotted(job) =>
      && JobInv(cfg, job) && job.serial == stored
      && EveryTargetHolds(cfg, sys, job)
      && LastSnapshot(sys.db, cfg.zone).Some?
      && LastSnapshot(sys.db, cfg.zone).value.content == job.content
      && LastSnapshot(sys.db, cfg.zone).value.serial == job.serial
  }

  /** No live file is ahead of what the next deploy would issue. */
  ghost predicate SysInv(cfg: Config, sys: Sys) {
    && ZoneInv(cfg, sys.db)
    && ClockInRange(sys.now)
    && LiveAtMost(cfg, sys, NextNat(Base(cfg.policy, sys.now), Stored(cfg, sys)))
    && FlightInv(cfg, sys)
  }

  /** From a to b the stored serial does not go back, and every live file is as it was or
      carries a serial above the one stored at a and not below its own at a. */
  ghost predicate Advances(cfg: Config, a: Sys, b: Sys)
    requires cfg.zone in a.db.zones && cfg.zone in b.db.zones
  {
    && Stored(cfg, a) <= Stored(cfg, b)
    && forall l :: IsLive(cfg, l) ==>
         || Lookup(b.files, l) == Lookup(a.files, l)
         || (LiveSerial(cfg, b, l).Some? && LiveSerial(cfg, b, l).value > Stored(cfg, a)
             && (LiveSerial(cfg, a, l).Some? ==> LiveSerial(cfg, a, l).value <= LiveSerial(cfg, b, l).value))
  }
}

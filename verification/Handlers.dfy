/**
 The handlers of internal/web/zones.go that change zones, over the store object, the zone
 object and the pipeline's arrays. Run without interference, handleDeploy is one run of the
 composed system, so the whole-run theorems speak about it.
 */
module Handlers {
  import opened Text
  import opened Serial
  import opened Pipeline
  import PipelineCode
  import opened ZoneText
  import opened ZoneLaws
  import opened Settings
  import opened UnknownTypes
  import ZoneModel
  import opened Seqs
  import opened Store
  import opened StoreLaws
  import StoreTheorems
  import opened StoreCode
  import opened System
  import opened SystemLaws
  import opened Agreement
  import opened SystemTheorems

  /** What a deploy request answers. */
  datatype Reply =
    | UnknownZone
    | NotDeployed(error: string)
    | Deployed(status: Status, promoted: bool)

  const READS: seq<Action> := [OpenDeploy, ReadSettings, ReadRecords]
  const PUBLISH: seq<Action> := [WriteSerial, WriteSnapshot, Prune]

  /** The steps a deploy request takes: it reads, then gives up or runs the pipeline, and
      publishes if every target moved. */
  predicate DeployRun(run: seq<Action>, reply: Reply) {
    match reply
    case UnknownZone => run == []
    case NotDeployed(_) => run == READS || run == READS + [Abandon]
    case Deployed(_, promoted) =>
      |run| >= 4 && run[3].Push? && run == READS + [run[3]] + (if promoted then PUBLISH else [])
  }

  /** A script and a distinct suffix for each target the zone has. */
  ghost predicate Scripted(db: Db, name: string, scripts: seq<Script>, suffixes: seq<string>) {
    && (name in db.zones ==> |SplitTargets(db.zones[name].targets)| == |scripts|)
    && |scripts| == |suffixes|
    && SuffixesOk(suffixes)
  }

  ghost predicate SuffixesOk(suffixes: seq<string>) {
    && (forall i :: 0 <= i < |suffixes| ==> |suffixes[i]| == 16)
    && (forall i, j :: 0 <= i < j < |suffixes| ==> suffixes[i] != suffixes[j])
  }

  /** A pipeline run of this environment that returned with this status, flags and files. */
  ghost predicate Outcome(env: Env, schedule: seq<Thread>, status: Status, moved: bool, files: Files)
    requires env.Valid()
  {
    var st := Run(env, Init(env), schedule);
    st.phase.Returned? && status == st.status && moved == st.AllMoved() && files == st.files
  }

  lemma ActAllSnoc(cfg: Config, sys: Sys, run: seq<Action>, a: Action)
    ensures ActAll(cfg, sys, run + [a]) == Act(cfg, ActAll(cfg, sys, run), a)
  {
    assert (run + [a])[..|run + [a]| - 1] == run;
  }

  function Rendering(cfg: Config, sys: Sys): Option<Job>
    requires cfg.zone in sys.db.zones
  {
    var row := sys.db.zones[cfg.zone];
    Render(cfg, SplitTargets(row.targets), row, Records(sys.db, cfg.zone), sys.now)
  }

  lemma ReadsRun(cfg: Config, sys: Sys)
    requires cfg.zone in sys.db.zones && sys.flight.Idle?
    ensures ActAll(cfg, sys, READS)
         == sys.(flight := if Rendering(cfg, sys).None? then Idle else Rendered(Rendering(cfg, sys).value))
  {
    hide Render, Records, SplitTargets, Run, Init, Fits;
    var row := sys.db.zones[cfg.zone];
    ActAllSnoc(cfg, sys, [], OpenDeploy);
    ActAllSnoc(cfg, sys, [OpenDeploy], ReadSettings);
    ActAllSnoc(cfg, sys, [OpenDeploy, ReadSettings], ReadRecords);
    assert [] + [OpenDeploy] == [OpenDeploy];
    assert [OpenDeploy] + [ReadSettings] == [OpenDeploy, ReadSettings];
    assert [OpenDeploy, ReadSettings] + [ReadRecords] == READS;
    assert ActAll(cfg, sys, []) == sys;
    assert ActAll(cfg, sys, [OpenDeploy]) == sys.(flight := Opened(SplitTargets(row.targets)));
    assert ActAll(cfg, sys, [OpenDeploy, ReadSettings]) == sys.(flight := HasSettings(SplitTargets(row.targets), row));
  }

  lemma RenderedJob(cfg: Config, sys: Sys)
    requires cfg.zone in sys.db.zones && Rendering(cfg, sys).Some?
    ensures Rendering(cfg, sys).value.targets == SplitTargets(sys.db.zones[cfg.zone].targets)
  {
    hide BuildFrom, RenderText;
  }

  lemma ScriptedTargets(db: Db, name: string, scripts: seq<Script>, suffixes: seq<string>)
    requires Scripted(db, name, scripts, suffixes) && name in db.zones
    ensures |SplitTargets(db.zones[name].targets)| == |scripts| == |suffixes| && SuffixesOk(suffixes)
  {
  }

  lemma PushRun(cfg: Config, sys: Sys, job: Job, env: Env, schedule: seq<Thread>)
    requires ActAll(cfg, sys, READS) == sys.(flight := Rendered(job)) && Fits(cfg, sys, job, env)
    ensures var st := Run(env, Init(env), schedule);
            (ActAll(cfg, sys, READS + [Push(env, schedule)])
             == sys.(files := st.files, flight := if st.phase.Returned? && st.AllMoved() then Moved(job) else Idle))
  {
    ActAllSnoc(cfg, sys, READS, Push(env, schedule));
    hide ActAll, Run, Init;
  }

  lemma AbandonRun(cfg: Config, sys: Sys, run: seq<Action>)
    ensures ActAll(cfg, sys, run + [Abandon]) == ActAll(cfg, sys, run).(flight := Idle)
  {
    ActAllSnoc(cfg, sys, run, Abandon);
    hide ActAll;
  }

  lemma PublishRun(cfg: Config, sys: Sys, run: seq<Action>)
    requires ActAll(cfg, sys, run).flight.Moved? && cfg.zone in ActAll(cfg, sys, run).db.zones
    ensures ActAll(cfg, sys, run + [WriteSerial, WriteSnapshot]).flight
         == Snapshotted(ActAll(cfg, sys, run).flight.job)
    ensures var a := ActAll(cfg, sys, run);
            var job := a.flight.job;
            var db1 := Exec(a.db, SetSerial(cfg.zone, job.serial));
            var db2 := Exec(db1, InsertSnapshot(cfg.zone, job.serial, job.content));
            (ActAll(cfg, sys, run + PUBLISH)
             == a.(db := Exec(db2, PruneSnapshots(cfg.zone)), flight := Idle))
  {
    hide *;
    var a := ActAll(cfg, sys, run);
    PublishSteps(run);
    ActAllSnoc(cfg, sys, run, WriteSerial);
    ActAllSnoc(cfg, sys, run + [WriteSerial], WriteSnapshot);
    ActAllSnoc(cfg, sys, run + [WriteSerial, WriteSnapshot], Prune);
    SerialKeepsZone(a.db, cfg.zone, a.flight.job.serial);
    SerialEffect(cfg, a);
    SnapshotEffect(cfg, Act(cfg, a, WriteSerial));
    PruneEffect(cfg, Act(cfg, Act(cfg, a, WriteSerial), WriteSnapshot));
  }

  lemma PublishSteps(run: seq<Action>)
    ensures run + [WriteSerial] + [WriteSnapshot] == run + [WriteSerial, WriteSnapshot]
    ensures run + [WriteSerial, WriteSnapshot] + [Prune] == run + PUBLISH
  {
  }

  lemma SerialKeepsZone(db: Db, zone: string, serial: uint32)
    requires zone in db.zones
    ensures zone in Exec(db, SetSerial(zone, serial)).zones
  {
  }

  /** A deploy request taking the system from a to b by this run: its own steps only; nothing
      changes unless the pipeline ran; status, flags and files are the pipeline's; and the
      publish happens, after its snapshot, exactly when every target moved. */
  ghost predicate Answers(cfg: Config, a: Sys, b: Sys, reply: Reply, run: seq<Action>) {
    && ActAll(cfg, a, run) == b
    && DeployRun(run, reply)
    && (reply.UnknownZone? <==> cfg.zone !in a.db.zones)
    && (!reply.Deployed? ==> b == a)
    && (reply.Deployed? ==>
          && run[3].env.Valid()
          && Outcome(run[3].env, run[3].schedule, reply.status, reply.promoted, b.files)
          && (if reply.promoted then
                var published := ActAll(cfg, a, run[..6]);
                published.flight.Snapshotted? && Act(cfg, published, Prune) == b
              else b.db == a.db))
  }

  lemma AnswerUnread(cfg: Config, a: Sys, error: string)
    requires cfg.zone in a.db.zones && a.flight.Idle? && Rendering(cfg, a).None?
    ensures Answers(cfg, a, a, NotDeployed(error), READS)
  {
    ReadsRun(cfg, a);
    hide ActAll, Act, Outcome;
  }

  lemma AnswerRejected(cfg: Config, a: Sys, error: string)
    requires cfg.zone in a.db.zones && a.flight.Idle? && Rendering(cfg, a).Some?
    ensures Answers(cfg, a, a, NotDeployed(error), READS + [Abandon])
  {
    hide ActAll, Act, Outcome, Rendering;
    assert ActAll(cfg, a, READS + [Abandon]) == a by {
      ReadsRun(cfg, a);
      AbandonRun(cfg, a, READS);
    }
  }

  /** The state after a pipeline run, published if it is to be. */
  ghost function Finished(cfg: Config, a: Sys, job: Job, files: Files, promoted: bool): Sys {
    var db1 := Exec(a.db, SetSerial(cfg.zone, job.serial));
    var db2 := Exec(db1, InsertSnapshot(cfg.zone, job.serial, job.content));
    a.(files := files, db := if promoted then Exec(db2, PruneSnapshots(cfg.zone)) else a.db)
  }

  lemma AnswerKept(cfg: Config, a: Sys, job: Job, env: Env, schedule: seq<Thread>, status: Status, files: Files)
    requires cfg.zone in a.db.zones && a.flight.Idle? && Rendering(cfg, a) == Some(job)
    requires Fits(cfg, a, job, env) && Outcome(env, schedule, status, false, files)
    ensures Answers(cfg, a, a.(files := files), Deployed(status, false), READS + [Push(env, schedule)])
  {
    hide ActAll, Act, Run, Init, Exec, Rendering;
    var run := READS + [Push(env, schedule)];
    assert ActAll(cfg, a, run) == a.(files := files) by {
      ReadsRun(cfg, a);
      PushRun(cfg, a, job, env, schedule);
    }
    assert run[3] == Push(env, schedule);
    hide Outcome;
  }

  lemma AnswerPromoted(cfg: Config, a: Sys, job: Job, env: Env, schedule: seq<Thread>, status: Status, files: Files)
    requires cfg.zone in a.db.zones && a.flight.Idle? && Rendering(cfg, a) == Some(job)
    requires Fits(cfg, a, job, env) && Outcome(env, schedule, status, true, files)
    ensures Answers(cfg, a, Finished(cfg, a, job, files, true), Deployed(status, true),
                    READS + [Push(env, schedule)] + PUBLISH)
  {
    hide ActAll, Act, Run, Init, Exec, Rendering;
    var pushed := READS + [Push(env, schedule)];
    var run := pushed + PUBLISH;
    assert ActAll(cfg, a, pushed) == a.(files := files, flight := Moved(job)) by {
      ReadsRun(cfg, a);
      PushRun(cfg, a, job, env, schedule);
    }
    PublishRun(cfg, a, pushed);
    assert run[..6] == pushed + [WriteSerial, WriteSnapshot];
    assert run[3] == Push(env, schedule) && run == run[..6] + [Prune];
    ActAllSnoc(cfg, a, run[..6], Prune);
  }

  // ---------------------------------------------------------------------
  // What an undisturbed request achieves
  // ---------------------------------------------------------------------

  lemma ReadsSettings(cfg: Config, a: Sys)
    requires cfg.zone in a.db.zones && a.flight.Idle?
    ensures var b := ActAll(cfg, a, [OpenDeploy, ReadSettings]);
            b.flight.HasSettings? && b.flight.row == a.db.zones[cfg.zone]
  {
    ActAllSnoc(cfg, a, [], OpenDeploy);
    ActAllSnoc(cfg, a, [OpenDeploy], ReadSettings);
    assert [] + [OpenDeploy] == [OpenDeploy] && [OpenDeploy] + [ReadSettings] == [OpenDeploy, ReadSettings];
    assert ActAll(cfg, a, []) == a;
    hide ActAll, SplitTargets;
  }

  lemma RequestIsAllowed(cfg: Config, a: Sys, b: Sys, reply: Reply, run: seq<Action>)
    requires Answers(cfg, a, b, reply, run) && a.flight.Idle?
    requires cfg.zone in a.db.zones && a.db.zones[cfg.zone].soa.serial < WORD - 1
    ensures AllowedRun(cfg, a, run)
  {
    ReadsSettings(cfg, a);
    hide ActAll, Act, Outcome;
    forall k | 0 <= k < |run| ensures Allowed(cfg, ActAll(cfg, a, run[..k]), run[k]) {
      if k == 2 {
        assert run[..2] == [OpenDeploy, ReadSettings];
      } else {
        assert !run[k].ReadRecords? && !run[k].Tick? && !run[k].Edit? && !run[k].Foreign?;
      }
    }
  }

  lemma RequestIsPermitted(cfg: Config, a: Sys, b: Sys, reply: Reply, run: seq<Action>)
    requires Answers(cfg, a, b, reply, run)
    ensures PermittedRun(cfg, a, run)
  {
    hide ActAll, Act, Outcome;
    forall k | 0 <= k < |run| ensures Permitted(cfg, ActAll(cfg, a, run[..k]), run[k]) {
      assert !run[k].Edit? && !run[k].Foreign?;
    }
  }

  /** Every deploy request keeps database, servers and snapshots in agreement. */
  lemma RequestIsCoherent(cfg: Config, a: Sys, b: Sys, reply: Reply, run: seq<Action>)
    requires Answers(cfg, a, b, reply, run) && Coherent(cfg, a)
    ensures Coherent(cfg, b)
  {
    hide *;
    RequestIsPermitted(cfg, a, b, reply, run);
    RunIsCoherent(cfg, a, run);
    AnswerIsRun(cfg, a, b, reply, run);
  }

  /** Every deploy request keeps the system's invariant and only moves serials forward. */
  lemma RequestIsSafe(cfg: Config, a: Sys, b: Sys, reply: Reply, run: seq<Action>)
    requires Answers(cfg, a, b, reply, run) && a.flight.Idle? && SysInv(cfg, a)
    requires a.db.zones[cfg.zone].soa.serial < WORD - 1
    ensures SysInv(cfg, b) && Advances(cfg, a, b)
  {
    hide *;
    ZoneIsThere(cfg, a);
    RequestIsAllowed(cfg, a, b, reply, run);
    WholeRunSerialSafety(cfg, a, run, 0, |run|);
    assert run[..0] == [] && run[..|run|] == run;
    assert ActAll(cfg, a, []) == a by { NoActions(cfg, a); }
    assert ActAll(cfg, a, run) == b by { AnswerIsRun(cfg, a, b, reply, run); }
  }

  lemma NoActions(cfg: Config, a: Sys)
    ensures ActAll(cfg, a, []) == a
  {
  }

  lemma AnswerIsRun(cfg: Config, a: Sys, b: Sys, reply: Reply, run: seq<Action>)
    requires Answers(cfg, a, b, reply, run)
    ensures ActAll(cfg, a, run) == b
  {
    hide ActAll, Act;
  }

  function FlightTargets(f: Flight): Option<seq<string>> {
    match f
    case Idle => None
    case Opened(targets) => Some(targets)
    case HasSettings(targets, _) => Some(targets)
    case Rendered(job) => Some(job.targets)
    case Moved(job) => Some(job.targets)
    case SerialSet(job) => Some(job.targets)
    case Snapshotted(job) => Some(job.targets)
  }

  /** Nothing after the opening changes which targets the deploy is for. */
  lemma TargetsStay(cfg: Config, sys: Sys, run: seq<Action>, a: Action, targets: seq<string>)
    requires a.Push? || a.WriteSerial? || a.WriteSnapshot?
    requires FlightTargets(ActAll(cfg, sys, run).flight) in {None, Some(targets)}
    ensures FlightTargets(ActAll(cfg, sys, run + [a]).flight) in {None, Some(targets)}
  {
    ActAllSnoc(cfg, sys, run, a);
    hide ActAll, Run, Init, Exec, Fits;
  }

  lemma TargetsRead(cfg: Config, a: Sys)
    requires cfg.zone in a.db.zones && a.flight.Idle?
    ensures FlightTargets(ActAll(cfg, a, READS).flight) in {None, Some(SplitTargets(a.db.zones[cfg.zone].targets))}
  {
    ReadsRun(cfg, a);
    if Rendering(cfg, a).Some? { RenderedJob(cfg, a); }
    hide ActAll, Rendering, SplitTargets;
  }

  lemma PromotedTargets(cfg: Config, a: Sys, run: seq<Action>)
    requires cfg.zone in a.db.zones && a.flight.Idle? && |run| == 7 && run[3].Push?
    requires run == READS + [run[3]] + PUBLISH
    ensures FlightTargets(ActAll(cfg, a, run[..6]).flight) in {None, Some(SplitTargets(a.db.zones[cfg.zone].targets))}
  {
    hide ActAll, FlightTargets, SplitTargets;
    var targets := SplitTargets(a.db.zones[cfg.zone].targets);
    TargetsRead(cfg, a);
    TargetsStay(cfg, a, READS, run[3], targets);
    TargetsStay(cfg, a, READS + [run[3]], WriteSerial, targets);
    TargetsStay(cfg, a, READS + [run[3]] + [WriteSerial], WriteSnapshot, targets);
    assert READS + [run[3]] + [WriteSerial] + [WriteSnapshot] == run[..6];
  }

  lemma PromotedRun(cfg: Config, a: Sys, b: Sys, reply: Reply, run: seq<Action>)
    requires Answers(cfg, a, b, reply, run) && reply.Deployed? && reply.promoted
    ensures |run| == 7 && run[3].Push? && run == READS + [run[3]] + PUBLISH
    ensures ActAll(cfg, a, run[..6]).flight.Snapshotted? && Act(cfg, ActAll(cfg, a, run[..6]), Prune) == b
    ensures NoOwnEdit(cfg, run[..6])
  {
    hide ActAll, Act;
  }

  lemma PromotedHasZone(cfg: Config, a: Sys, b: Sys, reply: Reply, run: seq<Action>)
    requires Answers(cfg, a, b, reply, run) && reply.Deployed?
    ensures cfg.zone in a.db.zones
  {
    hide ActAll, Act, Outcome;
  }

  /** A promoted deploy leaves the zone clean, with the text the database builds in the live
      file of every target the zone lists. */
  lemma PromotedIsClean(cfg: Config, a: Sys, b: Sys, reply: Reply, run: seq<Action>)
    requires Answers(cfg, a, b, reply, run) && a.flight.Idle? && Coherent(cfg, a)
    requires reply.Deployed? && reply.promoted
    ensures cfg.zone in a.db.zones && !Dirty(b.db, cfg.zone) && BuildDb(b.db, cfg.zone).Ok?
    ensures forall t <- SplitTargets(a.db.zones[cfg.zone].targets) ::
              Lookup(b.files, TargetLoc(cfg, t)) == Some(RenderText(BuildDb(b.db, cfg.zone).value))
  {
    hide *;
    PromotedHasZone(cfg, a, b, reply, run);
    RequestIsPermitted(cfg, a, b, reply, run);
    PromotedRun(cfg, a, b, reply, run);
    PromotedTargets(cfg, a, run);
    PermittedPrefix(cfg, a, run, 6);
    UndisturbedDeployIsClean(cfg, a, run[..6]);
    SnapshottedTargets(ActAll(cfg, a, run[..6]).flight, SplitTargets(a.db.zones[cfg.zone].targets));
  }

  lemma SnapshottedTargets(f: Flight, targets: seq<string>)
    requires f.Snapshotted? && FlightTargets(f) in {None, Some(targets)}
    ensures f.job.targets == targets
  {
  }

  // ---------------------------------------------------------------------
  // Edits and rollback
  // ---------------------------------------------------------------------

  /** Replacing an existing row of the zone: what the rows still are. */
  lemma UpdateKeepsStorable(db: Db, zone: string, id: nat, rec: Record)
    requires Storable(rec) && exists r <- db.records :: r.id == id && r.zone == zone
    ensures var db' := Exec(db, UpdateRecord(zone, id, rec));
            && (StorableZone(db, zone) ==> StorableZone(db', zone))
            && (CanonicalZone(db, zone) ==> (CanonicalZone(db', zone) <==> Canonical(rec)))
  {
    hide Canonical, Typeless;
    var rows := ReplaceRec(db.records, zone, id, rec);
    forall r | r in rows && r.zone == zone ensures r.rec == rec || r in db.records {
      var i :| 0 <= i < |rows| && rows[i] == r;
      assert db.records[i] in db.records;
    }
    var i :| 0 <= i < |db.records| && db.records[i].id == id && db.records[i].zone == zone;
    assert rows[i] == RecordRow(id, zone, rec) && rows[i] in rows;
  }

  lemma AddKeepsStorable(db: Db, zone: string, rec: Record)
    requires Storable(rec) && zone in db.zones
    ensures var db' := Exec(db, InsertRecord(zone, rec));
            && (StorableZone(db, zone) ==> StorableZone(db', zone))
            && (CanonicalZone(db, zone) ==> (CanonicalZone(db', zone) <==> Canonical(rec)))
  {
    hide Canonical, Typeless;
    var row := RecordRow(db.lastRecord + 1, zone, rec);
    assert row in Exec(db, InsertRecord(zone, rec)).records;
  }

  /** What the record handlers store: a row with a type if the library knows one. */
  lemma NormalizedIsStorable(origin: string, name: string, ttl: uint32, rtype: string, data: string)
    requires '\n' !in origin
    ensures var r := NormalizeRecord(origin, name, ttl, rtype, data);
            r.Ok? ==> Storable(r.value) && (Canonical(r.value) <==> r.value.rtype != "")
  {
    NormalizedIsCanonical(origin, name, ttl, rtype, data);
    if NormalizeRecord(origin, name, ttl, rtype, data).Ok? {
      TypelessHasNoType(NormalizeRecord(origin, name, ttl, rtype, data).value);
    }
    hide NormalizeRecord, Canonical, Typeless;
  }

  lemma PlanIsStorable(db: Db, zone: string, id: nat)
    requires RestorePlan(db, zone, id).Ok? && IsName(Fqdn(zone))
    ensures var plan := RestorePlan(db, zone, id).value;
            plan.RestoreTx? && plan.zone == zone && SafeSettings(zone, plan.soa) && AllStorable(plan.recs)
  {
    StoreTheorems.ParsedIsStorable(Filter(db.snapshots, SnapIs(zone, id))[0].content, zone);
    hide SafeSettings, Storable, ParseText, SoaOf, Filter, DataRecordsOf, IsName;
  }

  lemma RollbackIsStorable(db: Db, zone: string, id: nat)
    requires IsName(Fqdn(zone))
    ensures var db' := RestoreSnapshot(db, zone, id);
            RestorePlan(db, zone, id).Ok? && zone in db'.zones ==>
              SafeSettings(zone, db'.zones[zone].soa) && StorableZone(db', zone)
  {
    hide SafeSettings, Storable, Filter, StorableZone, RestorePlan, IsName;
    if RestorePlan(db, zone, id).Ok? {
      var plan := RestorePlan(db, zone, id).value;
      PlanIsStorable(db, zone, id);
      if zone in db.zones {
        RestoreKeepsStorable(db, zone, plan.soa, plan.recs);
      }
    }
  }

  // ---------------------------------------------------------------------
  // Settings
  // ---------------------------------------------------------------------

  /** The posted settings form; its numbers are already parsed. */
  datatype SettingsForm = SettingsForm(name: string, primaryNS: string, mbox: string, refresh: uint32, retry: uint32,
                                       expire: uint32, minimum: uint32, ttl: uint32, targets: seq<string>)
  {
    function Name(): string {
      TrimSpace(name)
    }

    /** zoneFromForm: surrounding white space goes, the serial is not on the form. */
    function Soa(): SoaData {
      SoaData(TrimSpace(primaryNS), TrimSpace(mbox), refresh, retry, expire, minimum, ttl, 0)
    }

    predicate Complete() {
      Soa().primaryNS != "" && Soa().mbox != ""
    }

    function Row(): ZoneRow {
      ZoneRow(WithDefaults(Soa()), JoinTargets(targets))
    }
  }

  /** Settings the check accepted, once defaulted and with the zone's serial, are safe exactly
      when no name holds a line break and neither of the SOA's a comment sign. */
  lemma AcceptedRow(form: SettingsForm, name: string, serial: uint32)
    requires Accepted(name, form.Soa())
    ensures SafeSettings(name, form.Row().soa.(serial := serial)) <==> '\n' !in name && CleanNames(form.Soa())
    ensures form.Row().soa.serial == 0
  {
    if '\n' !in name && CleanNames(form.Soa()) {
      SafeIgnoresNumbers(name, form.Soa(), form.Row().soa.(serial := serial));
    }
    hide Accepted, TrimSpace;
  }

  /** What the form stores: its texts without outer white space, each number in its own field, the
      defaults for zeros, the serial left at zero. */
  lemma FormStores(form: SettingsForm)
    ensures form.Name() == TrimSpace(form.name)
    ensures form.Complete() <==> TrimSpace(form.primaryNS) != "" && TrimSpace(form.mbox) != ""
    ensures var row := form.Row();
            && row.soa.primaryNS == TrimSpace(form.primaryNS) && row.soa.mbox == TrimSpace(form.mbox)
            && row.soa.refresh == (if form.refresh == 0 then 7200 else form.refresh)
            && row.soa.retry == (if form.retry == 0 then 3600 else form.retry)
            && row.soa.expire == (if form.expire == 0 then 1209600 else form.expire)
            && row.soa.minimum == (if form.minimum == 0 then 3600 else form.minimum)
            && row.soa.ttl == (if form.ttl == 0 then 3600 else form.ttl) && row.soa.serial == 0
            && ((forall t <- form.targets :: IsTargetName(t)) ==> SplitTargets(row.targets) == form.targets)
  {
    if forall t <- form.targets :: IsTargetName(t) { TargetsRoundTrip(form.targets); }
    hide TrimSpace, SplitTargets, JoinTargets;
  }

  /** A zone name without leading white space is safe to import under exactly when it is one. */
  lemma ImportIsSafeExactly(zone: string, content: string, targets: seq<string>)
    requires ParseText(content, zone).Ok? && HasSoa(ParseText(content, zone).value)
    requires zone != "" && !IsSpace(zone[0])
    ensures SafeSettings(zone, ImportOf(zone, content, targets).row.soa) <==> IsName(Fqdn(zone))
    ensures IsName(Fqdn(zone)) ==> AllStorable(ImportOf(zone, content, targets).recs)
  {
    assert Apex(zone) == Fqdn(zone);
    hide ParseText, SafeSettings, Storable, ImportOf, IsName, Apex, Fqdn, HoldsName;
    if IsName(Fqdn(zone)) { ImportIsStorable(zone, content, targets); }
    SafeExactly(zone, ImportOf(zone, content, targets).row.soa);
  }

  lemma AcceptedIs(origin: string, soa: SoaData)
    ensures Accepted(origin, soa) <==> BuildZone(origin, soa, []).Ok?
  {
  }

  lemma InsertedRow(db: Db, name: string, row: ZoneRow)
    requires name !in db.zones
    ensures name in Exec(db, InsertZone(name, row)).zones && Exec(db, InsertZone(name, row)).zones[name] == row
  {
  }

  lemma UpdatedRow(db: Db, name: string, row: ZoneRow)
    ensures name !in db.zones ==> Exec(db, UpdateSettings(name, row)) == db
    ensures name in db.zones ==>
              && name in Exec(db, UpdateSettings(name, row)).zones
              && Exec(db, UpdateSettings(name, row)).zones[name]
                 == row.(soa := row.soa.(serial := db.zones[name].soa.serial))
  {
  }

  class Site {
    const policy: Policy
    const servers: map<string, Server>
    const db: Database
    var files: Files

    constructor (policy: Policy, servers: map<string, Server>, db: Database, files: Files)
      ensures this.policy == policy && this.servers == servers && this.db == db && this.files == files
    {
      this.policy, this.servers, this.db, this.files := policy, servers, db, files;
    }

    function ConfigFor(name: string): Config {
      Config(name, policy, servers)
    }

    /** The site between requests. */
    ghost function Resting(now: Instant): Sys
      reads this, db
    {
      Sys(db.Value(), files, now, Idle)
    }

    /** Renders what the database holds with the next serial: GetZone, Build, BumpSerial, Render. */
    method Prepare(name: string, now: Instant) returns (job: Result<Job>)
      requires db.Valid() && name in db.zones
      ensures var row := db.zones[name];
              job.Ok? == Render(ConfigFor(name), SplitTargets(row.targets), row, Records(db.Value(), name), now).Some?
              && (job.Ok? ==>
                    Some(job.value)
                    == Render(ConfigFor(name), SplitTargets(row.targets), row, Records(db.Value(), name), now))
    {
      hide RenderText, BuildFrom, Records, SplitTargets, NextSerial, SoaOf, SoaIndex;
      var row := db.zones[name];
      var built := db.BuildZoneFile(name);
      if built.Err? {
        return Err(built.error);
      }
      var z := new ZoneModel.Zone(built.value.origin, built.value.records);
      var bumped := z.BumpSerial(policy, now);
      if bumped.Err? {
        return Err(bumped.error);
      }
      var content := z.Render();
      return Ok(Job(SplitTargets(row.targets), row, Records(db.Value(), name), content, bumped.value.0,
                    bumped.value.1));
    }

    /** Hands the job to the pipeline. */
    method Transmit(name: string, job: Job, check: PipelineCode.LocalCheck, scripts: seq<Script>, suffixes: seq<string>)
      returns (err: Option<string>, status: Status, moved: bool, env: Env, ghost schedule: seq<Thread>)
      requires |job.targets| == |scripts| == |suffixes| && SuffixesOk(suffixes)
      modifies this`files
      ensures err.Some? ==> files == old(files)
      ensures err.None? ==> env.Valid() && env.servers == servers && env.files == old(files)
      ensures err.None? ==> env.req == Request(name, job.content, job.oldSerial, job.serial, job.targets)
      ensures err.None? ==> Outcome(env, schedule, status, moved, files)
      ensures err.Some? <==> job.targets == [] || check.Rejected?
    {
      env := Env(Request(name, job.content, job.oldSerial, job.serial, job.targets), servers, scripts, suffixes, files);
      var deployment := new PipelineCode.Deployment(env);
      hide Run, Init;
      err := deployment.Deploy(check);
      status, schedule := deployment.status, deployment.schedule;
      moved := false;
      if err.None? {
        files := deployment.files;
        moved := deployment.AllMoved();
      }
    }

    /** Publishes what was deployed everywhere. */
    method Promote(name: string, job: Job) returns (ok: bool)
      requires db.Valid() && name in db.zones
      modifies db
      ensures db.Valid() && ok
      ensures db.Value() == Exec(Exec(Exec(old(db.Value()), SetSerial(name, job.serial)),
                                      InsertSnapshot(name, job.serial, job.content)), PruneSnapshots(name))
    {
      ok := db.Publish(name, job.content, job.serial);
    }

    /** handleDeploy: a run of the system's own deploy steps from rest to rest. The reply's
        status is the pipeline's, and the zone is promoted exactly when every target moved. */
    method HandleDeploy(name: string, now: Instant, check: PipelineCode.LocalCheck, scripts: seq<Script>,
                        suffixes: seq<string>)
      returns (reply: Reply, ghost run: seq<Action>)
      requires db.Valid() && Scripted(db.Value(), name, scripts, suffixes)
      modifies this`files, db
      ensures db.Valid()
      ensures Answers(ConfigFor(name), old(Resting(now)), Resting(now), reply, run)
    {
      ghost var cfg, start := ConfigFor(name), Resting(now);
      if name !in db.zones {
        return UnknownZone, [];
      }
      hide Run, Init, Render, Records, SplitTargets, Exec, ActAll, Integrity, Scripted, SuffixesOk, Answers, Outcome,
           SameZone, SnapsOf, Last, Fits;
      var prepared := Prepare(name, now);
      if prepared.Err? {
        AnswerUnread(cfg, start, prepared.error);
        return NotDeployed(prepared.error), READS;
      }
      var job := prepared.value;
      RenderedJob(cfg, start);
      ScriptedTargets(start.db, name, scripts, suffixes);
      var err, status, promoted, env;
      ghost var schedule;
      err, status, promoted, env, schedule := Transmit(name, job, check, scripts, suffixes);
      if err.Some? {
        AnswerRejected(cfg, start, err.value);
        return NotDeployed(err.value), READS + [Abandon];
      }
      run := READS + [Push(env, schedule)];
      if !promoted {
        AnswerKept(cfg, start, job, env, schedule, status, files);
      } else {
        AnswerPromoted(cfg, start, job, env, schedule, status, files);
        run := run + PUBLISH;
        promoted := Promote(name, job);
      }
      reply := Deployed(status, promoted);
    }

    // Record edits normalise first, so for a zone name on one line the rows stay storable; a
    // zone that builds then still does exactly when the library knows the record's type.

    method HandleAddRecord(name: string, owner: string, ttl: uint32, rtype: string, data: string)
      returns (err: Option<string>)
      requires db.Valid()
      modifies db
      ensures db.Valid()
      ensures var rec := NormalizeRecord(name, owner, ttl, rtype, data);
              && (err.None? <==> rec.Ok? && name in old(db.zones))
              && db.Value()
                 == (if rec.Ok? then Exec(old(db.Value()), InsertRecord(name, rec.value)) else old(db.Value()))
              && db.records == old(db.records)
                               + (if err.None? then [RecordRow(old(db.lastRecord) + 1, name, rec.value)] else [])
              && db.zones == old(db.zones) && db.snapshots == old(db.snapshots)
      ensures '\n' !in name && StorableZone(old(db.Value()), name) ==> StorableZone(db.Value(), name)
      ensures '\n' !in name && err.None? && CanonicalZone(old(db.Value()), name) ==>
                (CanonicalZone(db.Value(), name) <==> NormalizeRecord(name, owner, ttl, rtype, data).value.rtype != "")
    {
      hide NormalizeRecord, Integrity, Storable, Canonical, StorableZone, CanonicalZone;
      var rec := NormalizeRecord(name, owner, ttl, rtype, data);
      if rec.Err? {
        return Some(rec.error);
      }
      if '\n' !in name {
        NormalizedIsStorable(name, owner, ttl, rtype, data);
        if name in db.zones { AddKeepsStorable(db.Value(), name, rec.value); }
      }
      var ok := db.AddRecord(name, rec.value);
      return if ok then None else Some("add record");
    }

    method HandleUpdateRecord(name: string, id: nat, owner: string, ttl: uint32, rtype: string, data: string)
      returns (err: Option<string>)
      requires db.Valid()
      modifies db
      ensures db.Valid()
      ensures var rec := NormalizeRecord(name, owner, ttl, rtype, data);
              && (err.None? <==> rec.Ok? && exists r <- old(db.records) :: r.id == id && r.zone == name)
              && (err.Some? ==> db.Value() == old(db.Value()))
              && (err.None? ==> db.Value() == Exec(old(db.Value()), UpdateRecord(name, id, rec.value)))
              && (err.None? ==>
                    exists k ::
                      && 0 <= k < |old(db.records)| && old(db.records)[k].id == id && old(db.records)[k].zone == name
                      && db.records == old(db.records)[k := RecordRow(id, name, rec.value)])
              && db.zones == old(db.zones) && db.snapshots == old(db.snapshots)
      ensures '\n' !in name && StorableZone(old(db.Value()), name) ==> StorableZone(db.Value(), name)
      ensures '\n' !in name && err.None? && CanonicalZone(old(db.Value()), name) ==>
                (CanonicalZone(db.Value(), name) <==> NormalizeRecord(name, owner, ttl, rtype, data).value.rtype != "")
    {
      hide NormalizeRecord, Integrity, Storable, Canonical, StorableZone, CanonicalZone;
      var rec := NormalizeRecord(name, owner, ttl, rtype, data);
      if rec.Err? {
        return Some(rec.error);
      }
      if '\n' !in name {
        NormalizedIsStorable(name, owner, ttl, rtype, data);
        if exists r <- db.records :: r.id == id && r.zone == name {
          UpdateKeepsStorable(db.Value(), name, id, rec.value);
        }
      }
      var ok := db.UpdateRecord(name, id, rec.value);
      return if ok then None else Some("not found");
    }

    /** A record that is already gone is not an error. */
    method HandleDeleteRecord(name: string, id: nat)
      requires db.Valid()
      modifies db
      ensures db.Valid() && db.Value() == Exec(old(db.Value()), DeleteRecord(name, id))
      ensures forall r <- db.records :: !(r.id == id && r.zone == name)
      ensures if exists r <- old(db.records) :: r.id == id && r.zone == name then
                exists k ::
                  && 0 <= k < |old(db.records)| && old(db.records)[k].id == id && old(db.records)[k].zone == name
                  && db.records == old(db.records)[..k] + old(db.records)[k + 1..]
              else db.records == old(db.records)
      ensures db.zones == old(db.zones) && db.snapshots == old(db.snapshots)
      ensures StorableZone(old(db.Value()), name) ==> StorableZone(db.Value(), name)
      ensures CanonicalZone(old(db.Value()), name) ==> CanonicalZone(db.Value(), name)
    {
      FilterMembers(db.records, RowOther(name, id));
      hide Storable, Canonical;
      var _ := db.DeleteRecord(name, id);
    }

    /** Whatever the snapshot holds, a rollback of a zone whose name is one leaves safe settings
        and storable rows. */
    method HandleRollback(name: string, id: nat) returns (err: Option<string>)
      requires db.Valid()
      modifies db
      ensures db.Valid() && db.Value() == RestoreSnapshot(old(db.Value()), name, id)
      ensures err.None? <==> RestorePlan(old(db.Value()), name, id).Ok?
      ensures err.Some? ==> db.Value() == old(db.Value())
      ensures err.None? ==>
                exists s <- old(db.snapshots) :: s.id == id && s.zone == name && ParseText(s.content, name).Ok?
                  && var z := ParseText(s.content, name).value;
                  && HasSoa(z) && db.zones == old(db.zones)[name := old(db.zones)[name].(soa := SoaOf(z))]
                  && RecsOf(RowsOf(db.Value(), name)) == DataRecordsOf(z.records)
      ensures db.snapshots == old(db.snapshots)
      ensures forall other :: other != name ==> SameZone(old(db.Value()), db.Value(), other)
      ensures err.None? && name in db.zones && IsName(Fqdn(name)) ==>
                SafeSettings(name, db.zones[name].soa) && StorableZone(db.Value(), name)
    {
      hide RestorePlan, SafeSettings, StorableZone, Integrity, IsName;
      if IsName(Fqdn(name)) { RollbackIsStorable(db.Value(), name, id); }
      err := db.Restore(name, id);
    }

    // Settings

    /** Creates a zone if the form is complete, the name free and the settings alone build. What
        is stored is then safe exactly when no name holds a line break and neither of the SOA's a
        comment sign. */
    method HandleCreateZone(form: SettingsForm) returns (err: Option<string>)
      requires db.Valid()
      modifies db
      ensures db.Valid()
      ensures err.None? <==>
                && form.Name() != "" && form.Complete()
                && form.Name() !in old(db.zones) && Accepted(form.Name(), form.Soa())
      ensures err.Some? ==> db.Value() == old(db.Value())
      ensures err.None? ==> db.Value() == Exec(old(db.Value()), InsertZone(form.Name(), form.Row()))
      ensures err.None? ==>
                && db.zones == old(db.zones)[form.Name() := form.Row()]
                && db.records == old(db.records) && db.snapshots == old(db.snapshots)
      ensures err.None? ==>
                && form.Name() in db.zones
                && (SafeSettings(form.Name(), db.zones[form.Name()].soa)
                    <==> '\n' !in form.Name() && CleanNames(form.Soa()))
    {
      hide Accepted, SafeSettings, Integrity, BuildZone, Exec, WithDefaults, JoinTargets, TrimSpace, GoodSettings,
           CleanNames;
      if form.Name() == "" || !form.Complete() {
        return Some("name, primary NS, and admin email are required");
      }
      if form.Name() in db.zones {
        return Some("a zone with this name already exists");
      }
      AcceptedIs(form.Name(), form.Soa());
      var built := ZoneModel.Build(form.Name(), form.Soa(), []);
      if built.Err? {
        return Some("invalid zone settings: " + built.error);
      }
      AcceptedRow(form, form.Name(), 0);
      InsertedRow(db.Value(), form.Name(), form.Row());
      assert form.Row().soa.(serial := 0) == form.Row().soa;
      var z := new ZoneSettings(form.Name(), form.Soa(), form.targets);
      var ok := db.CreateZone(z);
      return None;
    }

    /** Changes a zone's settings, never its serial, under the same check. */
    method HandleUpdateSettings(name: string, form: SettingsForm) returns (err: Option<string>)
      requires db.Valid()
      modifies db
      ensures db.Valid()
      ensures err.None? <==> form.Complete() && name in old(db.zones) && Accepted(name, form.Soa())
      ensures err.Some? ==> db.Value() == old(db.Value())
      ensures err.None? ==> db.Value() == Exec(old(db.Value()), UpdateSettings(name, form.Row()))
      ensures err.None? ==>
                && db.zones == old(db.zones)[name := AtSerial(form.Row(), old(db.zones)[name].soa.serial)]
                && db.records == old(db.records) && db.snapshots == old(db.snapshots)
      ensures err.None? ==>
                && name in db.zones
                && (SafeSettings(name, db.zones[name].soa) <==> '\n' !in name && CleanNames(form.Soa()))
    {
      hide Accepted, SafeSettings, Integrity, BuildZone, Exec, WithDefaults, JoinTargets, TrimSpace, GoodSettings,
           CleanNames;
      if !form.Complete() {
        return Some("primary NS and admin email are required");
      }
      AcceptedIs(name, form.Soa());
      var built := ZoneModel.Build(name, form.Soa(), []);
      if built.Err? {
        return Some("invalid zone settings: " + built.error);
      }
      if name in db.zones { AcceptedRow(form, name, db.zones[name].soa.serial); }
      UpdatedRow(db.Value(), name, form.Row());
      var z := new ZoneSettings(name, form.Soa(), form.targets);
      var ok := db.UpdateZoneSettings(z);
      return if ok then None else Some("not found");
    }

    /** Imports a zone file under a free name; the settings it stores are safe, and the rows
        storable, exactly when the name is one. */
    method HandleImport(field: string, content: string, targets: seq<string>) returns (r: Result<nat>)
      requires db.Valid()
      modifies db
      ensures db.Valid()
      ensures r.Ok? <==> TrimSpace(field) != "" && TrimSpace(content) != "" && TrimSpace(field) !in old(db.zones)
                         && ParseText(content, TrimSpace(field)).Ok?
                         && HasSoa(ParseText(content, TrimSpace(field)).value)
      ensures r.Err? ==> db.Value() == old(db.Value())
      ensures r.Ok? ==> db.Value() == Exec(old(db.Value()), ImportOf(TrimSpace(field), content, targets))
      ensures r.Ok? ==>
                var name := TrimSpace(field);
                var z := ParseText(content, name).value;
                && r.value == |DataRecordsOf(z.records)|
                && db.zones == old(db.zones)[name := ZoneRow(WithDefaults(SoaOf(z)), JoinTargets(targets))]
                && db.records == old(db.records) + NewRows(name, DataRecordsOf(z.records), old(db.lastRecord))
                && RecsOf(RowsOf(db.Value(), name)) == DataRecordsOf(z.records)
                && db.snapshots == old(db.snapshots)
      ensures r.Ok? ==> TrimSpace(field) in db.zones
                        && (SafeSettings(TrimSpace(field), db.zones[TrimSpace(field)].soa)
                            <==> IsName(Fqdn(TrimSpace(field))))
      ensures r.Ok? && IsName(Fqdn(TrimSpace(field))) ==> AllStorable(ImportOf(TrimSpace(field), content, targets).recs)
    {
      hide SafeSettings, Integrity, ParseText, DataRecordsOf, SoaOf, SoaIndex, Storable, TrimLeft, TrimRight, IsName;
      var name := TrimSpace(field);
      if name == "" || TrimSpace(content) == "" {
        return Err("zone name and file content are required");
      }
      if ParseText(content, name).Ok? && HasSoa(ParseText(content, name).value) {
        ImportIsSafeExactly(name, content, targets);
      }
      hide TrimSpace;
      r := db.ImportZone(name, content, targets);
    }
  }
}

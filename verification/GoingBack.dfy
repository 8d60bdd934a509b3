/**
 How a live serial goes back outside the runs the safety theorems speak of: by settings that the
 handlers accept and that fix the serial, and by the deploy of another zone whose live file has
 the same name. Both happen on one concrete site that is in order.
 */
module GoingBack {
  import opened Text
  import opened Serial
  import opened Remote
  import opened Pipeline
  import opened ZoneText
  import opened ZoneLaws
  import opened Settings
  import Acceptance
  import opened BrokenNames
  import opened Store
  import opened StoreLaws
  import StoreTheorems
  import opened System
  import SystemLaws
  import opened Agreement
  import SystemTheorems
  import opened Handlers
  import opened Promotion

  // ---------------------------------------------------------------------
  // Settings that fix the serial
  // ---------------------------------------------------------------------

  /** Whatever serial the zone has and whatever its records are, a deploy that reads these
      settings starts from c. */
  ghost predicate IssuesFrom(cfg: Config, row: ZoneRow, c: uint32) {
    forall serial, targets, rows, now ::
      var job := Render(cfg, targets, AtSerial(row, serial), rows, now);
      job.Some? ==> job.value.oldSerial == c && job.value.serial == NextSerial(cfg.policy, c, now)
  }

  lemma RenderedFrom(cfg: Config, targets: seq<string>, row: ZoneRow, rows: seq<RecordRow>, now: Instant)
    requires Render(cfg, targets, row, rows, now).Some?
    ensures var job, z := Render(cfg, targets, row, rows, now).value, BuildZone(cfg.zone, row.soa, RecsOf(rows));
            && z.Ok? && HasSoa(z.value) && job.targets == targets && job.oldSerial == SoaOf(z.value).serial
            && job.serial == NextSerial(cfg.policy, job.oldSerial, now)
            && job.content == RenderText(WithSerial(z.value, job.serial))
  {
    hide BuildZone, RenderText, NextSerial, RecsOf, WithSerial, SoaOf, SoaIndex;
  }

  /** The serial of the SOA among records that hold one. */
  function OwnSerial(records: seq<RR>): uint32
    requires SoaIndex(records) < |records|
  {
    records[SoaIndex(records)].serial
  }

  /** Settings whose names do not let the serial through. */
  predicate Hiding(zone: string, soa: SoaData) {
    HoldsSoa(zone) || !CleanNames(soa)
  }

  /** The serial that such names spell out. */
  function NamedSerial(zone: string, soa: SoaData): uint32 {
    if HoldsSoa(zone) then OwnSerial(NameScan(zone).records)
    else
      var e := BrokenEntry(NameContext(zone), soa);
      if e.Resource? && e.rr.SoaRR? then e.rr.serial else 0
  }

  /** Whatever such settings build, with any serial and any records, has that one. */
  lemma NamesDecide(zone: string, soa: SoaData, serial: uint32, recs: seq<Record>)
    requires Hiding(zone, soa) && BuildZone(zone, soa.(serial := serial), recs).Ok?
    ensures var z := BuildZone(zone, soa.(serial := serial), recs).value;
            HasSoa(z) && SoaOf(z).serial == NamedSerial(zone, soa)
  {
    hide BuildZone, BrokenEntry, NameScan, NameContext, SoaOf, CleanNames;
    if HoldsSoa(zone) {
      NameSoaDecides(zone, soa.(serial := serial), recs);
    } else {
      UncleanAtSerial(soa, serial);
      BrokenIgnoresSerial(NameContext(zone), soa, serial);
      BrokenLineDecides(zone, soa.(serial := serial), recs);
    }
  }

  lemma UncleanAtSerial(soa: SoaData, serial: uint32)
    ensures CleanNames(soa.(serial := serial)) == CleanNames(soa)
  {
  }

  /** No deploy takes its serial from the database then: the one the names spell out stands for
      all. */
  lemma IssuedFromNames(cfg: Config, row: ZoneRow)
    requires Hiding(cfg.zone, row.soa)
    ensures IssuesFrom(cfg, row, NamedSerial(cfg.zone, row.soa))
  {
    forall serial, targets, rows, now | Render(cfg, targets, AtSerial(row, serial), rows, now).Some?
      ensures var job := Render(cfg, targets, AtSerial(row, serial), rows, now).value;
              && job.oldSerial == NamedSerial(cfg.zone, row.soa)
              && job.serial == NextSerial(cfg.policy, NamedSerial(cfg.zone, row.soa), now)
    {
      RenderedFrom(cfg, targets, AtSerial(row, serial), rows, now);
      NamesDecide(cfg.zone, row.soa, serial, RecsOf(rows));
      hide Render, BuildZone, NextSerial, RecsOf, NamedSerial, RenderText, WithSerial, SoaOf, Hiding;
    }
    hide Render, NextSerial, NamedSerial, Hiding;
  }

  lemma CarriedIsFixed(zone: string, soa: SoaData, c: uint32, serial: uint32)
    requires Carries(zone, soa, serial) && FixesSerial(zone, soa, c)
    ensures serial == c
  {
    assert BuildsWith(zone, soa, serial, c);
    hide BuildZone, SoaOf;
  }

  /** Of accepted settings, exactly those whose names do not let the serial through fix it, and
      they fix it at the one the names spell out. */
  lemma FixesExactly(zone: string, soa: SoaData, c: uint32)
    requires Accepted(zone, soa)
    ensures FixesSerial(zone, soa, c) <==> Hiding(zone, soa) && c == NamedSerial(zone, soa)
  {
    SerialIsCarried(zone, soa);
    hide BuildZone, HoldsSoa, CleanNames, NamedSerial, SoaOf, HasSoa;
    if Hiding(zone, soa) {
      forall serial ensures BuildsWith(zone, soa, serial, NamedSerial(zone, soa)) {
        Acceptance.BuildIgnoresSerial(zone, soa, serial, []);
        NamesDecide(zone, soa, serial, []);
      }
      assert BuildsWith(zone, soa, 0, NamedSerial(zone, soa));
      if FixesSerial(zone, soa, c) { assert BuildsWith(zone, soa, 0, c); }
    } else if FixesSerial(zone, soa, c) {
      hide *;
      CarriedIsFixed(zone, soa, c, if c == 0 then 1 else 0);
    }
  }

  lemma WithSerialWellFormed(z: ZoneData, serial: uint32)
    requires WellFormedZone(z) && HasSoa(z)
    ensures var z' := WithSerial(z, serial);
            WellFormedZone(z') && z'.origin == z.origin && HasSoa(z') && SoaOf(z').serial == serial
  {
    var z' := WithSerial(z, serial);
    hide IsFqdnName, IsType, IsDataOf;
    forall i | 0 <= i < |z'.records| ensures WellFormed(z'.records[i]) {
      assert WellFormed(z.records[i]);
    }
    SameSoaIndex(z.records, z'.records);
  }

  lemma {:induction false} SameSoaIndex(a: seq<RR>, b: seq<RR>)
    requires |a| == |b| && forall i :: 0 <= i < |a| ==> a[i].SoaRR? == b[i].SoaRR?
    ensures SoaIndex(a) == SoaIndex(b)
  {
    if a != [] && !a[0].SoaRR? { SameSoaIndex(a[1..], b[1..]); }
  }

  lemma PrintedCarries(cfg: Config, z: ZoneData)
    requires WellFormedZone(z) && HasSoa(z)
    ensures TextSerial(cfg, RenderText(z)) == Some(SoaOf(z).serial)
  {
    RenderScans(z, Fqdn(cfg.zone));
    hide WellFormedZone, RenderText, ScanText;
  }

  /** A rendered text carries its job's serial, whatever the settings are and under whatever
      zone's name it is read. */
  lemma RenderedCarries(cfg: Config, reader: Config, targets: seq<string>, row: ZoneRow, rows: seq<RecordRow>,
                        now: Instant)
    requires Render(cfg, targets, row, rows, now).Some? && IsName(Fqdn(cfg.zone))
    ensures var job := Render(cfg, targets, row, rows, now).value; TextSerial(reader, job.content) == Some(job.serial)
  {
    var job, z := Render(cfg, targets, row, rows, now).value, BuildZone(cfg.zone, row.soa, RecsOf(rows)).value;
    RenderedFrom(cfg, targets, row, rows, now);
    ParseRenderParse(BuildText(cfg.zone, row.soa, RecsOf(rows)), cfg.zone);
    hide *;
    BuiltIsParsed(cfg.zone, row.soa, RecsOf(rows));
    WithSerialWellFormed(z, job.serial);
    PrintedCarries(reader, WithSerial(z, job.serial));
  }

  lemma BuiltIsParsed(origin: string, soa: SoaData, recs: seq<Record>)
    ensures BuildZone(origin, soa, recs) == ParseText(BuildText(origin, soa, recs), origin)
  {
  }

  /** Settings that build with these records render whatever serial is stored. */
  lemma HidingRenders(cfg: Config, targets: seq<string>, row: ZoneRow, rows: seq<RecordRow>, now: Instant,
                      serial: uint32)
    requires Hiding(cfg.zone, row.soa) && BuildZone(cfg.zone, row.soa, RecsOf(rows)).Ok?
    ensures var job := Render(cfg, targets, AtSerial(row, serial), rows, now);
            && job.Some? && job.value.targets == targets
            && job.value.serial == NextSerial(cfg.policy, NamedSerial(cfg.zone, row.soa), now)
  {
    Acceptance.BuildIgnoresSerial(cfg.zone, row.soa, serial, RecsOf(rows));
    NamesDecide(cfg.zone, row.soa, serial, RecsOf(rows));
    hide BuildZone, RenderText, WithSerial, SoaOf, SoaIndex, NextSerial, RecsOf, Hiding, NamedSerial;
  }

  lemma EditedRow(cfg: Config, sys: Sys, row: ZoneRow)
    requires cfg.zone in sys.db.zones
    ensures var edited := Act(cfg, sys, Edit(UpdateSettings(cfg.zone, row)));
            && edited == sys.(db := edited.db) && cfg.zone in edited.db.zones
            && edited.db.zones[cfg.zone] == AtSerial(row, Stored(cfg, sys)) && Stored(cfg, edited) == Stored(cfg, sys)
            && RowsOf(edited.db, cfg.zone) == RowsOf(sys.db, cfg.zone)
  {
  }

  lemma RenderingIs(cfg: Config, sys: Sys)
    requires cfg.zone in sys.db.zones
    ensures var row := sys.db.zones[cfg.zone];
            Rendering(cfg, sys) == Render(cfg, SplitTargets(row.targets), row, Records(sys.db, cfg.zone), sys.now)
  {
  }

  lemma SameRows(a: Db, b: Db, zone: string)
    requires RowsOf(a, zone) == RowsOf(b, zone)
    ensures Records(a, zone) == Records(b, zone)
  {
  }

  /** If the names of settings do not let the serial through and the zone builds with them, that
      settings change and one deploy on which nothing goes wrong put the serial after the one
      they spell out on every target, whatever was stored and live before. */
  lemma SerialGoesBack(cfg: Config, sys: Sys, row: ZoneRow, suffixes: seq<string>)
    returns (env: Env, schedule: seq<Thread>)
    requires sys.flight.Idle? && cfg.zone in sys.db.zones && IsName(Fqdn(cfg.zone))
    requires Hiding(cfg.zone, row.soa) && BuildZone(cfg.zone, row.soa, RecsOf(Records(sys.db, cfg.zone))).Ok?
    requires Reachable(cfg, SplitTargets(row.targets), suffixes)
    ensures var edited := Act(cfg, sys, Edit(UpdateSettings(cfg.zone, row)));
            var after := ActAll(cfg, edited, READS + [Push(env, schedule)]);
            var next := NextSerial(cfg.policy, NamedSerial(cfg.zone, row.soa), sys.now);
            && cfg.zone in edited.db.zones && Stored(cfg, edited) == Stored(cfg, sys)
            && after.flight.Moved?
            && forall t <- SplitTargets(row.targets) :: LiveSerial(cfg, after, TargetLoc(cfg, t)) == Some(next)
  {
    hide *;
    var edited := Act(cfg, sys, Edit(UpdateSettings(cfg.zone, row)));
    var stored, targets := AtSerial(row, Stored(cfg, sys)), SplitTargets(row.targets);
    var rows := Records(sys.db, cfg.zone);
    EditedRow(cfg, sys, row);
    SameRows(edited.db, sys.db, cfg.zone);
    AtSerialIs(row, Stored(cfg, sys));
    HidingRenders(cfg, targets, row, rows, sys.now, Stored(cfg, sys));
    RenderedCarries(cfg, cfg, targets, stored, rows, sys.now);
    var job := Render(cfg, targets, stored, rows, sys.now).value;
    RenderingIs(cfg, edited);
    ReadsRun(cfg, edited);
    env := GoodEnv(cfg, sys.files, job, suffixes);
    schedule := GoodPush(cfg, sys.files, job, suffixes);
    FilesFit(cfg, edited, sys, job, suffixes);
    PushRun(cfg, edited, job, env, schedule);
    var after := ActAll(cfg, edited, READS + [Push(env, schedule)]);
    forall t | t in targets ensures LiveSerial(cfg, after, TargetLoc(cfg, t)) == TextSerial(cfg, job.content) {
      var i :| 0 <= i < |targets| && targets[i] == t;
      LiveHolds(cfg, after, TargetLoc(cfg, job.targets[i]), job.content);
    }
  }

  lemma AtSerialIs(row: ZoneRow, serial: uint32)
    ensures var r := AtSerial(row, serial); r.targets == row.targets && r.soa.serial == serial
  {
  }

  lemma FilesFit(cfg: Config, edited: Sys, sys: Sys, job: Job, suffixes: seq<string>)
    requires GoodEnv(cfg, sys.files, job, suffixes).Valid() && edited.files == sys.files
    ensures Fits(cfg, edited, job, GoodEnv(cfg, sys.files, job, suffixes))
  {
  }

  lemma LiveHolds(cfg: Config, sys: Sys, l: Loc, content: string)
    requires Lookup(sys.files, l) == Some(content)
    ensures LiveSerial(cfg, sys, l) == TextSerial(cfg, content)
  {
    hide TextSerial;
  }

  // ---------------------------------------------------------------------
  // A live file shared with another zone
  // ---------------------------------------------------------------------

  /** The live files a deploy of another zone writes are live files of this one exactly when
      they have its name. */
  lemma SharedExactly(cfg: Config, env: Env, i: nat)
    requires i < env.N()
    ensures IsLive(cfg, env.LiveLoc(i)) <==> LiveName(env.req.zone) == LiveName(cfg.zone)
  {
    var dir := env.ServerOf(i).zoneDir;
    LivePathsExactly(dir, dir, env.req.zone, cfg.zone);
    assert env.LiveLoc(i).path == FinalPath(dir, ZoneFile(env.req.zone));
    if IsLive(cfg, env.LiveLoc(i)) {
      var dir' :| env.LiveLoc(i).path == FinalPath(dir', ZoneFile(cfg.zone));
      LivePathsExactly(dir, dir', env.req.zone, cfg.zone);
    }
  }

  lemma SharedTargetLoc(cfg: Config, other: Config, t: string)
    requires other.servers == cfg.servers && LiveName(other.zone) == LiveName(cfg.zone)
    ensures TargetLoc(other, t) == TargetLoc(cfg, t)
  {
  }

  /** The deploy of a zone whose live file has the same name, on which nothing goes wrong, puts
      that zone's serial in this one's live file on every target. */
  lemma SharedFileIsReplaced(cfg: Config, other: Config, sys: Sys, suffixes: seq<string>)
    returns (env: Env, schedule: seq<Thread>)
    requires other == cfg.(zone := other.zone) && other.zone != cfg.zone && LiveName(other.zone) == LiveName(cfg.zone)
    requires IsName(Fqdn(other.zone)) && other.zone in sys.db.zones && Rendering(other, sys).Some?
    requires Reachable(other, SplitTargets(sys.db.zones[other.zone].targets), suffixes)
    ensures var job, after := Rendering(other, sys).value, Act(cfg, sys, Foreign(env, schedule));
            && env.Valid() && env.req.zone == other.zone && env.req.content == job.content
            && after == sys.(files := after.files)
            && forall t <- SplitTargets(sys.db.zones[other.zone].targets) ::
                 && Lookup(after.files, TargetLoc(cfg, t)) == Some(job.content)
                 && LiveSerial(cfg, after, TargetLoc(cfg, t)) == Some(job.serial)
  {
    hide *;
    var row, job := sys.db.zones[other.zone], Rendering(other, sys).value;
    var targets := SplitTargets(row.targets);
    RenderedJob(other, sys);
    RenderingIs(other, sys);
    RenderedCarries(other, cfg, targets, row, Records(sys.db, other.zone), sys.now);
    env := GoodEnv(other, sys.files, job, suffixes);
    schedule := GoodPush(other, sys.files, job, suffixes);
    ForeignActs(cfg, other, sys, job, suffixes, schedule);
    var after := Act(cfg, sys, Foreign(env, schedule));
    forall t | t in targets
      ensures Lookup(after.files, TargetLoc(cfg, t)) == Some(job.content)
      ensures LiveSerial(cfg, after, TargetLoc(cfg, t)) == TextSerial(cfg, job.content)
    {
      var i :| 0 <= i < |targets| && targets[i] == t;
      assert Lookup(after.files, TargetLoc(other, job.targets[i])) == Some(job.content);
      SharedTargetLoc(cfg, other, t);
      LiveHolds(cfg, after, TargetLoc(cfg, t), job.content);
    }
  }

  lemma ForeignActs(cfg: Config, other: Config, sys: Sys, job: Job, suffixes: seq<string>, schedule: seq<Thread>)
    requires other.zone != cfg.zone && GoodEnv(other, sys.files, job, suffixes).Valid()
    ensures var env := GoodEnv(other, sys.files, job, suffixes);
            && env.req.zone == other.zone && env.req.content == job.content
            && Act(cfg, sys, Foreign(env, schedule)) == sys.(files := Run(env, Init(env), schedule).files)
  {
    hide Run, Init, Env.Valid;
  }

  // ---------------------------------------------------------------------
  // A site
  // ---------------------------------------------------------------------

  const SERVERS: map<string, Server> := map["ns1" := Server("host", "/zones")]
  const SITE: Config := Config("example.com", INCREMENT, SERVERS)
  const SHARING: Config := Config("x/example.com", INCREMENT, SERVERS)
  const NOW: Instant := Instant(0, 2024, 1, 1)
  const SUFFIX: string := "0123456789abcdef"
  const EMPTY_DB: Db := Db(map[], [], [], 0, 0, 20)

  function PlainRow(serial: uint32): ZoneRow {
    ZoneRow(SoaData("a.", "b.", 1, 1, 1, 1, 1, serial), "ns1")
  }

  /** Both zones are in the database; the first, deployed, is live with serial 100. */
  function Before(): Sys {
    Sys(Exec(EMPTY_DB, InsertZone(SHARING.zone, PlainRow(6))), SiteFiles(), NOW, Idle)
  }

  function Site(): Sys {
    Before().(db := Exec(Before().db, InsertZone(SITE.zone, PlainRow(100))))
  }

  function SiteFiles(): Files {
    map[TargetLoc(SITE, "ns1") := LiveText()]
  }

  function LiveText(): string {
    var z := BuildZone(SITE.zone, PlainRow(100).soa, []);
    if z.Ok? then RenderText(z.value) else ""
  }

  lemma PlainName(zone: string)
    requires IsName(zone) && zone[|zone| - 1] != '.'
    ensures PlainZone(zone) && IsName(Fqdn(zone))
  {
    assert IsNameChar(zone[0]);
    assert Fqdn(zone)[0] == zone[0];
  }

  lemma ZoneNames()
    ensures PlainZone(SITE.zone) && IsName(Fqdn(SITE.zone))
    ensures PlainZone(SHARING.zone) && IsName(Fqdn(SHARING.zone))
  {
    assert IsName("example.com") && IsName("x/example.com");
    hide IsName, PlainZone, Fqdn;
    PlainName("example.com");
    PlainName("x/example.com");
  }

  lemma ZonesShare()
    ensures LiveName(SHARING.zone) == LiveName(SITE.zone) && SHARING.zone != SITE.zone
  {
    hide LiveName;
    SlashSharesLive("x", "example.com");
    assert "x" + "/" + "example.com" == "x/example.com";
  }

  lemma RowNames()
    ensures Fqdn("a.") == "a." && DnsMbox("b.") == "b." && IsName("a.") && IsName("b.")
  {
  }

  lemma RowIsSafeIn(zone: string, serial: uint32)
    requires PlainZone(zone)
    ensures SafeSettings(zone, PlainRow(serial).soa)
  {
    RowNames();
    hide Fqdn, DnsMbox, IsName, HoldsName, SafeSettings, Apex;
    NameHoldsItself("a.");
    NameHoldsItself("b.");
    SafeExactly(zone, PlainRow(serial).soa);
  }

  lemma SiteTarget(serial: uint32)
    ensures SplitTargets(PlainRow(serial).targets) == ["ns1"]
  {
    assert JoinTargets(["ns1"]) == "ns1";
    TargetsRoundTrip(["ns1"]);
  }

  lemma SiteReachable()
    ensures Reachable(SITE, ["ns1"], [SUFFIX]) && Reachable(SHARING, ["ns1"], [SUFFIX])
  {
  }

  lemma LiveTextCarries()
    ensures TextSerial(SITE, LiveText()) == Some(100)
  {
    hide *;
    ZoneNames();
    RowIsSafeIn(SITE.zone, 100);
    SafeBuilds(SITE, PlainRow(100).soa);
    BuiltIsParsed(SITE.zone, PlainRow(100).soa, []);
    ParseRenderParse(BuildText(SITE.zone, PlainRow(100).soa, []), SITE.zone);
    PrintedCarries(SITE, BuildZone(SITE.zone, PlainRow(100).soa, []).value);
    LiveTextIs();
  }

  lemma LiveTextIs()
    ensures PlainRow(100).soa.serial == 100
    ensures var z := BuildZone(SITE.zone, PlainRow(100).soa, []); z.Ok? ==> LiveText() == RenderText(z.value)
  {
    hide BuildZone, RenderText;
  }

  lemma SafeBuilds(cfg: Config, soa: SoaData)
    requires SafeSettings(cfg.zone, soa)
    ensures var z := BuildZone(cfg.zone, soa, []); z.Ok? && HasSoa(z.value) && SoaOf(z.value).serial == soa.serial
  {
    OneLineHoldsNoSoa(cfg.zone);
    CleanCarries(cfg.zone, soa, soa.serial);
    assert soa.(serial := soa.serial) == soa;
    hide BuildZone, CleanNames, HoldsSoa, SoaOf, HasSoa;
  }

  lemma EmptyIsSound()
    ensures Integrity(EMPTY_DB) && EMPTY_DB.keep > 0 && ClockInRange(NOW)
  {
  }

  lemma BeforeIsSound()
    ensures Integrity(Before().db) && Before().db.keep > 0 && SITE.zone !in Before().db.zones
    ensures Before().flight.Idle? && ClockInRange(NOW) && Before().now == NOW
  {
    EmptyIsSound();
    ExecKeepsIntegrity(EMPTY_DB, InsertZone(SHARING.zone, PlainRow(6)));
    hide Integrity, ClockInRange, SiteFiles;
  }

  lemma LiveIsBelowNext()
    ensures LiveAtMost(SITE, Before(), NextNat(Base(INCREMENT, NOW), 100))
  {
    LiveTextCarries();
    hide IsLive, TextSerial, TargetLoc, LiveText, Exec;
  }

  lemma SiteIs()
    ensures Site() == Before().(db := Exec(Before().db, InsertZone(SITE.zone, PlainRow(100))))
    ensures PlainRow(100).soa.serial == 100 && Before().now == NOW && SITE.policy == INCREMENT
  {
  }

  lemma SiteHolds()
    ensures Site().flight.Idle? && Site().now == NOW && SITE.zone in Site().db.zones && SHARING.zone in Site().db.zones
    ensures Stored(SITE, Site()) == 100 && RowsOf(Site().db, SITE.zone) == [] && RowsOf(Site().db, SHARING.zone) == []
    ensures Site().db.zones[SHARING.zone] == PlainRow(6)
    ensures Lookup(Site().files, TargetLoc(SITE, "ns1")) == Some(LiveText())
  {
    hide TargetLoc, LiveText;
  }

  /** The site is in order, with serial 100 stored and live. */
  lemma SiteIsInOrder()
    ensures SysInv(SITE, Site()) && Site().flight.Idle? && Stored(SITE, Site()) == 100
    ensures LiveSerial(SITE, Site(), TargetLoc(SITE, "ns1")) == Some(100)
  {
    hide *;
    ZoneNames();
    RowIsSafeIn(SITE.zone, 100);
    BeforeIsSound();
    LiveIsBelowNext();
    SiteIs();
    SystemTheorems.CreatedZoneStarts(SITE, Before(), PlainRow(100));
    SiteHolds();
    LiveTextCarries();
    LiveHolds(SITE, Site(), TargetLoc(SITE, "ns1"), LiveText());
  }

  // ---------------------------------------------------------------------
  // On it, a live serial goes back
  // ---------------------------------------------------------------------

  /** Settings the handler accepts, with a line break or a comment sign in the primary NS. */
  lemma SettingsTakeItBack(row: ZoneRow) returns (env: Env, schedule: seq<Thread>)
    requires (BreaksLine(row.soa) || CommentsOut(row.soa)) && row.targets == "ns1"
    ensures SysInv(SITE, Site()) && Accepted(SITE.zone, row.soa)
    ensures var edited := Act(SITE, Site(), Edit(UpdateSettings(SITE.zone, row)));
            var after := ActAll(SITE, edited, READS + [Push(env, schedule)]);
            && after.flight.Moved?
            && LiveSerial(SITE, Site(), TargetLoc(SITE, "ns1")) == Some(100)
            && LiveSerial(SITE, after, TargetLoc(SITE, "ns1")) == Some(6)
  {
    hide *;
    SiteIsInOrder();
    SiteHolds();
    ZoneNames();
    SiteTarget(100);
    SiteReachable();
    TargetsAre(row);
    if BreaksLine(row.soa) {
      LineBreakFixesSerial(SITE.zone, row.soa);
    } else {
      CommentFixesSerial(SITE.zone, row.soa);
    }
    FixedIsNamed(SITE.zone, row.soa, 5);
    NoRecords(Site().db, SITE.zone);
    AcceptedWithNone(SITE.zone, row.soa);
    env, schedule := SerialGoesBack(SITE, Site(), row, [SUFFIX]);
    SixIsNext();
    assert "ns1" in SplitTargets(row.targets);
  }

  lemma FixedIsNamed(zone: string, soa: SoaData, c: uint32)
    requires FixesSerial(zone, soa, c)
    ensures Accepted(zone, soa) && Hiding(zone, soa) && c == NamedSerial(zone, soa)
  {
    assert Accepted(zone, soa) by { hide Accepted, BuildsWith; }
    hide FixesSerial, Accepted, Hiding, NamedSerial;
    FixesExactly(zone, soa, c);
  }

  lemma AcceptedWithNone(zone: string, soa: SoaData)
    requires Accepted(zone, soa)
    ensures BuildZone(zone, soa, RecsOf([])).Ok?
  {
    assert RecsOf([]) == [];
    hide BuildZone;
  }

  lemma NoRecords(db: Db, zone: string)
    requires RowsOf(db, zone) == []
    ensures Records(db, zone) == []
  {
  }

  lemma TargetsAre(row: ZoneRow)
    requires row.targets == "ns1"
    ensures row.targets == PlainRow(100).targets
  {
  }

  lemma SixIsNext()
    ensures NextSerial(SITE.policy, 5, NOW) == 6 && NextNat(Base(SITE.policy, NOW), 6) == 7
  {
  }

  lemma SharingRenders()
    ensures Rendering(SHARING, Site()).Some? && Rendering(SHARING, Site()).value.serial == 7
  {
    hide *;
    ZoneNames();
    SiteHolds();
    RowIsSafeIn(SHARING.zone, 6);
    NoRecords(Site().db, SHARING.zone);
    NoneAreStorable();
    SystemLaws.RenderExactly(SHARING, SplitTargets(PlainRow(6).targets), PlainRow(6), [], NOW);
    RenderingIs(SHARING, Site());
    SixIsNext();
    SharingIs();
  }

  lemma NoneAreStorable()
    ensures StoreTheorems.StorableRows([]) && StoreTheorems.RowsSorted([]) && StoreTheorems.CanonicalRows([])
    ensures PlainRow(6).soa.serial == 6 && 6 < WORD - 1
  {
  }

  lemma SharingIs()
    ensures SHARING == SITE.(zone := SHARING.zone)
  {
  }

  /** A deploy of the zone named with a slash, with nobody touching this one. */
  lemma SharingTakesItBack() returns (env: Env, schedule: seq<Thread>)
    ensures SysInv(SITE, Site()) && env.Valid() && env.req.zone == SHARING.zone
    ensures var after := Act(SITE, Site(), Foreign(env, schedule));
            && after.db == Site().db && Stored(SITE, after) == 100
            && LiveSerial(SITE, Site(), TargetLoc(SITE, "ns1")) == Some(100)
            && LiveSerial(SITE, after, TargetLoc(SITE, "ns1")) == Some(7)
  {
    hide *;
    SiteIsInOrder();
    SiteHolds();
    ZoneNames();
    ZonesShare();
    SharingIs();
    SharingRenders();
    SiteTarget(6);
    SiteReachable();
    env, schedule := SharedFileIsReplaced(SITE, SHARING, Site(), [SUFFIX]);
    assert "ns1" in SplitTargets(Site().db.zones[SHARING.zone].targets);
    StoredRow(SITE, Site());
    StoredRow(SITE, Act(SITE, Site(), Foreign(env, schedule)));
  }
}

/**
 A rollback and the deploy after it: what is published is the snapshot's text with a new serial;
 and when such a deploy, cut short, leaves the zone reading clean.
 */
module Rollbacks {
  import opened Text
  import opened Serial
  import opened Pipeline
  import opened ZoneText
  import opened ZoneLaws
  import opened Settings
  import Seqs
  import opened Store
  import opened StoreLaws
  import opened StoreTheorems
  import opened System
  import SystemLaws
  import opened Agreement
  import opened SystemRestores
  import opened Handlers
  import opened Promotion
  import opened GoingBack

  // ---------------------------------------------------------------------
  // Rolled back
  // ---------------------------------------------------------------------

  lemma {:induction false} ActAllFrom(cfg: Config, sys: Sys, a: Action, run: seq<Action>)
    ensures ActAll(cfg, sys, [a] + run) == ActAll(cfg, Act(cfg, sys, a), run)
    decreases |run|
  {
    if run == [] {
      ActAllSnoc(cfg, sys, [], a);
      assert [a] + [] == [] + [a] && ActAll(cfg, sys, []) == sys;
    } else {
      var k := |run| - 1;
      ActAllFrom(cfg, sys, a, run[..k]);
      ActAllSnoc(cfg, sys, [a] + run[..k], run[k]);
      assert [a] + run == [a] + run[..k] + [run[k]];
    }
    hide Act;
  }

  lemma PermittedFrom(cfg: Config, sys: Sys, a: Action, run: seq<Action>)
    requires Permitted(cfg, sys, a) && PermittedRun(cfg, Act(cfg, sys, a), run)
    ensures PermittedRun(cfg, sys, [a] + run)
  {
    hide Permitted, Act, ActAll;
    forall k | 0 <= k < |[a] + run| ensures Permitted(cfg, ActAll(cfg, sys, ([a] + run)[..k]), ([a] + run)[k]) {
      if k == 0 {
        NoActions(cfg, sys);
      } else {
        assert ([a] + run)[..k] == [a] + run[..k - 1];
        ActAllFrom(cfg, sys, a, run[..k - 1]);
      }
    }
  }

  /** The step of a rollback to this snapshot. */
  function RollbackTo(cfg: Config, s: SnapRow): (a: Action)
    requires ParseText(s.content, cfg.zone).Ok? && HasSoa(ParseText(s.content, cfg.zone).value)
    ensures a.Edit? && a.stmt.RestoreTx? && a.stmt.zone == cfg.zone
  {
    var z := ParseText(s.content, cfg.zone).value;
    Edit(RestoreTx(cfg.zone, SoaOf(z), DataRecordsOf(z.records)))
  }

  /** The snapshot's text with another serial. */
  function Reissued(cfg: Config, s: SnapRow, serial: uint32): string
    requires ParseText(s.content, cfg.zone).Ok? && HasSoa(ParseText(s.content, cfg.zone).value)
  {
    RenderText(WithSerial(ParseText(s.content, cfg.zone).value, serial))
  }

  lemma SnapshotReads(cfg: Config, db: Db, s: SnapRow)
    requires StoreSound(cfg, db) && s in SnapsOf(db, cfg.zone)
    ensures ParseText(s.content, cfg.zone).Ok? && HasSoa(ParseText(s.content, cfg.zone).value)
    ensures PermittedEdit(cfg, db, RollbackTo(cfg, s).stmt)
    ensures RestorePlan(db, cfg.zone, s.id) == Ok(RollbackTo(cfg, s).stmt)
    ensures RestoreSnapshot(db, cfg.zone, s.id) == Exec(db, RollbackTo(cfg, s).stmt)
  {
    RetainedIsPublished(cfg, db, s);
    PublishedPlan(db, s);
    hide ParseText, StoreSound, IsPublished, Exec, SoaOf, DataRecordsOf, SoaIndex, PermittedEdit, Integrity;
    PublishedText(cfg.zone, s.serial, s.content);
    RollbackIsPermitted(cfg, db, s.id);
  }

  /** Restoring a snapshot whose mailbox holds no '@' gives the snapshot's zone back. */
  lemma RestoredBuild(cfg: Config, db: Db, s: SnapRow)
    requires StoreSound(cfg, db) && s in SnapsOf(db, cfg.zone) && '@' !in TextMailbox(cfg.zone, s.content)
    ensures var db' := RestoreSnapshot(db, cfg.zone, s.id);
            && StoreSound(cfg, db') && cfg.zone in db.zones && cfg.zone in db'.zones
            && db'.zones[cfg.zone].targets == db.zones[cfg.zone].targets
            && BuildDb(db', cfg.zone) == ParseText(s.content, cfg.zone) && BuildDb(db', cfg.zone).Ok?
  {
    hide *;
    var db' := RestoreSnapshot(db, cfg.zone, s.id);
    RetainedIsPublished(cfg, db, s);
    SnapshotReads(cfg, db, s);
    SystemLaws.EditKeepsSound(cfg, db, RollbackTo(cfg, s).stmt);
    RestoreRoundTrip(db, s);
    PublishedMailbox(s);
    CurrentBuilds(cfg, db');
    PublishedText(cfg.zone, s.serial, s.content);
    RenderInjective(BuildDb(db', cfg.zone).value, ParseText(s.content, cfg.zone).value);
  }

  // ---------------------------------------------------------------------
  // And deployed
  // ---------------------------------------------------------------------

  lemma RenderingOfBuilt(cfg: Config, sys: Sys)
    requires cfg.zone in sys.db.zones && BuildDb(sys.db, cfg.zone).Ok? && HasSoa(BuildDb(sys.db, cfg.zone).value)
    ensures var z := BuildDb(sys.db, cfg.zone).value;
            var serial := NextSerial(cfg.policy, SoaOf(z).serial, sys.now);
            && Rendering(cfg, sys).Some? && Rendering(cfg, sys).value.serial == serial
            && Rendering(cfg, sys).value.content == RenderText(WithSerial(z, serial))
  {
    hide BuildFrom, NextSerial, RenderText, WithSerial, Records, SplitTargets, SoaOf, SoaIndex;
  }

  lemma EditOnly(cfg: Config, sys: Sys, stmt: Stmt)
    ensures Act(cfg, sys, Edit(stmt)) == sys.(db := Exec(sys.db, stmt))
  {
    hide Exec;
  }

  /** The state after the rollback, and what a deploy of it renders. */
  lemma RolledBack(cfg: Config, sys: Sys, s: SnapRow)
    requires Coherent(cfg, sys) && sys.flight.Idle? && s in SnapsOf(sys.db, cfg.zone)
    requires '@' !in TextMailbox(cfg.zone, s.content)
    ensures ParseText(s.content, cfg.zone).Ok? && HasSoa(ParseText(s.content, cfg.zone).value)
    ensures Permitted(cfg, sys, RollbackTo(cfg, s)) && cfg.zone in sys.db.zones
    ensures var a, serial := Act(cfg, sys, RollbackTo(cfg, s)), NextSerial(cfg.policy, s.serial, sys.now);
            && Coherent(cfg, a) && a.flight.Idle? && cfg.zone in a.db.zones && BuildDb(a.db, cfg.zone).Ok?
            && a.db.zones[cfg.zone].targets == sys.db.zones[cfg.zone].targets
            && LastSnapshot(a.db, cfg.zone) == LastSnapshot(sys.db, cfg.zone)
            && Rendering(cfg, a).Some? && Rendering(cfg, a).value.content == Reissued(cfg, s, serial)
  {
    hide *;
    CoherentParts(cfg, sys);
    SnapshotReads(cfg, sys.db, s);
    RestoredBuild(cfg, sys.db, s);
    EditOnly(cfg, sys, RollbackTo(cfg, s).stmt);
    EditIsPermitted(cfg, sys, RollbackTo(cfg, s).stmt);
    StepIsCoherent(cfg, sys, RollbackTo(cfg, s));
    SystemLaws.EditKeepsSnaps(cfg, sys.db, RollbackTo(cfg, s).stmt);
    RetainedIsPublished(cfg, sys.db, s);
    PublishedText(cfg.zone, s.serial, s.content);
    RenderingOfBuilt(cfg, Act(cfg, sys, RollbackTo(cfg, s)));
    ReissuedIs(cfg, s, NextSerial(cfg.policy, s.serial, sys.now));
  }

  lemma EditIsPermitted(cfg: Config, sys: Sys, stmt: Stmt)
    requires PermittedEdit(cfg, sys.db, stmt)
    ensures Permitted(cfg, sys, Edit(stmt))
  {
    hide PermittedEdit;
  }

  lemma ReissuedIs(cfg: Config, s: SnapRow, serial: uint32)
    requires ParseText(s.content, cfg.zone).Ok? && HasSoa(ParseText(s.content, cfg.zone).value)
    ensures Reissued(cfg, s, serial) == RenderText(WithSerial(ParseText(s.content, cfg.zone).value, serial))
  {
    hide ParseText, RenderText, WithSerial;
  }

  /** From rest, a rollback to any retained snapshot and a deploy on which nothing goes wrong
      leave the zone clean, with the snapshot's text under a new serial on every target. */
  lemma RollbackDeploys(cfg: Config, sys: Sys, s: SnapRow, suffixes: seq<string>) returns (run: seq<Action>)
    requires Coherent(cfg, sys) && sys.flight.Idle? && s in SnapsOf(sys.db, cfg.zone)
    requires '@' !in TextMailbox(cfg.zone, s.content)
    requires cfg.zone in sys.db.zones && Reachable(cfg, SplitTargets(sys.db.zones[cfg.zone].targets), suffixes)
    ensures ParseText(s.content, cfg.zone).Ok? && HasSoa(ParseText(s.content, cfg.zone).value)
    ensures PermittedRun(cfg, sys, [RollbackTo(cfg, s)] + run)
    ensures var b := Act(cfg, ActAll(cfg, sys, [RollbackTo(cfg, s)] + run), Prune);
            && !Dirty(b.db, cfg.zone)
            && forall t <- SplitTargets(sys.db.zones[cfg.zone].targets) ::
                 Lookup(b.files, TargetLoc(cfg, t))
                 == Some(Reissued(cfg, s, NextSerial(cfg.policy, s.serial, sys.now)))
  {
    hide *;
    RolledBack(cfg, sys, s);
    var a := Act(cfg, sys, RollbackTo(cfg, s));
    run := CanPublish(cfg, a, suffixes);
    PermittedFrom(cfg, sys, RollbackTo(cfg, s), run);
    ActAllFrom(cfg, sys, RollbackTo(cfg, s), run);
    var c := ActAll(cfg, a, run);
    RunIsCoherent(cfg, a, run);
    UndisturbedDeployIsClean(cfg, a, run);
    IdleHasNone(cfg, a);
    NoneDeletes(cfg, run);
    SnapshotStays(cfg, a, run);
    SnapshotIsThere(cfg, c);
    FreshSnapshot(cfg, c);
    RenderedJob(cfg, a);
    PruneEffect(cfg, c);
  }

  lemma IdleHasNone(cfg: Config, sys: Sys)
    requires sys.flight.Idle?
    ensures SnapshotThere(cfg, sys)
  {
  }

  // ---------------------------------------------------------------------
  // And cut short
  // ---------------------------------------------------------------------

  lemma CutShort(cfg: Config, sys: Sys, suffixes: seq<string>) returns (run: seq<Action>)
    requires Coherent(cfg, sys) && sys.flight.Idle? && cfg.zone in sys.db.zones
    requires BuildDb(sys.db, cfg.zone).Ok? && Reachable(cfg, SplitTargets(sys.db.zones[cfg.zone].targets), suffixes)
    ensures PermittedRun(cfg, sys, run) && NoOwnEdit(cfg, run)
    ensures Rendering(cfg, sys).Some? && ActAll(cfg, sys, run).flight == SerialSet(Rendering(cfg, sys).value)
    ensures LastSnapshot(ActAll(cfg, sys, run).db, cfg.zone) == LastSnapshot(sys.db, cfg.zone)
  {
    hide *;
    RenderingSucceeds(cfg, sys);
    RenderedJob(cfg, sys);
    var job := Rendering(cfg, sys).value;
    var schedule := GoodPush(cfg, sys.files, job, suffixes);
    var env := GoodEnv(cfg, sys.files, job, suffixes);
    GoodFits(cfg, sys, job, suffixes);
    ReadsRun(cfg, sys);
    PushRun(cfg, sys, job, env, schedule);
    run := READS + [Push(env, schedule)] + [WriteSerial];
    ActAllSnoc(cfg, sys, READS + [Push(env, schedule)], WriteSerial);
    SerialEffect(cfg, ActAll(cfg, sys, READS + [Push(env, schedule)]));
    CoherentParts(cfg, sys);
    SerialIsPermitted(cfg, sys.db, job.serial);
    SystemLaws.EditKeepsSnaps(cfg, sys.db, SetSerial(cfg.zone, job.serial));
    NothingForbidden(cfg, sys, env, schedule);
  }

  lemma NothingForbidden(cfg: Config, sys: Sys, env: Env, schedule: seq<Thread>)
    ensures var run := READS + [Push(env, schedule)] + [WriteSerial];
            PermittedRun(cfg, sys, run) && NoOwnEdit(cfg, run)
  {
    hide ActAll;
    var run := READS + [Push(env, schedule)] + [WriteSerial];
    assert forall k :: 0 <= k < |run| ==> !run[k].Edit? && !run[k].Foreign?;
  }

  /** A rollback, then a deploy that dies after its serial update: the zone reads clean exactly
      when the newest snapshot is the very text the deploy pushed. */
  lemma HalfDoneAfterRollback(cfg: Config, sys: Sys, s: SnapRow, newest: SnapRow, suffixes: seq<string>)
    returns (run: seq<Action>)
    requires Coherent(cfg, sys) && sys.flight.Idle? && s in SnapsOf(sys.db, cfg.zone)
    requires '@' !in TextMailbox(cfg.zone, s.content) && LastSnapshot(sys.db, cfg.zone) == Some(newest)
    requires cfg.zone in sys.db.zones && Reachable(cfg, SplitTargets(sys.db.zones[cfg.zone].targets), suffixes)
    ensures ParseText(s.content, cfg.zone).Ok? && HasSoa(ParseText(s.content, cfg.zone).value)
    ensures PermittedRun(cfg, sys, [RollbackTo(cfg, s)] + run)
    ensures var b := ActAll(cfg, sys, [RollbackTo(cfg, s)] + run);
            && b.flight.SerialSet?
            && (!Dirty(b.db, cfg.zone)
                <==> newest.content == Reissued(cfg, s, NextSerial(cfg.policy, s.serial, sys.now)))
  {
    hide *;
    RolledBack(cfg, sys, s);
    var a := Act(cfg, sys, RollbackTo(cfg, s));
    run := CutShort(cfg, a, suffixes);
    PermittedFrom(cfg, sys, RollbackTo(cfg, s), run);
    ActAllFrom(cfg, sys, RollbackTo(cfg, s), run);
    RunIsCoherent(cfg, a, run);
    IdleIsUndisturbed(cfg, a);
    UndisturbedRun(cfg, a, run);
    HalfDoneExactly(cfg, ActAll(cfg, a, run));
  }

  lemma IdleIsUndisturbed(cfg: Config, sys: Sys)
    requires sys.flight.Idle? && cfg.zone in sys.db.zones
    ensures Undisturbed(cfg, sys)
  {
  }

  // ---------------------------------------------------------------------
  // On a site
  // ---------------------------------------------------------------------

  /** The text of the zone of this serial. */
  function TextAt(serial: uint32): string {
    var z := BuildZone(SITE.zone, PlainRow(serial).soa, []);
    if z.Ok? then RenderText(z.value) else ""
  }

  /** A zone deployed twice with nothing changed in between. */
  function TwiceDeployed(): Sys {
    Sys(Db(map[SITE.zone := PlainRow(101)], [], [First(), Second()], 0, 2, 20), map[], NOW, Idle)
  }

  function First(): SnapRow {
    SnapRow(1, SITE.zone, 100, TextAt(100))
  }

  function Second(): SnapRow {
    SnapRow(2, SITE.zone, 101, TextAt(101))
  }

  function ZoneAt(serial: uint32): Result<ZoneData> {
    BuildFrom(SITE.zone, PlainRow(serial), [])
  }

  lemma RowIsGood(serial: uint32)
    ensures GoodSettings(SITE.zone, PlainRow(serial).soa) && SafeSettings(SITE.zone, PlainRow(serial).soa)
    ensures NameIn(DnsMbox(PlainRow(serial).soa.mbox)) == "b."
  {
    ZoneNames();
    RowNames();
    RowIsSafeIn(SITE.zone, serial);
    SafeExactly(SITE.zone, PlainRow(serial).soa);
    NameHoldsItself("b.");
    hide SafeSettings, IsName, HoldsName, Fqdn, DnsMbox, Apex, NameIn;
    hide SITE;
  }

  lemma NoRowsBuild(zone: string, row: ZoneRow)
    ensures BuildFrom(zone, row, []) == BuildZone(zone, row.soa, [])
  {
    assert RecsOf([]) == [];
    hide BuildZone;
  }

  lemma SameRow(serial: uint32, other: uint32)
    ensures PlainRow(other).soa == PlainRow(serial).soa.(serial := other) && PlainRow(serial).soa.serial == serial
    ensures TextAt(other) == if ZoneAt(other).Ok? then RenderText(ZoneAt(other).value) else ""
  {
    NoRowsBuild(SITE.zone, PlainRow(other));
    hide BuildZone, RenderText;
  }

  /** Building with one serial and writing another is building with the other. */
  lemma TextFacts(serial: uint32, other: uint32)
    ensures ZoneAt(serial).Ok? && HasSoa(ZoneAt(serial).value)
    ensures TextAt(other) == RenderText(WithSerial(ZoneAt(serial).value, other))
    ensures IsPublished(SITE.zone, other, TextAt(other)) && ParseText(TextAt(other), SITE.zone) == ZoneAt(other)
    ensures '@' !in TextMailbox(SITE.zone, TextAt(other))
  {
    hide *;
    RowIsGood(serial);
    NoRows();
    SameRow(serial, other);
    NoRowsBuild(SITE.zone, PlainRow(serial));
    NoRowsBuild(SITE.zone, PlainRow(other));
    BumpIsRebuild(SITE.zone, PlainRow(serial).soa, [], other);
    DeployedIsPublished(SITE.zone, PlainRow(serial), [], other);
    ZoneAtIs(serial);
    ZoneAtIs(other);
    PublishedMailbox(SnapRow(0, SITE.zone, other, TextAt(other)));
    RowsEqual(serial, other);
  }

  lemma ZoneAtIs(serial: uint32)
    ensures ZoneAt(serial) == BuildFrom(SITE.zone, PlainRow(serial), [])
    ensures '@' !in "b."
  {
    hide BuildFrom;
  }

  lemma RowsEqual(serial: uint32, other: uint32)
    ensures PlainRow(serial).(soa := PlainRow(serial).soa.(serial := other)) == PlainRow(other)
  {
  }

  lemma TwiceSnapshots()
    ensures SnapsOf(TwiceDeployed().db, SITE.zone) == [First(), Second()]
    ensures LastSnapshot(TwiceDeployed().db, SITE.zone) == Some(Second())
    ensures Integrity(TwiceDeployed().db) && TwiceDeployed().db.keep > 0 && TwiceDeployed().db.records == []
    ensures SITE.zone in TwiceDeployed().db.zones && TwiceDeployed().db.zones[SITE.zone] == PlainRow(101)
    ensures TwiceDeployed().flight.Idle? && TwiceDeployed().now == NOW
  {
    hide TextAt, PlainRow, SITE;
    var db := TwiceDeployed().db;
    assert First().zone == SITE.zone == Second().zone;
    Seqs.FilterAll(db.snapshots, SnapIn(SITE.zone));
  }

  lemma SnapshotsArePublished()
    ensures IsPublished(SITE.zone, First().serial, First().content)
    ensures IsPublished(SITE.zone, Second().serial, Second().content)
    ensures First().content == TextAt(100) && Second().content == TextAt(101) && First().serial == 100
  {
    TextFacts(100, 100);
    TextFacts(100, 101);
    hide TextAt, IsPublished, SITE, TextMailbox, ZoneAt, WithSerial, RenderText, ParseText;
  }

  lemma IdleSite(sys: Sys, first: SnapRow, second: SnapRow)
    requires Integrity(sys.db) && sys.db.keep > 0 && sys.db.records == [] && sys.flight.Idle?
    requires SITE.zone in sys.db.zones && SafeSettings(SITE.zone, sys.db.zones[SITE.zone].soa)
    requires SnapsOf(sys.db, SITE.zone) == [first, second]
    requires IsPublished(SITE.zone, first.serial, first.content)
    requires IsPublished(SITE.zone, second.serial, second.content)
    ensures Coherent(SITE, sys)
  {
    hide Integrity, SafeSettings, SnapsOf, IsPublished, SITE;
  }

  lemma TwiceIsCoherent()
    ensures Coherent(SITE, TwiceDeployed())
  {
    hide *;
    TwiceSnapshots();
    RowIsGood(101);
    SnapshotsArePublished();
    IdleSite(TwiceDeployed(), First(), Second());
  }

  lemma SiteReissue()
    ensures '@' !in TextMailbox(SITE.zone, First().content)
    ensures ParseText(First().content, SITE.zone).Ok? && HasSoa(ParseText(First().content, SITE.zone).value)
    ensures NextSerial(SITE.policy, First().serial, NOW) == 101
    ensures Second().content == Reissued(SITE, First(), 101)
  {
    hide *;
    TextFacts(100, 100);
    TextFacts(100, 101);
    SnapshotsArePublished();
    NextIs101();
    ReissuedIs(SITE, First(), 101);
  }

  lemma NextIs101()
    ensures NextSerial(SITE.policy, 100, NOW) == 101
  {
  }

  /** On it, a rollback to the first snapshot and a deploy that dies after its serial update
      leave the zone reading clean. */
  lemma HalfDoneReadsClean() returns (run: seq<Action>)
    ensures Coherent(SITE, TwiceDeployed()) && PermittedRun(SITE, TwiceDeployed(), run)
    ensures ActAll(SITE, TwiceDeployed(), run).flight.SerialSet?
    ensures !Dirty(ActAll(SITE, TwiceDeployed(), run).db, SITE.zone)
  {
    hide *;
    TwiceIsCoherent();
    TwiceSnapshots();
    SiteReissue();
    SiteTarget(101);
    SiteReachable();
    FirstIsThere();
    var rest := HalfDoneAfterRollback(SITE, TwiceDeployed(), First(), Second(), [SUFFIX]);
    run := [RollbackTo(SITE, First())] + rest;
  }

  lemma FirstIsThere()
    ensures First() in [First(), Second()]
  {
  }
}

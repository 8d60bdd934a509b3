/**
 When a deploy publishes: exactly when every target gets through phase 1 and every move
 reports success; and that a zone, once in the database, can get there.
 */
module Promotion {
  import opened Text
  import opened Serial
  import opened Pipeline
  import PipelineSafety
  import PipelineTheorems
  import opened PipelineProgress
  import opened Settings
  import opened Store
  import StoreLaws
  import opened StoreTheorems
  import opened System
  import opened Agreement
  import SystemLaws
  import SystemTheorems
  import opened SystemRuns
  import opened Handlers

  /** Every target is configured, reached, uploaded to and checked, and every move succeeds. */
  ghost predicate GoesWell(env: Env)
    requires env.Valid()
  {
    forall i :: 0 <= i < env.N() ==> Passes(env, i) && env.scripts[i].move.ok
  }

  lemma AllMovedExactly(env: Env, schedule: seq<Thread>)
    requires env.Valid() && Run(env, Init(env), schedule).phase.Returned?
    ensures Run(env, Init(env), schedule).AllMoved() <==> GoesWell(env)
  {
    var st := Run(env, Init(env), schedule);
    hide Run, Init, Passes, EveryoneChecked, Staged, Verified, CloseConn;
    ReturnedAre(env, schedule);
    forall i | 0 <= i < env.N()
      ensures (forall j :: 0 <= j < env.N() ==> Passes(env, j)) ==>
                (st.targets[i].res.moved <==> env.scripts[i].move.ok)
      ensures !(forall j :: 0 <= j < env.N() ==> Passes(env, j)) ==> !st.targets[i].res.moved
    {
      FlagsExactly(env, schedule, i);
    }
    if forall j :: 0 <= j < env.N() ==> Passes(env, j) {
      assert GoesWell(env) <==> forall i :: 0 <= i < env.N() ==> env.scripts[i].move.ok;
      assert st.AllMoved() <==> forall i :: 0 <= i < env.N() ==> st.targets[i].res.moved;
      if st.AllMoved() {
        forall i | 0 <= i < env.N() ensures env.scripts[i].move.ok { assert st.targets[i].res.moved; }
      }
      if GoesWell(env) {
        forall i | 0 <= i < env.N() ensures st.targets[i].res.moved { assert env.scripts[i].move.ok; }
      }
    } else {
      assert !st.targets[0].res.moved;
    }
  }

  /** A deploy request whose pipeline ran is promoted if and only if everything up to the moves
      went well, whatever reloads and verification did. */
  lemma PromotedExactly(cfg: Config, a: Sys, b: Sys, reply: Reply, run: seq<Action>)
    requires Answers(cfg, a, b, reply, run) && reply.Deployed?
    ensures |run| > 3 && run[3].Push? && run[3].env.Valid()
    ensures reply.promoted <==> GoesWell(run[3].env)
  {
    hide ActAll, Act, GoesWell, Run, Init;
    AllMovedExactly(run[3].env, run[3].schedule);
  }

  // ---------------------------------------------------------------------
  // A deploy on which nothing goes wrong
  // ---------------------------------------------------------------------

  /** Some targets, all of them configured, and a distinct suffix for each. */
  ghost predicate Reachable(cfg: Config, targets: seq<string>, suffixes: seq<string>) {
    && targets != [] && (forall t <- targets :: t in cfg.servers)
    && |suffixes| == |targets| && SuffixesOk(suffixes)
  }

  /** Every operation of a target goes well. */
  function GoodScript(): Script {
    var done := Command(true, true, "", "");
    Script(Connected, Uploaded, done, done, done, NoAnswer, done)
  }

  function GoodEnv(cfg: Config, files: Files, job: Job, suffixes: seq<string>): Env {
    Env(Request(cfg.zone, job.content, job.oldSerial, job.serial, job.targets), cfg.servers,
        seq(|job.targets|, i => GoodScript()), suffixes, files)
  }

  lemma GoodEnvGoesWell(cfg: Config, files: Files, job: Job, suffixes: seq<string>)
    requires Reachable(cfg, job.targets, suffixes)
    ensures var env := GoodEnv(cfg, files, job, suffixes); env.Valid() && GoesWell(env)
  {
    var env := GoodEnv(cfg, files, job, suffixes);
    forall i | 0 <= i < env.N() ensures Passes(env, i) && env.scripts[i].move.ok {
      assert job.targets[i] in cfg.servers;
    }
  }

  lemma GoodLiveLoc(cfg: Config, files: Files, job: Job, suffixes: seq<string>, i: nat)
    requires i < |job.targets|
    ensures GoodEnv(cfg, files, job, suffixes).LiveLoc(i) == TargetLoc(cfg, job.targets[i])
  {
  }

  /** Configured targets and nothing going wrong: the content is put on every one. */
  lemma GoodPush(cfg: Config, files: Files, job: Job, suffixes: seq<string>) returns (schedule: seq<Thread>)
    requires Reachable(cfg, job.targets, suffixes)
    ensures GoodEnv(cfg, files, job, suffixes).Valid()
    ensures var env := GoodEnv(cfg, files, job, suffixes);
            var st := Run(env, Init(env), schedule);
            && st.phase.Returned? && st.AllMoved()
            && forall i :: 0 <= i < |job.targets| ==>
                 Lookup(st.files, TargetLoc(cfg, job.targets[i])) == Some(job.content)
  {
    hide *;
    var env := GoodEnv(cfg, files, job, suffixes);
    GoodEnvGoesWell(cfg, files, job, suffixes);
    PipelineSafety.InitInv(env);
    InitSizes(env);
    schedule := CanReturn(env, Init(env));
    AllMovedExactly(env, schedule);
    PipelineTheorems.AllMovedMeansLive(env, schedule);
    GoodEnvIs(cfg, files, job, suffixes);
    forall i | 0 <= i < |job.targets|
      ensures Lookup(Run(env, Init(env), schedule).files, TargetLoc(cfg, job.targets[i])) == Some(job.content)
    {
      GoodLiveLoc(cfg, files, job, suffixes, i);
    }
  }

  lemma GoodEnvIs(cfg: Config, files: Files, job: Job, suffixes: seq<string>)
    ensures var env := GoodEnv(cfg, files, job, suffixes); env.N() == |job.targets| && env.req.content == job.content
  {
  }

  /** A zone in order whose rows all have a type renders. */
  lemma RenderingSucceeds(cfg: Config, sys: Sys)
    requires Coherent(cfg, sys) && cfg.zone in sys.db.zones && BuildDb(sys.db, cfg.zone).Ok?
    ensures Rendering(cfg, sys).Some?
  {
    RowIsSafe(cfg, sys);
    var row, rows := sys.db.zones[cfg.zone], Records(sys.db, cfg.zone);
    hide Coherent, SafeSettings, Records, Render, CanonicalRows, RowsSorted, SplitTargets, StorableRows, BuildFrom;
    RowsBuildExactly(cfg.zone, row, rows);
    SystemLaws.RenderExactly(cfg, SplitTargets(row.targets), row, rows, sys.now);
  }

  lemma RowIsSafe(cfg: Config, sys: Sys)
    requires Coherent(cfg, sys) && cfg.zone in sys.db.zones
    ensures SafeSettings(cfg.zone, sys.db.zones[cfg.zone].soa)
    ensures StorableRows(Records(sys.db, cfg.zone)) && RowsSorted(Records(sys.db, cfg.zone))
  {
    CoherentParts(cfg, sys);
    SoundRows(cfg, sys.db);
    hide SafeSettings, Records, StorableRows, RowsSorted, StoreLaws.Integrity, IsPublished, StorableZone, FlightSound;
  }

  /** From rest, a zone that builds, for targets that are configured, can be deployed and
      published; short of the largest serial this is one of the runs in which serials are safe. */
  lemma CanPublish(cfg: Config, sys: Sys, suffixes: seq<string>) returns (run: seq<Action>)
    requires Coherent(cfg, sys) && sys.flight.Idle? && cfg.zone in sys.db.zones
    requires BuildDb(sys.db, cfg.zone).Ok? && Reachable(cfg, SplitTargets(sys.db.zones[cfg.zone].targets), suffixes)
    ensures PermittedRun(cfg, sys, run) && NoOwnEdit(cfg, run)
    ensures Stored(cfg, sys) < WORD - 1 ==> AllowedRun(cfg, sys, run)
    ensures Rendering(cfg, sys).Some? && ActAll(cfg, sys, run).flight == Snapshotted(Rendering(cfg, sys).value)
  {
    hide *;
    RenderingSucceeds(cfg, sys);
    RenderedJob(cfg, sys);
    var job := Rendering(cfg, sys).value;
    var schedule := GoodPush(cfg, sys.files, job, suffixes);
    var env := GoodEnv(cfg, sys.files, job, suffixes);
    GoodFits(cfg, sys, job, suffixes);
    InitSizes(env);
    var st := Run(env, Init(env), schedule);
    GoodOutcome(env, schedule);
    AnswerPromoted(cfg, sys, job, env, schedule, st.status, st.files);
    var pushed := READS + [Push(env, schedule)];
    var all := pushed + PUBLISH;
    var reply, after := Deployed(st.status, true), Finished(cfg, sys, job, st.files, true);
    StoredRow(cfg, sys);
    RequestIsPermitted(cfg, sys, after, reply, all);
    PromotedRun(cfg, sys, after, reply, all);
    PermittedPrefix(cfg, sys, all, 6);
    if Stored(cfg, sys) < WORD - 1 {
      RequestIsAllowed(cfg, sys, after, reply, all);
      SystemTheorems.AllowedPrefix(cfg, sys, all, 6);
    }
    ReadsRun(cfg, sys);
    PushRun(cfg, sys, job, env, schedule);
    PublishRun(cfg, sys, pushed);
    run := all[..6];
    SixSteps(Push(env, schedule));
  }

  lemma SixSteps(push: Action)
    ensures (READS + [push] + PUBLISH)[..6] == READS + [push] + [WriteSerial, WriteSnapshot]
  {
  }

  lemma GoodFits(cfg: Config, sys: Sys, job: Job, suffixes: seq<string>)
    requires GoodEnv(cfg, sys.files, job, suffixes).Valid()
    ensures Fits(cfg, sys, job, GoodEnv(cfg, sys.files, job, suffixes))
  {
  }

  lemma InitSizes(env: Env)
    requires env.Valid()
    ensures |Init(env).targets| == env.N() == |env.scripts| == |env.suffixes|
  {
  }

  lemma GoodOutcome(env: Env, schedule: seq<Thread>)
    requires env.Valid()
    requires var st := Run(env, Init(env), schedule); st.phase.Returned? && st.AllMoved()
    ensures var st := Run(env, Init(env), schedule); Outcome(env, schedule, st.status, true, st.files)
  {
    hide Run, Init;
  }

  // ---------------------------------------------------------------------
  // The run theorems speak of something
  // ---------------------------------------------------------------------

  /** An empty site is ready for any zone with safe settings. */
  lemma EmptySiteIsReady(cfg: Config, row: ZoneRow, now: Instant)
    requires SafeSettings(cfg.zone, row.soa) && ClockInRange(now)
    ensures Ready(cfg, Sys(Db(map[], [], [], 0, 0, 20), map[], now, Idle), ByCreation(row))
  {
    hide SafeSettings, ClockInRange, Base, NextNat, IsLive, TextSerial;
  }

  /** From any start of a zone that builds, for targets that are configured, there is a run that
      publishes. On a site where serials are safe, and short of the largest one, it is a run
      in which they are. */
  lemma StartsCanPublish(cfg: Config, sys: Sys, start: Start, suffixes: seq<string>) returns (actions: seq<Action>)
    requires Fit(cfg, start) && Begins(cfg, sys, start) && BuildDb(Started(cfg, sys, start).db, cfg.zone).Ok?
    requires Reachable(cfg, SplitTargets(StartStmt(cfg, start).row.targets), suffixes)
    ensures Runs(cfg, sys, start, actions) && After(cfg, sys, start, actions).flight.Snapshotted?
    ensures Ready(cfg, sys, start) && StartStmt(cfg, start).row.soa.serial < WORD - 1 ==>
              RunsFrom(cfg, sys, start, actions)
  {
    hide *;
    StartedCoherent(cfg, sys, start);
    StoredRow(cfg, Started(cfg, sys, start));
    actions := CanPublish(cfg, Started(cfg, sys, start), suffixes);
    AfterIs(cfg, sys, start, actions);
    RunsIs(cfg, sys, start, actions);
    if Ready(cfg, sys, start) && StartStmt(cfg, start).row.soa.serial < WORD - 1 {
      RunsFromIs(cfg, sys, start, actions);
    }
  }

  lemma RunsIs(cfg: Config, sys: Sys, start: Start, actions: seq<Action>)
    requires Fit(cfg, start) && Begins(cfg, sys, start) && PermittedRun(cfg, Started(cfg, sys, start), actions)
    ensures Runs(cfg, sys, start, actions)
  {
    hide Fit, Started, PermittedRun;
  }

  lemma RunsFromIs(cfg: Config, sys: Sys, start: Start, actions: seq<Action>)
    requires Fit(cfg, start) && Ready(cfg, sys, start) && AllowedRun(cfg, Started(cfg, sys, start), actions)
    ensures RunsFrom(cfg, sys, start, actions)
  {
    hide Fit, Started, AllowedRun;
  }
}

/**
 The two-phase deploy always can return, and what it returns follows from what the remote
 operations do, target by target, whatever the schedule.
 */
module PipelineProgress {
  import opened Text
  import opened Remote
  import opened Pipeline
  import opened PipelineSafety
  import PipelineTheorems

  // ---------------------------------------------------------------------
  // No deadlock
  // ---------------------------------------------------------------------

  function PhaseRank(p: Phase): nat {
    match p
    case Staging => 6
    case Cleaning(_) => 5
    case Aborting(_) => 4
    case Committing => 5
    case Verifying => 4
    case Closing(_) => 3
    case Returned => 0
  }

  /** Loop iterations the coordinator has left in its phase. */
  function Left(n: nat, p: Phase): nat {
    match p
    case Cleaning(k) => if k <= n then n - k else 0
    case Aborting(k) => if k <= n then n - k else 0
    case Closing(k) => if k <= n then n - k else 0
    case _ => 0
  }

  /** Operations the goroutines have left in their phase. */
  function Work(ts: seq<Target>): nat {
    if ts == [] then 0 else Work(ts[..|ts| - 1]) + ts[|ts| - 1].pc.Rank()
  }

  lemma {:induction false} WorkShrinks(ts: seq<Target>, i: nat, t': Target)
    requires i < |ts| && t'.pc.Rank() < ts[i].pc.Rank()
    ensures Work(ts[i := t']) < Work(ts)
  {
    var n := |ts| - 1;
    if i < n {
      WorkShrinks(ts[..n], i, t');
      assert ts[i := t'][..n] == ts[..n][i := t'];
    } else {
      assert ts[i := t'][..n] == ts[..n];
    }
  }

  lemma {:induction false} RunFrom(env: Env, st: State, a: seq<Thread>, b: seq<Thread>)
    requires |st.targets| == env.N() == |env.scripts| == |env.suffixes|
    ensures Run(env, st, a + b) == Run(env, Run(env, st, a), b)
    decreases |b|
  {
    if b == [] {
      assert a + b == a;
    } else {
      assert (a + b)[..|a + b| - 1] == a + b[..|b| - 1];
      RunFrom(env, st, a, b[..|b| - 1]);
    }
  }

  lemma GoAdvances(env: Env, st: State, i: nat)
    requires env.Valid() && |st.targets| == env.N() && i < env.N() && !st.targets[i].pc.Parked()
    ensures var st' := Step(env, st, Go(i)); st'.phase == st.phase && Work(st'.targets) < Work(st.targets)
  {
    WorkShrinks(st.targets, i, Local(env, i, st.targets[i]));
    hide Local, Effect, Work;
  }

  lemma MainAdvances(env: Env, st: State)
    requires env.Valid() && |st.targets| == env.N() && !st.phase.Returned?
    requires st.phase.Staging? || st.phase.Committing? || st.phase.Verifying? ==> st.AllParked()
    ensures var st' := Step(env, st, Main);
            || PhaseRank(st'.phase) < PhaseRank(st.phase)
            || (PhaseRank(st'.phase) == PhaseRank(st.phase) && Left(env.N(), st'.phase) < Left(env.N(), st.phase))
  {
    hide MapTargets, StartCommit, StartVerify, CloseConn, SweepFiles, FinalStatus;
  }

  /** From every state the deploy can reach it can go on to return. */
  lemma {:induction false} CanReturn(env: Env, st: State) returns (more: seq<Thread>)
    requires Inv(env, st)
    ensures Run(env, st, more).phase.Returned?
    decreases PhaseRank(st.phase), Left(env.N(), st.phase), Work(st.targets)
  {
    hide TargetsInv, StatusInv, FilesInv, Step, Work, PhaseRank, Left;
    if st.phase.Returned? {
      more := [];
      return;
    }
    var th := Main;
    if !st.AllParked() && (st.phase.Staging? || st.phase.Committing? || st.phase.Verifying?) {
      var i: nat :| i < |st.targets| && !st.targets[i].pc.Parked();
      th := Go(i);
      GoAdvances(env, st, i);
    } else {
      MainAdvances(env, st);
    }
    StepKeepsInv(env, st, th);
    var rest := CanReturn(env, Step(env, st, th));
    more := [th] + rest;
    RunFrom(env, st, [th], rest);
    OneStep(env, st, th);
  }

  lemma OneStep(env: Env, st: State, th: Thread)
    requires |st.targets| == env.N() == |env.scripts| == |env.suffixes|
    ensures Run(env, st, [th]) == Step(env, st, th)
  {
    assert [th][..0] == [];
    hide Step;
  }

  // ---------------------------------------------------------------------
  // Every fair schedule returns
  // ---------------------------------------------------------------------

  /** What is left to do, in steps; a phase change leaves no more than another phase's worth. */
  function ToDo(env: Env, st: State): nat {
    PhaseRank(st.phase) * (4 * env.N() + 1) + (Left(env.N(), st.phase) + Work(st.targets))
  }

  lemma {:induction false} WorkBound(ts: seq<Target>)
    ensures Work(ts) <= 3 * |ts|
  {
    if ts != [] { WorkBound(ts[..|ts| - 1]); }
  }

  lemma FewerPhases(a: nat, b: nat, n: nat, x: nat, y: nat)
    requires a < b && x <= 4 * n
    ensures a * (4 * n + 1) + x < b * (4 * n + 1) + y
  {
    var c := 4 * n + 1;
    assert (a + 1) * c <= b * c;
    assert (a + 1) * c == a * c + c;
  }

  lemma ToDoBound(env: Env, st: State)
    requires |st.targets| == env.N()
    ensures ToDo(env, st) <= 28 * env.N() + 6
    ensures Left(env.N(), st.phase) + Work(st.targets) <= 4 * env.N()
  {
    WorkBound(st.targets);
    hide Work;
  }

  /** The threads that have something to do. */
  predicate Enabled(st: State, th: Thread) {
    match th
    case Go(i) => i < |st.targets| && !st.targets[i].pc.Parked()
    case Main =>
      !st.phase.Returned? && (st.phase.Staging? || st.phase.Committing? || st.phase.Verifying? ==> st.AllParked())
  }

  lemma SomeoneIsEnabled(st: State) returns (th: Thread)
    requires !st.phase.Returned?
    ensures Enabled(st, th) && (th.Go? ==> th.i < |st.targets|)
  {
    th := Main;
    if !st.AllParked() {
      var i: nat :| i < |st.targets| && !st.targets[i].pc.Parked();
      th := Go(i);
    }
  }

  lemma GoWaits(env: Env, st: State, i: nat)
    requires env.Valid() && |st.targets| == env.N() && !Enabled(st, Go(i))
    ensures Step(env, st, Go(i)) == st
  {
  }

  lemma MainWaits(env: Env, st: State)
    requires env.Valid() && |st.targets| == env.N() && !Enabled(st, Main)
    ensures Step(env, st, Main) == st
  {
    hide MapTargets, SweepFiles, FinalStatus, Pc.Parked;
  }

  /** A thread with something to do does some of it, and another leaves the state alone. */
  lemma StepCounts(env: Env, st: State, th: Thread)
    requires Inv(env, st)
    ensures if Enabled(st, th) then ToDo(env, Step(env, st, th)) < ToDo(env, st) else Step(env, st, th) == st
  {
    hide TargetsInv, StatusInv, FilesInv, PhaseRank, Left, Work, Step;
    var st' := Step(env, st, th);
    if !Enabled(st, th) {
      if th.Main? { MainWaits(env, st); } else { GoWaits(env, st, th.i); }
    } else if th.Go? {
      GoAdvances(env, st, th.i);
    } else {
      MainAdvances(env, st);
      ToDoBound(env, st');
      if PhaseRank(st'.phase) < PhaseRank(st.phase) {
        FewerPhases(PhaseRank(st'.phase), PhaseRank(st.phase), env.N(), Left(env.N(), st'.phase) + Work(st'.targets),
                    Left(env.N(), st.phase) + Work(st.targets));
      } else {
        MainKeepsWork(env, st);
      }
    }
  }

  lemma MainKeepsWork(env: Env, st: State)
    requires env.Valid() && |st.targets| == env.N() && PhaseRank(Step(env, st, Main).phase) == PhaseRank(st.phase)
    ensures Work(Step(env, st, Main).targets) == Work(st.targets)
  {
    hide Work, SweepFiles, MapTargets, FinalStatus, StartCommit, StartVerify;
    match st.phase
    case Aborting(k) => if k < |st.targets| { SameWork(st.targets, k, CloseConn(st.targets[k])); }
    case Closing(k) => if k < |st.targets| { SameWork(st.targets, k, CloseConn(st.targets[k])); }
    case _ =>
  }

  lemma {:induction false} SameWork(ts: seq<Target>, i: nat, t': Target)
    requires i < |ts| && t'.pc == ts[i].pc
    ensures Work(ts[i := t']) == Work(ts)
  {
    var n := |ts| - 1;
    if i < n {
      SameWork(ts[..n], i, t');
      assert ts[i := t'][..n] == ts[..n][i := t'];
    } else {
      assert ts[i := t'][..n] == ts[..n];
    }
  }

  /** A schedule either does something or found none of its threads with anything to do. */
  lemma {:induction false} RunCounts(env: Env, st: State, schedule: seq<Thread>)
    requires Inv(env, st)
    ensures var st' := Run(env, st, schedule);
            && Inv(env, st')
            && (ToDo(env, st') < ToDo(env, st) || (st' == st && forall th <- schedule :: !Enabled(st, th)))
    decreases |schedule|
  {
    hide TargetsInv, StatusInv, FilesInv, ToDo, Step, Enabled;
    if schedule != [] {
      var n := |schedule| - 1;
      RunCounts(env, st, schedule[..n]);
      var mid := Run(env, st, schedule[..n]);
      StepKeepsInv(env, mid, schedule[n]);
      StepCounts(env, mid, schedule[n]);
    }
  }

  /** A stretch of a schedule in which every thread has a turn. */
  predicate FullRound(env: Env, round: seq<Thread>) {
    Main in round && forall i :: 0 <= i < env.N() ==> Go(i) in round
  }

  function Concat(rounds: seq<seq<Thread>>): seq<Thread> {
    if rounds == [] then [] else Concat(rounds[..|rounds| - 1]) + rounds[|rounds| - 1]
  }

  lemma FullRoundCounts(env: Env, st: State, round: seq<Thread>)
    requires Inv(env, st) && FullRound(env, round) && !st.phase.Returned?
    ensures ToDo(env, Run(env, st, round)) < ToDo(env, st)
  {
    hide TargetsInv, StatusInv, FilesInv, ToDo, Run, Enabled, Env.Valid;
    var th := SomeoneIsEnabled(st);
    assert th in round;
    RunCounts(env, st, round);
  }

  lemma {:induction false} StaysReturned(env: Env, st: State, schedule: seq<Thread>)
    requires |st.targets| == env.N() == |env.scripts| == |env.suffixes| && st.phase.Returned?
    ensures Run(env, st, schedule).phase.Returned?
    decreases |schedule|
  {
    if schedule != [] { StaysReturned(env, st, schedule[..|schedule| - 1]); }
    hide Local, Effect;
  }

  lemma {:induction false} RoundsCount(env: Env, st: State, rounds: seq<seq<Thread>>)
    requires Inv(env, st) && forall round <- rounds :: FullRound(env, round)
    ensures var st' := Run(env, st, Concat(rounds)); st'.phase.Returned? || ToDo(env, st') + |rounds| <= ToDo(env, st)
    decreases |rounds|
  {
    hide TargetsInv, StatusInv, FilesInv, ToDo, Run, FullRound;
    if rounds == [] {
      RunCounts(env, st, []);
    } else {
      var n := |rounds| - 1;
      var mid := Run(env, st, Concat(rounds[..n]));
      forall round | round in rounds[..n] ensures FullRound(env, round) { assert round in rounds; }
      RoundsCount(env, st, rounds[..n]);
      RunCounts(env, st, Concat(rounds[..n]));
      RunFrom(env, st, Concat(rounds[..n]), rounds[n]);
      if mid.phase.Returned? {
        StaysReturned(env, mid, rounds[n]);
      } else {
        FullRoundCounts(env, mid, rounds[n]);
      }
    }
  }

  /** Whatever has happened so far, every schedule that goes on to give each thread a turn often
      enough returns: no barrier is waited at for ever. */
  lemma FairReturns(env: Env, before: seq<Thread>, rounds: seq<seq<Thread>>)
    requires env.Valid() && |rounds| > 28 * env.N() + 6
    requires forall round <- rounds :: FullRound(env, round)
    ensures Run(env, Init(env), before + Concat(rounds)).phase.Returned?
  {
    ReachableInv(env, before);
    hide TargetsInv, StatusInv, FilesInv, ToDo, Run, FullRound, Init;
    var st := Run(env, Init(env), before);
    RunFrom(env, Init(env), before, Concat(rounds));
    RoundsCount(env, st, rounds);
    ToDoBound(env, st);
  }

  // ---------------------------------------------------------------------
  // What decides the outcome
  // ---------------------------------------------------------------------

  /** Target i gets through phase 1. */
  predicate Passes(env: Env, i: nat)
    requires Indexed(env, i)
  {
    var s := env.scripts[i];
    env.req.targets[i] in env.servers && s.dial.Connected? && s.upload.Uploaded? && s.check.ok
  }

  /** Target i's temporary file is uploaded. */
  predicate Uploads(env: Env, i: nat)
    requires Indexed(env, i)
  {
    var s := env.scripts[i];
    env.req.targets[i] in env.servers && s.dial.Connected? && s.upload.Uploaded?
  }

  lemma StagedOutcome(env: Env, i: nat)
    requires Indexed(env, i)
    ensures Staged(env, i).res.checked <==> Passes(env, i)
    ensures Staged(env, i).res.staged <==> Uploads(env, i)
    ensures Staged(env, i).res.name == env.req.targets[i]
    ensures var s, r := env.scripts[i], Staged(env, i).res;
            && r.output == (if Uploads(env, i) then TrimSpace(s.check.output) else "")
            && r.err == if env.req.targets[i] !in env.servers then "unknown server in config"
                        else if s.dial.Refused? then "connect: " + s.dial.err
                        else if s.upload.UploadError? then "upload: " + s.upload.err
                        else if !s.check.ok then "checkzone: " + s.check.err
                        else ""
  {
    hide Env.TempLoc, TrimSpace;
    var t1 := Local(env, i, FRESH_TARGET);
    assert Staged(env, i) == Rest(env, i, t1);
    if t1.pc.ToUpload? {
      var t2 := Local(env, i, t1);
      assert Rest(env, i, t1) == Rest(env, i, t2);
      if t2.pc.ToCheck? {
        assert Rest(env, i, t2) == Rest(env, i, Local(env, i, t2));
      }
    }
  }

  lemma CommittedOutcome(env: Env, i: nat)
    requires Indexed(env, i) && Staged(env, i).res.checked
    ensures var s, r := env.scripts[i], Committed(env, i).res;
            && (r.moved <==> s.move.ok) && (r.reloaded <==> s.move.ok && s.reload.ok)
            && r.name == Staged(env, i).res.name
            && r.output == TrimSpace(if s.move.ok then s.reload.output else s.move.output)
            && r.err == if !s.move.ok then "move: " + s.move.err
                        else if !s.reload.ok then "reload: " + s.reload.err
                        else Staged(env, i).res.err
  {
    StagedShape(env, i);
    var t := StartCommit(Staged(env, i));
    hide Env.TempLoc, TrimSpace, Staged;
    var t1 := Local(env, i, t);
    assert Committed(env, i) == Rest(env, i, t1);
    if t1.pc.ToReload? {
      assert Rest(env, i, t1) == Rest(env, i, Local(env, i, t1));
    }
  }

  lemma VerifiedOutcome(env: Env, i: nat)
    requires Indexed(env, i) && Staged(env, i).res.checked
    ensures var s, r, c := env.scripts[i], Verified(env, i).res, Committed(env, i).res;
            && r.moved == c.moved && r.reloaded == c.reloaded && r.name == c.name
            && r.output == c.output && r.err == c.err
            && (r.verified <==> c.reloaded && s.verify == Answer(env.req.newSerial))
  {
    CommittedShape(env, i);
    var t := StartVerify(Committed(env, i));
    hide Env.TempLoc, TrimSpace, Committed, Staged;
    if t.pc.ToVerify? {
      assert Rest(env, i, t) == Rest(env, i, Local(env, i, t));
    }
  }

  lemma ReturnedAre(env: Env, schedule: seq<Thread>)
    requires env.Valid() && Run(env, Init(env), schedule).phase.Returned?
    ensures var st := Run(env, Init(env), schedule);
            && |st.targets| == env.N()
            && (EveryoneChecked(env) <==> st.AllChecked())
            && forall i :: 0 <= i < env.N() ==>
                 st.targets[i] == CloseConn(if EveryoneChecked(env) then Verified(env, i) else Staged(env, i))
  {
    ReachableInv(env, schedule);
    PipelineTheorems.ReturnedTargets(env, Run(env, Init(env), schedule));
    hide Run, Init, FilesInv, StatusInv, Shape, Staged, Verified, EveryoneChecked, CloseConn;
  }

  /** Each target's reported flags, from what the operations do: nothing is moved anywhere
      unless every target is configured, reached, uploaded to and checked; if so, each target
      goes as far as its own operations let it. */
  lemma FlagsExactly(env: Env, schedule: seq<Thread>, i: nat)
    requires env.Valid() && Run(env, Init(env), schedule).phase.Returned? && i < env.N()
    ensures var r, s := Run(env, Init(env), schedule).targets[i].res, env.scripts[i];
            var all := forall j :: 0 <= j < env.N() ==> Passes(env, j);
            && r.name == env.req.targets[i]
            && (r.staged <==> env.req.targets[i] in env.servers && s.dial.Connected? && s.upload.Uploaded?)
            && (r.checked <==> Passes(env, i))
            && (all ==>
                  && (r.moved <==> s.move.ok)
                  && (r.reloaded <==> s.move.ok && s.reload.ok)
                  && (r.verified <==> s.move.ok && s.reload.ok && s.verify == Answer(env.req.newSerial)))
            && (!all ==> !r.moved && !r.reloaded && !r.verified)
  {
    ReturnedAre(env, schedule);
    EveryonePasses(env);
    StagedOutcome(env, i);
    hide Run, Init, Staged, Committed, Verified, EveryoneChecked, Passes;
    StagedFlags(env, i);
    if EveryoneChecked(env) {
      EachChecked(env, i);
      CommittedOutcome(env, i);
      VerifiedOutcome(env, i);
      VerifiedChecked(env, i);
    }
  }

  /** What each target reports in words: the first operation that failed and why, and what the
      last check, move or reload it got to printed. */
  lemma MessagesExactly(env: Env, schedule: seq<Thread>, i: nat)
    requires env.Valid() && Run(env, Init(env), schedule).phase.Returned? && i < env.N()
    ensures var r, s := Run(env, Init(env), schedule).targets[i].res, env.scripts[i];
            var all := forall j :: 0 <= j < env.N() ==> Passes(env, j);
            && r.err == (if env.req.targets[i] !in env.servers then "unknown server in config"
                         else if s.dial.Refused? then "connect: " + s.dial.err
                         else if s.upload.UploadError? then "upload: " + s.upload.err
                         else if !s.check.ok then "checkzone: " + s.check.err
                         else if all && !s.move.ok then "move: " + s.move.err
                         else if all && !s.reload.ok then "reload: " + s.reload.err
                         else "")
            && r.output == (if env.req.targets[i] !in env.servers || s.dial.Refused? || s.upload.UploadError? then ""
                            else if !all then TrimSpace(s.check.output)
                            else TrimSpace(if s.move.ok then s.reload.output else s.move.output))
  {
    ReturnedAre(env, schedule);
    EveryonePasses(env);
    StagedOutcome(env, i);
    hide Run, Init, Staged, Committed, Verified, EveryoneChecked, TrimSpace;
    if EveryoneChecked(env) {
      EachChecked(env, i);
      CommittedOutcome(env, i);
      VerifiedOutcome(env, i);
    }
  }

  /** Where a configured target's files lie. */
  lemma FilesWhereConfigured(env: Env, i: nat)
    requires env.Valid() && i < env.N() && env.req.targets[i] in env.servers
    requires var dir := env.servers[env.req.targets[i]].zoneDir; dir != "" && dir != "." && dir != "/"
    ensures var srv, name := env.servers[env.req.targets[i]], BaseName(ZoneFile(env.req.zone));
            && env.LiveLoc(i) == Loc(srv.host, srv.zoneDir + "/" + name)
            && env.TempLoc(i) == Loc(srv.host, srv.zoneDir + "/" + ".mrdns-" + name + "-" + env.suffixes[i] + ".tmp")
            && ('/' !in env.req.zone ==> name == env.req.zone + ".zone")
  {
    FilesInDirectory(env.servers[env.req.targets[i]].zoneDir, env.req.zone, env.suffixes[i]);
    hide FinalPath, TempPath, BaseName;
  }

  lemma EveryonePasses(env: Env)
    requires env.Valid()
    ensures EveryoneChecked(env) <==> forall j :: 0 <= j < env.N() ==> Passes(env, j)
  {
    hide Staged, Passes;
    forall j | 0 <= j < env.N() ensures Staged(env, j).res.checked <==> Passes(env, j) {
      StagedOutcome(env, j);
    }
  }

  lemma EachChecked(env: Env, i: nat)
    requires Indexed(env, i) && EveryoneChecked(env)
    ensures Staged(env, i).res.checked
  {
    hide Staged;
  }

  lemma StagedFlags(env: Env, i: nat)
    requires Indexed(env, i)
    ensures var r := Staged(env, i).res; !r.moved && !r.reloaded && !r.verified
  {
    StagedShape(env, i);
  }

  lemma VerifiedChecked(env: Env, i: nat)
    requires Indexed(env, i) && Staged(env, i).res.checked
    ensures Verified(env, i).res.checked && Verified(env, i).res.staged
  {
    VerifiedShape(env, i);
    hide Verified, Staged;
  }

  /** The status of a returned deploy, from what the operations do. */
  lemma StatusExactly(env: Env, schedule: seq<Thread>)
    requires env.Valid() && Run(env, Init(env), schedule).phase.Returned?
    ensures var status := Run(env, Init(env), schedule).status;
            var all := forall j :: 0 <= j < env.N() ==> Passes(env, j);
            && (status.StatusFailed? <==> !all)
            && (status.StatusSuccess? <==>
                  all && forall j :: 0 <= j < env.N() ==> env.scripts[j].move.ok && env.scripts[j].reload.ok)
  {
    hide Run, Init, Passes, EveryoneChecked, Staged, Verified, CloseConn;
    PipelineTheorems.StatusMeaning(env, schedule);
    ReturnedAre(env, schedule);
    var st := Run(env, Init(env), schedule);
    forall j | 0 <= j < env.N()
      ensures st.targets[j].res.checked <==> Passes(env, j)
      ensures (forall k :: 0 <= k < env.N() ==> Passes(env, k)) ==>
                (st.targets[j].res.moved && st.targets[j].res.reloaded
                 <==> env.scripts[j].move.ok && env.scripts[j].reload.ok)
    {
      FlagsExactly(env, schedule, j);
    }
    assert st.AllChecked() <==> forall j :: 0 <= j < env.N() ==> Passes(env, j);
    assert forall j :: 0 <= j < env.N() ==> st.targets[j] in st.targets;
    if forall j :: 0 <= j < env.N() ==> env.scripts[j].move.ok && env.scripts[j].reload.ok {
      forall t | t in st.targets && st.AllChecked() ensures t.res.moved && t.res.reloaded {
        var j :| 0 <= j < env.N() && st.targets[j] == t;
      }
    }
  }
}

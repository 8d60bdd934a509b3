/**
 The deploy's invariant holds in every reachable state, for every script and every schedule:
 the targets' slots, the status and the remote files are functions of the program counters.
 */
module PipelineSafety {
  import opened Text
  import opened Remote
  import opened Pipeline

  // ---------------------------------------------------------------------
  // One target
  // ---------------------------------------------------------------------

  predicate Indexed(env: Env, i: nat) {
    i < env.N() == |env.scripts| == |env.suffixes|
  }

  lemma TempPathNotEmpty(env: Env, i: nat)
    requires Indexed(env, i)
    ensures env.TempLoc(i).path != ""
  {
    LastOfJoin(env.ServerOf(i).zoneDir, TempName(ZoneFile(env.req.zone), env.suffixes[i]));
  }

  lemma LocalKeepsShape(env: Env, i: nat, t: Target)
    requires Indexed(env, i) && Shape(t, env, i)
    ensures Shape(Local(env, i, t), env, i)
    ensures Pc1(t.pc) ==> Pc1(Local(env, i, t).pc)
    ensures Pc2(t.pc) ==> Pc2(Local(env, i, t).pc)
    ensures Pc3(t.pc) ==> Pc3(Local(env, i, t).pc)
  {
    TempPathNotEmpty(env, i);
  }

  predicate Unclosed(c: Conn) {
    c.NoConn? || c.closes == 0
  }

  lemma {:induction false} RestKeepsShape(env: Env, i: nat, t: Target)
    requires Indexed(env, i) && Shape(t, env, i)
    ensures var r := Rest(env, i, t);
            && Shape(r, env, i)
            && (Pc1(t.pc) ==> r.pc == Parked1) && (Pc2(t.pc) ==> r.pc == Parked2) && (Pc3(t.pc) ==> r.pc == Parked3)
            && (Unclosed(t.conn) ==> Unclosed(r.conn))
            && (t.conn.Conn? ==> r.conn == t.conn)
    decreases t.pc.Rank()
  {
    if !t.pc.Parked() {
      LocalKeepsShape(env, i, t);
      RestKeepsShape(env, i, Local(env, i, t));
    }
  }

  lemma StagedShape(env: Env, i: nat)
    requires Indexed(env, i)
    ensures Shape(Staged(env, i), env, i) && Staged(env, i).pc == Parked1 && Unclosed(Staged(env, i).conn)
    ensures Staged(env, i).res.checked ==> Shape(StartCommit(Staged(env, i)), env, i)
  {
    RestKeepsShape(env, i, FRESH_TARGET);
  }

  lemma CommittedShape(env: Env, i: nat)
    requires Indexed(env, i) && Staged(env, i).res.checked
    ensures Shape(Committed(env, i), env, i) && Committed(env, i).pc == Parked2 && Unclosed(Committed(env, i).conn)
    ensures Shape(StartVerify(Committed(env, i)), env, i)
  {
    StagedShape(env, i);
    RestKeepsShape(env, i, StartCommit(Staged(env, i)));
  }

  lemma VerifiedShape(env: Env, i: nat)
    requires Indexed(env, i) && Staged(env, i).res.checked
    ensures Shape(Verified(env, i), env, i) && Verified(env, i).pc == Parked3 && Unclosed(Verified(env, i).conn)
    ensures Verified(env, i).conn.Conn?
  {
    CommittedShape(env, i);
    RestKeepsShape(env, i, StartVerify(Committed(env, i)));
  }

  // ---------------------------------------------------------------------
  // Locations
  // ---------------------------------------------------------------------

  lemma TempLocsDiffer(env: Env, i: nat, j: nat)
    requires env.Valid() && i < env.N() && j < env.N() && i != j
    ensures env.TempLoc(i) != env.TempLoc(j)
  {
    if i < j {
      TempsDiffer(env.ServerOf(i).zoneDir, env.ServerOf(j).zoneDir, ZoneFile(env.req.zone), env.suffixes[i],
                  env.suffixes[j]);
    } else {
      TempsDiffer(env.ServerOf(j).zoneDir, env.ServerOf(i).zoneDir, ZoneFile(env.req.zone), env.suffixes[j],
                  env.suffixes[i]);
    }
  }

  lemma LiveIsNotTemp(env: Env, i: nat)
    requires env.Valid() && i < env.N()
    ensures !IsTemp(env, env.LiveLoc(i))
  {
    forall j | 0 <= j < env.N() ensures env.TempLoc(j) != env.LiveLoc(i) {
      TempIsNeverLive(env.ServerOf(j).zoneDir, env.req.zone, env.suffixes[j], env.ServerOf(i).zoneDir, env.req.zone);
    }
  }

  // ---------------------------------------------------------------------
  // Steps of a target goroutine
  // ---------------------------------------------------------------------

  lemma GoKeepsTargets(env: Env, st: State, i: nat)
    requires Inv(env, st) && i < |st.targets|
    ensures TargetsInv(env, GoStep(env, st, i)) && StatusInv(env, GoStep(env, st, i))
  {
    var t, st' := st.targets[i], GoStep(env, st, i);
    if t.pc.Parked() {
      assert st.targets[i := t] == st.targets;
      hide FilesInv, Rest, Shape, EveryoneChecked, FinalStatus;
    } else {
      ShapeOf(env, st, i);
      ParkedPhases(env, st, i);
      LocalKeepsShape(env, i, t);
      assert Rest(env, i, t) == Rest(env, i, Local(env, i, t));
      hide FilesInv, TargetsInv, StatusInv, Local, Effect, Rest, Shape, EveryoneChecked;
      GoKeepsStatus(env, st, i);
      TargetsInvUpdate(env, st, i, st');
    }
  }

  /** Replacing one target by one on the way to the same rest, while a phase runs. */
  lemma TargetsInvUpdate(env: Env, st: State, i: nat, st': State)
    requires env.Valid() && |st.targets| == env.N() && i < env.N() && TargetsInv(env, st)
    requires |st'.targets| == env.N() && st'.phase == st.phase
    requires (st.phase.Staging? || st.phase.Committing? || st.phase.Verifying?)
    requires st'.targets == st.targets[i := st'.targets[i]] && Shape(st'.targets[i], env, i)
    requires Rest(env, i, st'.targets[i]) == Rest(env, i, st.targets[i])
    requires Pc1(st.targets[i].pc) ==> Pc1(st'.targets[i].pc)
    requires Pc2(st.targets[i].pc) ==> Pc2(st'.targets[i].pc)
    requires Pc3(st.targets[i].pc) ==> Pc3(st'.targets[i].pc)
    ensures TargetsInv(env, st')
  {
    hide Rest, Shape, EveryoneChecked, Staged, Committed, Verified, Pc1, Pc2, Pc3;
  }

  lemma GoKeepsStatus(env: Env, st: State, i: nat)
    requires env.Valid() && |st.targets| == env.N() && i < env.N() && StatusInv(env, st)
    requires !st.phase.Returned?
    ensures StatusInv(env, GoStep(env, st, i))
  {
    hide Local, Effect, EveryoneChecked, FinalStatus;
  }

  /** In the coordinator's own phases every target is parked. */
  lemma ParkedPhases(env: Env, st: State, i: nat)
    requires Inv(env, st) && i < |st.targets|
    ensures !st.targets[i].pc.Parked() ==> st.phase.Staging? || st.phase.Committing? || st.phase.Verifying?
  {
    StagedShape(env, i);
    if Staged(env, i).res.checked {
      VerifiedShape(env, i);
    }
  }

  /** A change confined to target i: its temporary file follows its counter, and its live
      file changes only by receiving the content when its move lands. */
  ghost predicate Confined(env: Env, i: nat, files: Files, files': Files, t: Target, t': Target, swept: bool)
    requires Indexed(env, i)
  {
    && Lookup(files', env.TempLoc(i)) == TempNow(env, i, t', swept)
    && (forall l :: l != env.TempLoc(i) && l != env.LiveLoc(i) ==> Lookup(files', l) == Lookup(files, l))
    && (Landed(env, i, t) ==> Landed(env, i, t'))
    && Lookup(files', env.LiveLoc(i))
       == if Landed(env, i, t') && !Landed(env, i, t) then Some(env.req.content) else Lookup(files, env.LiveLoc(i))
  }

  lemma GoIsConfined(env: Env, st: State, i: nat, swept: bool)
    requires Indexed(env, i) && i < |st.targets| == env.N()
    requires !st.targets[i].pc.Parked() && Shape(st.targets[i], env, i)
    requires Lookup(st.files, env.TempLoc(i)) == TempNow(env, i, st.targets[i], swept)
    requires swept ==> !Pc1(st.targets[i].pc)
    ensures Confined(env, i, st.files, GoStep(env, st, i).files, st.targets[i], Local(env, i, st.targets[i]), swept)
  {
    TempIsNeverLive(env.ServerOf(i).zoneDir, env.req.zone, env.suffixes[i], env.ServerOf(i).zoneDir, env.req.zone);
    assert env.TempLoc(i) != env.LiveLoc(i);
    hide Env.TempLoc, Env.LiveLoc, Env.ServerOf, TrimSpace;
    if !st.targets[i].pc.ToUpload? && !st.targets[i].pc.ToMove? {
      assert GoStep(env, st, i).files == st.files;
    }
  }

  lemma LandedAtUpdate(env: Env, ts: seq<Target>, i: nat, t': Target, l: Loc)
    requires Indexed(env, i) && |ts| == env.N()
    requires Landed(env, i, ts[i]) ==> Landed(env, i, t')
    ensures LandedAt(env, ts[i := t'], l) <==> LandedAt(env, ts, l) || (l == env.LiveLoc(i) && Landed(env, i, t'))
  {
    var ts' := ts[i := t'];
    if LandedAt(env, ts, l) {
      var j :| 0 <= j < env.N() && env.LiveLoc(j) == l && Landed(env, j, ts[j]);
      assert Landed(env, j, ts'[j]);
    }
    if LandedAt(env, ts', l) {
      var j :| 0 <= j < env.N() && env.LiveLoc(j) == l && Landed(env, j, ts'[j]);
      assert j == i || Landed(env, j, ts[j]);
    }
    if l == env.LiveLoc(i) && Landed(env, i, t') {
      assert Landed(env, i, ts'[i]);
    }
  }

  lemma ConfinedKeepsFiles(env: Env, st: State, i: nat, files': Files, t': Target)
    requires env.Valid() && |st.targets| == env.N() && i < env.N() && FilesInv(env, st)
    requires Confined(env, i, st.files, files', st.targets[i], t', Swept(st.phase, i))
    ensures FilesInv(env, st.(targets := st.targets[i := t'], files := files'))
  {
    hide TempNow, Landed, LandedAt;
    var st' := st.(targets := st.targets[i := t'], files := files');
    forall j | 0 <= j < env.N()
      ensures Lookup(st'.files, env.TempLoc(j)) == TempNow(env, j, st'.targets[j], Swept(st'.phase, j))
    {
      if j != i {
        TempLocsDiffer(env, i, j);
        LiveIsNotTemp(env, i);
        assert env.TempLoc(j) != env.LiveLoc(i);
      }
    }
    forall l | !IsTemp(env, l)
      ensures Lookup(st'.files, l)
           == if LandedAt(env, st'.targets, l) then Some(env.req.content) else Lookup(env.files, l)
    {
      LandedAtUpdate(env, st.targets, i, t', l);
      if l == env.LiveLoc(i) && Landed(env, i, st.targets[i]) {
        LandedAtUpdate(env, st.targets, i, st.targets[i], l);
        assert st.targets[i := st.targets[i]] == st.targets;
      }
      assert l != env.TempLoc(i);
    }
  }

  lemma GoKeepsFiles(env: Env, st: State, i: nat)
    requires Inv(env, st) && i < |st.targets|
    ensures FilesInv(env, GoStep(env, st, i))
  {
    var t, st' := st.targets[i], GoStep(env, st, i);
    if t.pc.Parked() {
      assert st'.targets == st.targets;
    } else {
      ParkedPhases(env, st, i);
      hide TargetsInv, StatusInv, Shape, Confined, TempNow;
      assert Shape(t, env, i) by { ShapeOf(env, st, i); }
      GoIsConfined(env, st, i, Swept(st.phase, i));
      ConfinedKeepsFiles(env, st, i, st'.files, st'.targets[i]);
    }
  }

  lemma ShapeOf(env: Env, st: State, i: nat)
    requires Inv(env, st) && i < |st.targets|
    ensures Shape(st.targets[i], env, i)
  {
  }

  // ---------------------------------------------------------------------
  // Steps of the coordinator
  // ---------------------------------------------------------------------

  lemma MainKeepsTargets(env: Env, st: State)
    requires Inv(env, st)
    ensures TargetsInv(env, MainStep(env, st)) && StatusInv(env, MainStep(env, st))
  {
    hide FilesInv;
    match st.phase
    case Staging => StagingEnds(env, st);
    case Cleaning(k) =>
    case Aborting(k) => CloseKeepsShapes(env, st, k);
    case Committing => CommittingEnds(env, st);
    case Verifying =>
      assert st.AllParked() ==> forall i :: 0 <= i < |st.targets| ==> st.targets[i] == Verified(env, i);
    case Closing(k) => CloseKeepsShapes(env, st, k);
    case Returned =>
  }

  lemma CloseKeepsShapes(env: Env, st: State, k: nat)
    requires Inv(env, st)
    requires st.phase == Aborting(k) || st.phase == Closing(k)
    ensures TargetsInv(env, MainStep(env, st)) && StatusInv(env, MainStep(env, st))
  {
    hide FilesInv, Shape, Staged, Verified, FinalStatus;
    if k < |st.targets| {
      ShapeOf(env, st, k);
      CloseKeepsShape(env, k, st.targets[k]);
      hide CloseConn, EveryoneChecked;
      var st' := st.(phase := if st.phase.Aborting? then Aborting(k + 1) else Closing(k + 1),
                     targets := st.targets[k := CloseConn(st.targets[k])]);
      assert MainStep(env, st) == st';
      hide MainStep;
      assert TargetsInv(env, st');
    } else {
      hide CloseConn, EveryoneChecked;
    }
  }

  lemma CloseKeepsShape(env: Env, i: nat, t: Target)
    requires Indexed(env, i) && Shape(t, env, i)
    ensures Shape(CloseConn(t), env, i)
  {
  }

  lemma StagingEnds(env: Env, st: State)
    requires Inv(env, st) && st.phase.Staging?
    ensures TargetsInv(env, MainStep(env, st)) && StatusInv(env, MainStep(env, st))
  {
    hide FilesInv;
    var st' := MainStep(env, st);
    if st.AllParked() {
      forall i | 0 <= i < |st.targets| ensures st.targets[i] == Staged(env, i) {
      }
      if st.AllChecked() {
        assert EveryoneChecked(env);
        forall i | 0 <= i < |st'.targets| ensures Shape(st'.targets[i], env, i) && Pc2(st'.targets[i].pc)
                                               && Rest(env, i, st'.targets[i]) == Committed(env, i) {
          StagedShape(env, i);
          assert st'.targets[i] == StartCommit(Staged(env, i));
        }
      }
    }
  }

  lemma CommittingEnds(env: Env, st: State)
    requires Inv(env, st) && st.phase.Committing?
    ensures TargetsInv(env, MainStep(env, st)) && StatusInv(env, MainStep(env, st))
  {
    hide FilesInv;
    var st' := MainStep(env, st);
    if st.AllParked() {
      forall i | 0 <= i < |st'.targets| ensures Shape(st'.targets[i], env, i) && Pc3(st'.targets[i].pc)
                                             && Rest(env, i, st'.targets[i]) == Verified(env, i) {
        assert Staged(env, i).res.checked;
        CommittedShape(env, i);
        assert st.targets[i] == Committed(env, i);
        assert st'.targets[i] == StartVerify(st.targets[i]);
      }
    }
  }

  /** Two target lists with the same view of the files. */
  lemma SameFiles(env: Env, st: State, st': State)
    requires env.Valid() && |st.targets| == env.N() && FilesInv(env, st)
    requires |st'.targets| == env.N() && st'.files == st.files
    requires forall i :: 0 <= i < env.N() ==>
               && Landed(env, i, st'.targets[i]) == Landed(env, i, st.targets[i])
               && TempNow(env, i, st'.targets[i], Swept(st'.phase, i))
                  == TempNow(env, i, st.targets[i], Swept(st.phase, i))
    ensures FilesInv(env, st')
  {
    hide TempNow, Landed;
    forall l ensures LandedAt(env, st'.targets, l) == LandedAt(env, st.targets, l) {
      if LandedAt(env, st.targets, l) {
        var j :| 0 <= j < env.N() && env.LiveLoc(j) == l && Landed(env, j, st.targets[j]);
        assert Landed(env, j, st'.targets[j]);
      }
      if LandedAt(env, st'.targets, l) {
        var j :| 0 <= j < env.N() && env.LiveLoc(j) == l && Landed(env, j, st'.targets[j]);
        assert Landed(env, j, st.targets[j]);
      }
    }
  }

  lemma MainKeepsFiles(env: Env, st: State)
    requires Inv(env, st)
    ensures FilesInv(env, MainStep(env, st))
  {
    if st.phase.Cleaning? && st.phase.next < |st.targets| {
      SweepKeepsFiles(env, st, st.phase.next);
    } else {
      var st' := MainStep(env, st);
      forall i | 0 <= i < env.N()
        ensures Landed(env, i, st'.targets[i]) == Landed(env, i, st.targets[i])
        ensures TempNow(env, i, st'.targets[i], Swept(st'.phase, i))
             == TempNow(env, i, st.targets[i], Swept(st.phase, i))
      {
        MainKeepsView(env, st, i);
      }
      hide TargetsInv, StatusInv, MainStep;
      SameFiles(env, st, st');
    }
  }

  /** Same temporary file content and same live-file status. */
  predicate SameView(env: Env, i: nat, t: Target, swept: bool, t': Target, swept': bool)
    requires Indexed(env, i)
  {
    Landed(env, i, t') == Landed(env, i, t) && TempNow(env, i, t', swept') == TempNow(env, i, t, swept)
  }

  lemma BarriersKeepView(env: Env, i: nat, t: Target)
    requires Indexed(env, i) && Shape(t, env, i)
    ensures SameView(env, i, t, true, CloseConn(t), true) && SameView(env, i, t, false, CloseConn(t), false)
    ensures !t.pc.Parked1? ==> SameView(env, i, t, false, t, true)
    ensures t.pc.Parked1? && t.res.checked ==> SameView(env, i, t, false, StartCommit(t), false)
    ensures t.pc.Parked2? ==> SameView(env, i, t, false, StartVerify(t), false)
  {
    hide Env.TempLoc;
  }

  /** Where the coordinator moves on, target i is parked as the phase before left it. */
  lemma RestingPcs(env: Env, st: State, i: nat)
    requires Inv(env, st) && i < env.N()
    ensures st.phase.Staging? && st.AllParked() ==> st.targets[i].pc.Parked1?
    ensures st.phase.Committing? && st.AllParked() ==> st.targets[i].pc.Parked2?
    ensures st.phase.Verifying? && st.AllParked() ==> !st.targets[i].pc.Parked1?
    ensures st.phase.Closing? ==> !st.targets[i].pc.Parked1?
  {
    hide FilesInv, StatusInv, Rest, Shape;
    if st.phase.Closing? { VerifiedShape(env, i); }
  }

  /** What a coordinator step other than a sweep does to target i and its sweeping. */
  lemma MainStepOn(env: Env, st: State, i: nat)
    requires Indexed(env, i) && |st.targets| == env.N() && !(st.phase.Cleaning? && st.phase.next < |st.targets|)
    ensures var st' := MainStep(env, st);
            var t, t', w, w' := st.targets[i], st'.targets[i], Swept(st.phase, i), Swept(st'.phase, i);
            && st'.files == st.files
            && ((t' == t && w' == w)
                || (t' == t && !w && w' && st.phase.Closing?)
                || (t' == CloseConn(t) && w' == w)
                || (t' == StartCommit(t) && !w && !w' && st.phase.Staging? && st.AllParked() && t.res.checked)
                || (t' == StartVerify(t) && !w && !w' && st.phase.Committing? && st.AllParked()))
  {
    hide CloseConn, StartCommit, StartVerify, FinalStatus, SweepFiles;
  }

  /** A coordinator step other than a sweep changes no target's view of the files. */
  lemma MainKeepsView(env: Env, st: State, i: nat)
    requires Inv(env, st) && i < env.N() && !(st.phase.Cleaning? && st.phase.next < |st.targets|)
    ensures var st' := MainStep(env, st);
            && st'.files == st.files
            && SameView(env, i, st.targets[i], Swept(st.phase, i), st'.targets[i], Swept(st'.phase, i))
  {
    hide *;
    InvParts(env, st, i);
    ShapeOf(env, st, i);
    RestingPcs(env, st, i);
    BarriersKeepView(env, i, st.targets[i]);
    MainStepOn(env, st, i);
    SameViewRefl(env, i, st.targets[i], Swept(st.phase, i));
  }

  lemma InvParts(env: Env, st: State, i: nat)
    requires Inv(env, st) && i < env.N()
    ensures Indexed(env, i) && |st.targets| == env.N()
  {
    hide TargetsInv, StatusInv, FilesInv;
  }

  lemma SameViewRefl(env: Env, i: nat, t: Target, swept: bool)
    requires Indexed(env, i)
    ensures SameView(env, i, t, swept, t, swept)
  {
  }

  lemma SweptTemp(env: Env, st: State, k: nat)
    requires Inv(env, st) && st.phase == Cleaning(k) && k < |st.targets|
    ensures Lookup(SweepFiles(env, st, k), env.TempLoc(k)) == TempNow(env, k, st.targets[k], true)
  {
    assert Lookup(st.files, env.TempLoc(k)) == TempNow(env, k, st.targets[k], false);
    StagedShape(env, k);
    hide FilesInv, TargetsInv, StatusInv, Env.TempLoc;
  }

  /** Sweeping target k concerns its temporary file only. */
  lemma SweepIsConfined(env: Env, st: State, files': Files, k: nat)
    requires env.Valid() && |st.targets| == env.N() && k < env.N() && st.phase == Cleaning(k) && FilesInv(env, st)
    requires Lookup(files', env.TempLoc(k)) == TempNow(env, k, st.targets[k], true)
    requires forall l :: l != env.TempLoc(k) ==> Lookup(files', l) == Lookup(st.files, l)
    ensures FilesInv(env, st.(phase := Cleaning(k + 1), files := files'))
  {
    hide LandedAt, TempNow, Env.TempLoc, Env.LiveLoc, Lookup;
    forall j | 0 <= j < env.N() ensures Lookup(files', env.TempLoc(j)) == TempNow(env, j, st.targets[j], j <= k) {
      if j != k {
        TempLocsDiffer(env, k, j);
        assert Lookup(st.files, env.TempLoc(j)) == TempNow(env, j, st.targets[j], Swept(st.phase, j));
      }
    }
  }

  lemma SweepKeepsFiles(env: Env, st: State, k: nat)
    requires Inv(env, st) && st.phase == Cleaning(k) && k < |st.targets|
    ensures FilesInv(env, MainStep(env, st))
  {
    SweptTemp(env, st, k);
    var files' := SweepFiles(env, st, k);
    assert forall l :: l != env.TempLoc(k) ==> Lookup(files', l) == Lookup(st.files, l);
    assert MainStep(env, st) == st.(phase := Cleaning(k + 1), files := files');
    hide TargetsInv, StatusInv, FilesInv, TempNow, MainStep, Env.TempLoc, SweepFiles, Lookup;
    SweepIsConfined(env, st, files', k);
  }

  // ---------------------------------------------------------------------
  // Every reachable state
  // ---------------------------------------------------------------------

  lemma InitInv(env: Env)
    requires env.Valid()
    ensures Inv(env, Init(env))
  {
    var st := Init(env);
    forall l ensures !LandedAt(env, st.targets, l) {
    }
  }

  lemma StepKeepsInv(env: Env, st: State, th: Thread)
    requires Inv(env, st)
    ensures Inv(env, Step(env, st, th))
  {
    match th
    case Main =>
      MainKeepsTargets(env, st);
      MainKeepsFiles(env, st);
    case Go(i) =>
      if i < |st.targets| {
        GoKeepsTargets(env, st, i);
        GoKeepsFiles(env, st, i);
      }
  }

  /** The invariant holds after every schedule. */
  lemma {:induction false} ReachableInv(env: Env, schedule: seq<Thread>)
    requires env.Valid()
    ensures Inv(env, Run(env, Init(env), schedule))
    decreases |schedule|
  {
    if schedule == [] {
      InitInv(env);
    } else {
      var front := schedule[..|schedule| - 1];
      ReachableInv(env, front);
      StepKeepsInv(env, Run(env, Init(env), front), schedule[|schedule| - 1]);
    }
  }
}

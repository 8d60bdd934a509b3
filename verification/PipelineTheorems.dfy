/**
 The promises of the two-phase deploy, for every script and every schedule.
 */
module PipelineTheorems {
  import opened Text
  import opened Pipeline
  import opened PipelineSafety

  // ---------------------------------------------------------------------
  // Progress flags and the commit barrier
  // ---------------------------------------------------------------------

  /** Each flag implies the earlier ones. */
  predicate InOrder(r: ServerResult) {
    && (r.verified ==> r.reloaded)
    && (r.reloaded ==> r.moved)
    && (r.moved ==> r.checked)
    && (r.checked ==> r.staged)
  }

  lemma ProgressFlags(env: Env, schedule: seq<Thread>)
    requires env.Valid()
    ensures forall t <- Run(env, Init(env), schedule).targets :: InOrder(t.res)
  {
    ReachableInv(env, schedule);
    var st := Run(env, Init(env), schedule);
    forall i | 0 <= i < |st.targets| ensures InOrder(st.targets[i].res) {
      ShapeOf(env, st, i);
    }
  }

  /** Once the coordinator is past the barrier, everyone is checked. */
  lemma PastBarrier(env: Env, st: State, i: nat)
    requires Inv(env, st) && i < env.N()
    requires !Pc1(st.targets[i].pc)
    ensures EveryoneChecked(env) && st.AllChecked()
  {
    hide FilesInv, StatusInv, Rest;
    StagedShape(env, i);
    assert EveryoneChecked(env);
    forall j | 0 <= j < |st.targets| ensures st.targets[j].res.checked {
      ShapeOf(env, st, j);
      StagedShape(env, j);
      assert Staged(env, j).res.checked;
      VerifiedShape(env, j);
      hide Shape;
    }
  }

  /** No move is attempted, and no file other than a staged temporary changes anywhere,
      before every target has passed its check. */
  lemma CommitBarrier(env: Env, schedule: seq<Thread>)
    requires env.Valid()
    ensures var st := Run(env, Init(env), schedule);
            && (forall i :: 0 <= i < env.N() && (!Pc1(st.targets[i].pc) || st.targets[i].res.moved) ==> st.AllChecked())
            && (forall l :: !IsTemp(env, l) && Lookup(st.files, l) != Lookup(env.files, l) ==> st.AllChecked())
  {
    ReachableInv(env, schedule);
    var st := Run(env, Init(env), schedule);
    forall i | 0 <= i < env.N() && (!Pc1(st.targets[i].pc) || st.targets[i].res.moved) ensures st.AllChecked() {
      ShapeOf(env, st, i);
      PastBarrier(env, st, i);
    }
    forall l | !IsTemp(env, l) && Lookup(st.files, l) != Lookup(env.files, l) ensures st.AllChecked() {
      var i :| 0 <= i < env.N() && env.LiveLoc(i) == l && Landed(env, i, st.targets[i]);
      PastBarrier(env, st, i);
    }
  }

  // ---------------------------------------------------------------------
  // Live files
  // ---------------------------------------------------------------------

  /** At every moment a target's live file is the old one or the new content, the new
      content if the target counts as moved; all other files but the temporaries are
      untouched. */
  lemma LiveFiles(env: Env, schedule: seq<Thread>)
    requires env.Valid()
    ensures var st := Run(env, Init(env), schedule);
            && (forall i :: 0 <= i < env.N() ==>
                  Lookup(st.files, env.LiveLoc(i)) in {Lookup(env.files, env.LiveLoc(i)), Some(env.req.content)})
            && (forall i :: 0 <= i < env.N() && st.targets[i].res.moved ==>
                  Lookup(st.files, env.LiveLoc(i)) == Some(env.req.content))
            && (forall l :: !IsTemp(env, l) && (forall i :: 0 <= i < env.N() ==> env.LiveLoc(i) != l) ==>
                  Lookup(st.files, l) == Lookup(env.files, l))
  {
    ReachableInv(env, schedule);
    var st := Run(env, Init(env), schedule);
    forall i | 0 <= i < env.N()
      ensures Lookup(st.files, env.LiveLoc(i)) in {Lookup(env.files, env.LiveLoc(i)), Some(env.req.content)}
      ensures st.targets[i].res.moved ==> Lookup(st.files, env.LiveLoc(i)) == Some(env.req.content)
    {
      LiveIsNotTemp(env, i);
      ShapeOf(env, st, i);
      if st.targets[i].res.moved {
        assert Landed(env, i, st.targets[i]);
      }
    }
  }

  // ---------------------------------------------------------------------
  // The result
  // ---------------------------------------------------------------------

  /** What a returned deploy's targets are. */
  lemma ReturnedTargets(env: Env, st: State)
    requires Inv(env, st) && st.phase.Returned?
    ensures EveryoneChecked(env) <==> st.AllChecked()
    ensures forall i :: 0 <= i < env.N() ==>
              && Shape(st.targets[i], env, i)
              && st.targets[i].pc == (if EveryoneChecked(env) then Parked3 else Parked1)
              && (st.targets[i].conn.Conn? ==> st.targets[i].conn.closes == 1)
  {
    hide FilesInv, StatusInv, Rest;
    forall i | 0 <= i < env.N()
      ensures Shape(st.targets[i], env, i)
      ensures st.targets[i].pc == (if EveryoneChecked(env) then Parked3 else Parked1)
      ensures st.targets[i].conn.Conn? ==> st.targets[i].conn.closes == 1
      ensures st.targets[i].res.checked <==> Staged(env, i).res.checked
    {
      ShapeOf(env, st, i);
      StagedShape(env, i);
      if EveryoneChecked(env) {
        assert Staged(env, i).res.checked;
        VerifiedShape(env, i);
      }
    }
  }

  lemma AbortChangedNothing(env: Env, st: State)
    requires Inv(env, st) && st.phase.Returned? && !EveryoneChecked(env)
    ensures forall t <- st.targets :: !t.res.moved
    ensures forall l :: !IsTemp(env, l) ==> Lookup(st.files, l) == Lookup(env.files, l)
  {
    ReturnedTargets(env, st);
    hide Rest, TargetsInv, StatusInv;
    assert forall i :: 0 <= i < env.N() ==> !st.targets[i].res.moved && !Landed(env, i, st.targets[i]);
  }

  /** The status means what it says: failed is an abort before any live file changed,
      success is moved and reloaded everywhere, partial is everything else. */
  lemma StatusMeaning(env: Env, schedule: seq<Thread>)
    requires env.Valid() && Run(env, Init(env), schedule).phase.Returned?
    ensures var st := Run(env, Init(env), schedule);
            && (st.status.StatusFailed? <==> !st.AllChecked())
            && (st.status.StatusFailed? ==>
                  && (forall t <- st.targets :: !t.res.moved)
                  && (forall l :: !IsTemp(env, l) ==> Lookup(st.files, l) == Lookup(env.files, l)))
            && (st.status.StatusSuccess? <==> forall t <- st.targets :: t.res.moved && t.res.reloaded)
            && (st.status.StatusPartial? <==>
                  st.AllChecked() && exists t <- st.targets :: !(t.res.moved && t.res.reloaded))
  {
    ReachableInv(env, schedule);
    var st := Run(env, Init(env), schedule);
    ReturnedTargets(env, st);
    if !EveryoneChecked(env) {
      AbortChangedNothing(env, st);
    }
    StatusCases(env, st);
  }

  lemma StatusCases(env: Env, st: State)
    requires 0 < |st.targets| == env.N() == |env.scripts| == |env.suffixes|
    requires StatusInv(env, st) && st.phase.Returned? && (EveryoneChecked(env) <==> st.AllChecked())
    requires !EveryoneChecked(env) ==> forall t <- st.targets :: !t.res.moved
    ensures st.status.StatusFailed? <==> !st.AllChecked()
    ensures st.status.StatusSuccess? <==> forall t <- st.targets :: t.res.moved && t.res.reloaded
    ensures st.status.StatusPartial? <==> st.AllChecked() && exists t <- st.targets :: !(t.res.moved && t.res.reloaded)
  {
    hide EveryoneChecked;
    assert st.targets[0] in st.targets;
    assert forall i :: 0 <= i < |st.targets| ==> st.targets[i] in st.targets;
  }

  /** AllMoved puts the content on every target. */
  lemma AllMovedMeansLive(env: Env, schedule: seq<Thread>)
    requires env.Valid() && Run(env, Init(env), schedule).AllMoved()
    ensures forall i :: 0 <= i < env.N() ==>
              Lookup(Run(env, Init(env), schedule).files, env.LiveLoc(i)) == Some(env.req.content)
  {
    LiveFiles(env, schedule);
  }

  // ---------------------------------------------------------------------
  // Connections and temporary files
  // ---------------------------------------------------------------------

  /** On every return path each opened connection was closed exactly once, and no other. */
  lemma ConnectionsClosedOnce(env: Env, schedule: seq<Thread>)
    requires env.Valid() && Run(env, Init(env), schedule).phase.Returned?
    ensures forall i :: 0 <= i < env.N() ==>
              var c := Run(env, Init(env), schedule).targets[i].conn;
              c == if env.req.targets[i] in env.servers && env.scripts[i].dial.Connected? then Conn(1) else NoConn
  {
    ReachableInv(env, schedule);
    var st := Run(env, Init(env), schedule);
    ReturnedTargets(env, st);
    forall i | 0 <= i < env.N()
      ensures st.targets[i].conn
           == if env.req.targets[i] in env.servers && env.scripts[i].dial.Connected? then Conn(1) else NoConn
    {
      StagedConn(env, i);
      if EveryoneChecked(env) {
        assert Staged(env, i).res.checked;
        StagedShape(env, i);
        CommittedShape(env, i);
        RestKeepsShape(env, i, StartCommit(Staged(env, i)));
        RestKeepsShape(env, i, StartVerify(Committed(env, i)));
      }
    }
  }

  lemma StagedConn(env: Env, i: nat)
    requires Indexed(env, i)
    ensures Staged(env, i).conn
         == if env.req.targets[i] in env.servers && env.scripts[i].dial.Connected? then Conn(0) else NoConn
  {
    var t1 := Local(env, i, FRESH_TARGET);
    assert Staged(env, i) == Rest(env, i, t1);
    if t1.pc.ToUpload? {
      LocalKeepsShape(env, i, FRESH_TARGET);
      RestKeepsShape(env, i, t1);
    }
  }

  /** An error means the operation had no effect. */
  ghost predicate ErrorsHaveNoEffect(env: Env) {
    forall s <- env.scripts :: !s.move.landed && !s.remove.landed && (s.upload.UploadError? ==> s.upload.written.None?)
  }

  ghost predicate NoStaleTemps(env: Env)
    requires env.N() == |env.suffixes|
  {
    forall i :: 0 <= i < env.N() ==> env.TempLoc(i) !in env.files
  }

  /** Temporary files left behind by a returned deploy: after an abort, none whose removal
      succeeded; after a commit, exactly those whose move did not take effect. */
  lemma TempsAfterReturn(env: Env, schedule: seq<Thread>)
    requires env.Valid() && NoStaleTemps(env) && Run(env, Init(env), schedule).phase.Returned?
    ensures var st := Run(env, Init(env), schedule);
            forall i :: 0 <= i < env.N() ==>
              if st.AllChecked() then env.TempLoc(i) in st.files <==> !env.scripts[i].move.Took()
              else env.scripts[i].remove.ok ==> env.TempLoc(i) !in st.files
  {
    ReachableInv(env, schedule);
    var st := Run(env, Init(env), schedule);
    ReturnedTargets(env, st);
    hide Rest, TargetsInv, StatusInv;
    forall i | 0 <= i < env.N()
      ensures if st.AllChecked() then env.TempLoc(i) in st.files <==> !env.scripts[i].move.Took()
              else env.scripts[i].remove.ok ==> env.TempLoc(i) !in st.files
    {
      assert Lookup(st.files, env.TempLoc(i)) == TempNow(env, i, st.targets[i], true);
      assert Lookup(env.files, env.TempLoc(i)) == None;
    }
  }

  /** When errors have no effect, the temporaries left after a commit are exactly those of
      the targets not reported moved. */
  lemma TempsAreThoseNotMoved(env: Env, schedule: seq<Thread>)
    requires env.Valid() && NoStaleTemps(env) && ErrorsHaveNoEffect(env)
    requires Run(env, Init(env), schedule).phase.Returned? && Run(env, Init(env), schedule).AllChecked()
    ensures var st := Run(env, Init(env), schedule);
            forall i :: 0 <= i < env.N() ==> (env.TempLoc(i) in st.files <==> !st.targets[i].res.moved)
  {
    TempsAfterReturn(env, schedule);
    ReachableInv(env, schedule);
    var st := Run(env, Init(env), schedule);
    ReturnedTargets(env, st);
    forall i | 0 <= i < env.N() ensures env.TempLoc(i) in st.files <==> !st.targets[i].res.moved {
      assert env.scripts[i] in env.scripts;
      assert Shape(st.targets[i], env, i);
    }
  }

  // ---------------------------------------------------------------------
  // Confluence
  // ---------------------------------------------------------------------

  lemma FilesEqual(a: Files, b: Files)
    requires forall l :: Lookup(a, l) == Lookup(b, l)
    ensures a == b
  {
    forall l ensures l in a <==> l in b {
      assert Lookup(a, l) == Lookup(b, l);
    }
    forall l | l in a ensures a[l] == b[l] {
      assert Lookup(a, l) == Lookup(b, l);
    }
  }

  /** Every interleaving of the goroutines that runs to the end gives the same result, the
      same connections and temporary paths, and the same remote files. */
  lemma Confluence(env: Env, s1: seq<Thread>, s2: seq<Thread>)
    requires env.Valid()
    requires Run(env, Init(env), s1).phase.Returned? && Run(env, Init(env), s2).phase.Returned?
    ensures Run(env, Init(env), s1) == Run(env, Init(env), s2)
  {
    ReachableInv(env, s1);
    ReachableInv(env, s2);
    var a, b := Run(env, Init(env), s1), Run(env, Init(env), s2);
    hide Rest, Shape, Run, Init, TempNow;
    assert a.targets == b.targets;
    hide TargetsInv;
    assert a.status == b.status;
    forall l ensures Lookup(a.files, l) == Lookup(b.files, l) {
      if IsTemp(env, l) {
        var i :| 0 <= i < env.N() && env.TempLoc(i) == l;
      }
    }
    FilesEqual(a.files, b.files);
  }
}

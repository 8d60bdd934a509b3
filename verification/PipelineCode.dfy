/**
 Pipeline.Deploy of internal/deploy/pipeline.go in loops: result, connection and
 temporary-path arrays filled in place by per-target bodies, barriers between loops, cleanup
 and close loops, and the status loop. Each remote operation advances a ghost copy of the step system, so the
 code is shown to take one of its schedules; by confluence its outcome is that of all.
 */
module PipelineCode {
  import opened Text
  import opened Pipeline
  import PipelineTheorems

  /** Outcome of running named-checkzone locally; unavailability is only a warning. */
  datatype LocalCheck = Passed | Unavailable | Rejected(output: string)

  class Deployment {
    const env: Env
    const servers: array<ServerResult>
    const conns: array<Conn>
    const tmps: array<string>
    var files: Files
    var status: Status
    ghost var state: State
    ghost var schedule: seq<Thread>

    /** The arrays and files mirror the ghost state, which a schedule reaches. */
    ghost predicate Valid()
      reads this, servers, conns, tmps
    {
      && env.N() == |env.scripts| == |env.suffixes|
      && servers.Length == conns.Length == tmps.Length == env.N()
      && |state.targets| == env.N()
      && state == Run(env, Init(env), schedule)
      && files == state.files && status == state.status
      && (forall i :: 0 <= i < env.N() ==>
            servers[i] == state.targets[i].res && conns[i] == state.targets[i].conn && tmps[i] == state.targets[i].tmp)
    }

    constructor (env: Env)
      requires env.N() == |env.scripts| == |env.suffixes|
      ensures Valid() && this.env == env && state == Init(env) && schedule == []
      ensures fresh(servers) && fresh(conns) && fresh(tmps)
    {
      this.env := env;
      servers := new ServerResult[|env.req.targets|](_ => BLANK_RESULT);
      conns := new Conn[|env.req.targets|](_ => NoConn);
      tmps := new string[|env.req.targets|](_ => "");
      files := env.files;
      status := StatusFailed;
      state := Init(env);
      schedule := [];
    }

    /** One more step of the ghost system. */
    ghost method Advance(th: Thread)
      requires |state.targets| == env.N() == |env.scripts| == |env.suffixes|
      requires state == Run(env, Init(env), schedule)
      modifies this`state, this`schedule
      ensures state == Step(env, old(state), th) == Run(env, Init(env), schedule)
    {
      schedule := schedule + [th];
      assert schedule[..|schedule| - 1] == old(schedule);
      state := Step(env, state, th);
    }

    /** What a target body leaves: its own slot parked, everything else as it was. */
    twostate predicate OnlySlot(i: nat)
      requires |old(state.targets)| == |state.targets| && i < |state.targets|
      reads this
    {
      && state.phase == old(state.phase)
      && state.targets[i].pc.Parked()
      && forall j :: 0 <= j < |state.targets| && j != i ==> state.targets[j] == old(state.targets[j])
    }

    /** Body of the phase 1 goroutine: dial, upload, check. */
    method StageOne(i: nat)
      requires Valid() && i < env.N() && state.targets[i] == FRESH_TARGET
      modifies this, servers, conns, tmps
      ensures Valid() && OnlySlot(i)
    {
      hide Run, Init, Env.TempLoc, Env.LiveLoc, TrimSpace;
      var s := env.scripts[i];
      var name := env.req.targets[i];
      servers[i] := servers[i].(name := name);
      if name !in env.servers {
        servers[i] := servers[i].(err := "unknown server in config");
        Advance(Go(i));
        return;
      }
      if s.dial.Refused? {
        servers[i] := servers[i].(err := "connect: " + s.dial.err);
        Advance(Go(i));
        return;
      }
      conns[i] := Conn(0);
      tmps[i] := env.TempLoc(i).path;
      Advance(Go(i));
      assert state.targets[i].pc == ToUpload && Valid();
      UploadAndCheck(i);
    }

    method UploadAndCheck(i: nat)
      requires Valid() && i < env.N() && state.targets[i].pc == ToUpload
      modifies this, servers, conns, tmps
      ensures Valid() && OnlySlot(i)
    {
      hide Run, Init, Env.TempLoc, Env.LiveLoc, TrimSpace;
      var s := env.scripts[i];
      if s.upload.UploadError? {
        if s.upload.written.Some? {
          files := files[env.TempLoc(i) := s.upload.written.value];
        }
        servers[i] := servers[i].(err := "upload: " + s.upload.err);
        Advance(Go(i));
        return;
      }
      files := files[env.TempLoc(i) := env.req.content];
      servers[i] := servers[i].(staged := true);
      Advance(Go(i));
      assert state.targets[i].pc == ToCheck && Valid();
      servers[i] := servers[i].(output := TrimSpace(s.check.output));
      if !s.check.ok {
        servers[i] := servers[i].(err := "checkzone: " + s.check.err);
      } else {
        servers[i] := servers[i].(checked := true);
      }
      Advance(Go(i));
    }

    /** Body of the phase 2 goroutine: move into place, reload. */
    method CommitOne(i: nat)
      requires Valid() && i < env.N() && state.targets[i].pc == ToMove
      modifies this, servers, conns, tmps
      ensures Valid() && OnlySlot(i)
    {
      hide Run, Init, Env.TempLoc, Env.LiveLoc, TrimSpace;
      var s := env.scripts[i];
      var tmp := env.TempLoc(i);
      if s.move.Took() && tmp in files {
        files := (files - {tmp})[env.LiveLoc(i) := files[tmp]];
      }
      if !s.move.ok {
        servers[i] := servers[i].(output := TrimSpace(s.move.output), err := "move: " + s.move.err);
        Advance(Go(i));
        return;
      }
      servers[i] := servers[i].(moved := true);
      Advance(Go(i));
      assert state.targets[i].pc == ToReload && Valid();
      servers[i] := servers[i].(output := TrimSpace(s.reload.output));
      if !s.reload.ok {
        servers[i] := servers[i].(err := "reload: " + s.reload.err);
      } else {
        servers[i] := servers[i].(reloaded := true);
      }
      Advance(Go(i));
    }

    /** Body of the phase 3 goroutine: ask the server for its serial. */
    method VerifyOne(i: nat)
      requires Valid() && i < env.N() && state.targets[i].pc == ToVerify
      modifies this, servers, conns, tmps
      ensures Valid() && OnlySlot(i)
    {
      hide Run, Init, Env.TempLoc, Env.LiveLoc, TrimSpace;
      ghost var t := state.targets[i];
      servers[i] := servers[i].(verified := env.scripts[i].verify == Answer(env.req.newSerial));
      Advance(Go(i));
    }

    method Cleanup()
      requires Valid() && state.phase == Cleaning(0)
      modifies this, servers, conns, tmps
      ensures Valid() && state.phase == Aborting(0)
    {
      hide Run, Local, Effect, Env.TempLoc;
      var i := 0;
      while i < conns.Length
        invariant Valid() && i <= conns.Length && state.phase == Cleaning(i)
      {
        if conns[i].Conn? && tmps[i] != "" && env.scripts[i].remove.Took() {
          files := files - {env.TempLoc(i)};
        }
        Advance(Main);
        i := i + 1;
      }
      Advance(Main);
    }

    method CloseAll()
      requires Valid() && (state.phase == Aborting(0) || state.phase == Closing(0))
      modifies this, servers, conns, tmps
      ensures Valid()
      ensures state.phase == if old(state.phase).Aborting? then Aborting(env.N()) else Closing(env.N())
      ensures |state.targets| == |old(state.targets)|
    {
      hide Run, Local, Effect, Env.TempLoc;
      var i := 0;
      while i < conns.Length
        invariant Valid() && i <= conns.Length
        invariant state.phase == if old(state.phase).Aborting? then Aborting(i) else Closing(i)
      {
        if conns[i].Conn? {
          conns[i] := Conn(conns[i].closes + 1);
        }
        Advance(Main);
        i := i + 1;
      }
    }

    /** Phases 1 to 3 for all targets, aborting after phase 1 unless every target is checked. */
    method Deploy(check: LocalCheck) returns (err: Option<string>)
      requires Valid() && state == Init(env)
      requires env.N() > 0 ==> env.Valid()
      modifies this, servers, conns, tmps
      ensures Valid()
      ensures err.Some? <==> env.N() == 0 || check.Rejected?
      ensures err.Some? ==> state == Init(env)
      ensures err.None? ==> state.phase.Returned?
      ensures err.None? ==> forall s :: Run(env, Init(env), s).phase.Returned? ==> Run(env, Init(env), s) == state
    {
      if servers.Length == 0 {
        return Some("zone has no target servers");
      }
      if check.Rejected? {
        return Some("local named-checkzone rejected zone: " + TrimSpace(check.output));
      }
      hide Run, Init, Local, Effect, Env.TempLoc, FinalStatus;
      StageAll();
      var i := 0;
      while i < servers.Length && servers[i].checked
        invariant i <= servers.Length && forall j :: 0 <= j < i ==> state.targets[j].res.checked
      {
        i := i + 1;
      }
      if i < servers.Length {
        Advance(Main);
        Cleanup();
        CloseAll();
        Advance(Main);
      } else {
        Advance(Main);
        CommitAll();
        VerifyAll();
        CloseAll();
        SetStatus();
      }
      forall s | Run(env, Init(env), s).phase.Returned? ensures Run(env, Init(env), s) == state {
        PipelineTheorems.Confluence(env, s, schedule);
      }
      return None;
    }

    method StageAll()
      requires Valid() && state == Init(env)
      modifies this, servers, conns, tmps
      ensures Valid() && state.phase.Staging? && state.AllParked()
    {
      hide Run, Local, Effect, Env.TempLoc;
      var i := 0;
      while i < servers.Length
        invariant Valid() && i <= servers.Length && state.phase.Staging?
        invariant forall j :: 0 <= j < i ==> state.targets[j].pc.Parked()
        invariant forall j :: i <= j < servers.Length ==> state.targets[j] == FRESH_TARGET
      {
        StageOne(i);
        i := i + 1;
      }
    }

    method CommitAll()
      requires Valid() && state.phase.Committing?
      requires forall j :: 0 <= j < env.N() ==> state.targets[j].pc == ToMove
      modifies this, servers, conns, tmps
      ensures Valid() && state.phase.Verifying?
      ensures forall j :: 0 <= j < env.N() ==>
                  state.targets[j].pc == if state.targets[j].res.reloaded then ToVerify else Parked3
    {
      hide Run, Local, Effect, Env.TempLoc;
      var i := 0;
      while i < servers.Length
        invariant Valid() && i <= servers.Length && state.phase.Committing?
        invariant forall j :: 0 <= j < i ==> state.targets[j].pc.Parked()
        invariant forall j :: i <= j < servers.Length ==> state.targets[j].pc == ToMove
      {
        CommitOne(i);
        i := i + 1;
      }
      Advance(Main);
    }

    method VerifyAll()
      requires Valid() && state.phase.Verifying?
      requires forall j :: 0 <= j < env.N() ==>
                  state.targets[j].pc == if state.targets[j].res.reloaded then ToVerify else Parked3
      modifies this, servers, conns, tmps
      ensures Valid() && state.phase == Closing(0)
    {
      hide Run, Local, Effect, Env.TempLoc;
      var i := 0;
      while i < servers.Length
        invariant Valid() && i <= servers.Length && state.phase.Verifying?
        invariant forall j :: 0 <= j < i ==> state.targets[j].pc.Parked()
        invariant forall j :: i <= j < servers.Length ==>
                    state.targets[j].pc == if state.targets[j].res.reloaded then ToVerify else Parked3
      {
        if servers[i].reloaded {
          VerifyOne(i);
        }
        i := i + 1;
      }
      Advance(Main);
    }

    method SetStatus()
      requires Valid() && state.phase == Closing(env.N())
      modifies this`status, this`state, this`schedule
      ensures Valid() && state.phase.Returned?
    {
      hide Run, Local, Effect, Env.TempLoc;
      status := StatusSuccess;
      var i := 0;
      while i < servers.Length
        invariant i <= servers.Length == |state.targets|
        invariant state == old(state) && schedule == old(schedule)
        invariant forall j :: 0 <= j < |state.targets| ==> servers[j] == state.targets[j].res
        invariant status == FinalStatus(state.targets[..i])
      {
        assert state.targets[..i + 1][..i] == state.targets[..i] && state.targets[..i + 1][i] == state.targets[i];
        if !servers[i].moved || !servers[i].reloaded {
          status := StatusPartial;
          assert !(state.targets[..i + 1][i].res.moved && state.targets[..i + 1][i].res.reloaded);
        }
        assert status == FinalStatus(state.targets[..i + 1]);
        i := i + 1;
      }
      assert state.targets[..i] == state.targets;
      Advance(Main);
    }

    /** Result.AllMoved: a read-only scan. */
    method AllMoved() returns (all: bool)
      requires Valid()
      ensures all == state.AllMoved()
    {
      if servers.Length == 0 {
        return false;
      }
      var i := 0;
      while i < servers.Length
        invariant i <= servers.Length && forall j :: 0 <= j < i ==> state.targets[j].res.moved
      {
        if !servers[i].moved {
          return false;
        }
        i := i + 1;
      }
      return true;
    }
  }
}

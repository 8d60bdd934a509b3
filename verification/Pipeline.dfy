/**
 The two-phase deploy of internal/deploy/pipeline.go as a step system: one program counter
 per target goroutine, one for the coordinating goroutine, remote operations whose outcomes
 are fixed by a script, and a scheduler that interleaves them freely between the barriers.

 Quantifying over scripts makes every outcome possible, including operations that report an
 error although they took effect; quantifying over schedules covers every interleaving and,
 since a schedule may stop anywhere, every crash point.
 */
module Pipeline {
  import opened Text
  import opened Serial
  import opened Remote

  // ---------------------------------------------------------------------
  // Requests, servers and outcomes
  // ---------------------------------------------------------------------

  datatype Server = Server(host: string, zoneDir: string)

  datatype Request = Request(zone: string, content: string, oldSerial: uint32, newSerial: uint32, targets: seq<string>)

  /** A file on a server. */
  datatype Loc = Loc(host: string, path: string)

  type Files = map<Loc, string>

  function Lookup(files: Files, l: Loc): Option<string> {
    if l in files then Some(files[l]) else None
  }

  datatype Dial = Connected | Refused(err: string)

  /** A failed upload may leave the temporary file as it was or with any content. */
  datatype Upload = Uploaded | UploadError(err: string, written: Option<string>)

  /** A remote command: whether it reports success, and whether it took effect anyway. */
  datatype Command = Command(ok: bool, landed: bool, output: string, err: string)
  {
    predicate Took() {
      ok || landed
    }
  }

  datatype Answer = NoAnswer | Answer(serial: uint32)

  /** What each remote operation for one target will do. */
  datatype Script = Script(dial: Dial, upload: Upload, check: Command, move: Command, reload: Command,
                           verify: Answer, remove: Command)

  /** Everything a deploy depends on besides the schedule. */
  datatype Env = Env(req: Request, servers: map<string, Server>, scripts: seq<Script>, suffixes: seq<string>,
                     files: Files)
  {
    function N(): nat {
      |req.targets|
    }

    /** The configured server, or Go's zero value when there is none. */
    function ServerOf(i: nat): Server
      requires i < N()
    {
      if req.targets[i] in servers then servers[req.targets[i]] else Server("", "")
    }

    function TempLoc(i: nat): Loc
      requires i < N() == |suffixes|
    {
      Loc(ServerOf(i).host, TempPath(ServerOf(i).zoneDir, ZoneFile(req.zone), suffixes[i]))
    }

    function LiveLoc(i: nat): Loc
      requires i < N()
    {
      Loc(ServerOf(i).host, FinalPath(ServerOf(i).zoneDir, ZoneFile(req.zone)))
    }

    /** At least one target, a script and a random suffix for each, suffixes distinct. */
    ghost predicate Valid() {
      && 0 < N() == |scripts| == |suffixes|
      && (forall i :: 0 <= i < N() ==> |suffixes[i]| == 16)
      && (forall i, j :: 0 <= i < j < N() ==> suffixes[i] != suffixes[j])
    }
  }

  // ---------------------------------------------------------------------
  // Results
  // ---------------------------------------------------------------------

  datatype Status = StatusFailed | StatusPartial | StatusSuccess

  datatype ServerResult = ServerResult(name: string, staged: bool, checked: bool, moved: bool, reloaded: bool,
                                       verified: bool, output: string, err: string)

  const BLANK_RESULT: ServerResult := ServerResult("", false, false, false, false, false, "", "")

  /** A connection slot; an opened connection counts how often it was closed. */
  datatype Conn = NoConn | Conn(closes: nat)

  // ---------------------------------------------------------------------
  // Target goroutines
  // ---------------------------------------------------------------------

  datatype Pc = ToDial | ToUpload | ToCheck | Parked1 | ToMove | ToReload | Parked2 | ToVerify | Parked3
  {
    /** Waiting at the barrier that ends a phase. */
    predicate Parked() {
      Parked1? || Parked2? || Parked3?
    }

    function Rank(): nat {
      match this
      case ToDial => 3
      case ToUpload => 2
      case ToCheck => 1
      case ToMove => 2
      case ToReload => 1
      case ToVerify => 1
      case _ => 0
    }
  }

  datatype Target = Target(pc: Pc, res: ServerResult, conn: Conn, tmp: string)

  /** What target i's goroutine does to its own slots in its next step. */
  function Local(env: Env, i: nat, t: Target): (t': Target)
    requires i < env.N() == |env.scripts| == |env.suffixes|
    ensures !t.pc.Parked() ==> t'.pc.Rank() < t.pc.Rank()
  {
    var s := env.scripts[i];
    match t.pc
    case ToDial =>
      var res := t.res.(name := env.req.targets[i]);
      if env.req.targets[i] !in env.servers then
        t.(pc := Parked1, res := res.(err := "unknown server in config"))
      else if s.dial.Refused? then
        t.(pc := Parked1, res := res.(err := "connect: " + s.dial.err))
      else
        t.(pc := ToUpload, res := res, conn := Conn(0), tmp := env.TempLoc(i).path)
    case ToUpload =>
      if s.upload.UploadError? then
        t.(pc := Parked1, res := t.res.(err := "upload: " + s.upload.err))
      else
        t.(pc := ToCheck, res := t.res.(staged := true))
    case ToCheck =>
      var res := t.res.(output := TrimSpace(s.check.output));
      if !s.check.ok then
        t.(pc := Parked1, res := res.(err := "checkzone: " + s.check.err))
      else
        t.(pc := Parked1, res := res.(checked := true))
    case ToMove =>
      if !s.move.ok then
        t.(pc := Parked2, res := t.res.(output := TrimSpace(s.move.output), err := "move: " + s.move.err))
      else
        t.(pc := ToReload, res := t.res.(moved := true))
    case ToReload =>
      var res := t.res.(output := TrimSpace(s.reload.output));
      if !s.reload.ok then
        t.(pc := Parked2, res := res.(err := "reload: " + s.reload.err))
      else
        t.(pc := Parked2, res := res.(reloaded := true))
    case ToVerify =>
      t.(pc := Parked3, res := t.res.(verified := s.verify == Answer(env.req.newSerial)))
    case _ => t
  }

  /** What the same step does to the remote files. */
  function Effect(env: Env, i: nat, t: Target, files: Files): Files
    requires i < env.N() == |env.scripts| == |env.suffixes|
  {
    var s := env.scripts[i];
    var tmp := env.TempLoc(i);
    match t.pc
    case ToUpload =>
      if s.upload.Uploaded? then files[tmp := env.req.content]
      else if s.upload.written.Some? then files[tmp := s.upload.written.value]
      else files
    case ToMove =>
      if s.move.Took() && tmp in files then (files - {tmp})[env.LiveLoc(i) := files[tmp]] else files
    case _ => files
  }

  // ---------------------------------------------------------------------
  // The whole system
  // ---------------------------------------------------------------------

  /** Where the coordinating goroutine is. */
  datatype Phase =
    | Staging | Cleaning(next: nat) | Aborting(next: nat)
    | Committing | Verifying | Closing(next: nat) | Returned

  datatype State = State(phase: Phase, targets: seq<Target>, files: Files, status: Status)
  {
    predicate AllParked() {
      forall i :: 0 <= i < |targets| ==> targets[i].pc.Parked()
    }

    predicate AllChecked() {
      forall i :: 0 <= i < |targets| ==> targets[i].res.checked
    }

    /** Result.AllMoved. */
    predicate AllMoved() {
      targets != [] && forall i :: 0 <= i < |targets| ==> targets[i].res.moved
    }
  }

  datatype Thread = Main | Go(i: nat)

  const FRESH_TARGET: Target := Target(ToDial, BLANK_RESULT, NoConn, "")

  function Init(env: Env): State {
    State(Staging, seq(env.N(), i => FRESH_TARGET), env.files, StatusFailed)
  }

  function GoStep(env: Env, st: State, i: nat): State
    requires |st.targets| == env.N() == |env.scripts| == |env.suffixes|
  {
    if i < |st.targets| then
      st.(targets := st.targets[i := Local(env, i, st.targets[i])], files := Effect(env, i, st.targets[i], st.files))
    else st
  }

  function CloseConn(t: Target): Target {
    if t.conn.Conn? then t.(conn := Conn(t.conn.closes + 1)) else t
  }

  function StartCommit(t: Target): Target {
    t.(pc := ToMove)
  }

  /** Only targets that reloaded are verified. */
  function StartVerify(t: Target): Target {
    t.(pc := if t.res.reloaded then ToVerify else Parked3)
  }

  function MapTargets(f: Target -> Target, ts: seq<Target>): (r: seq<Target>)
    ensures |r| == |ts| && forall i :: 0 <= i < |ts| ==> r[i] == f(ts[i])
  {
    seq(|ts|, i requires 0 <= i < |ts| => f(ts[i]))
  }

  function SweepFiles(env: Env, st: State, k: nat): Files
    requires k < |st.targets| == env.N() == |env.scripts| == |env.suffixes|
  {
    if st.targets[k].conn.Conn? && st.targets[k].tmp != "" && env.scripts[k].remove.Took()
    then st.files - {env.TempLoc(k)}
    else st.files
  }

  function FinalStatus(ts: seq<Target>): Status {
    if forall i :: 0 <= i < |ts| ==> ts[i].res.moved && ts[i].res.reloaded then StatusSuccess else StatusPartial
  }

  function MainStep(env: Env, st: State): State
    requires |st.targets| == env.N() == |env.scripts| == |env.suffixes|
  {
    match st.phase
    case Staging =>
      if !st.AllParked() then st
      else if st.AllChecked() then st.(phase := Committing, targets := MapTargets(StartCommit, st.targets))
      else st.(phase := Cleaning(0))
    case Cleaning(k) =>
      if k < |st.targets| then st.(phase := Cleaning(k + 1), files := SweepFiles(env, st, k))
      else st.(phase := Aborting(0))
    case Aborting(k) =>
      if k < |st.targets| then st.(phase := Aborting(k + 1), targets := st.targets[k := CloseConn(st.targets[k])])
      else st.(phase := Returned)
    case Committing =>
      if !st.AllParked() then st
      else st.(phase := Verifying, targets := MapTargets(StartVerify, st.targets))
    case Verifying =>
      if !st.AllParked() then st else st.(phase := Closing(0))
    case Closing(k) =>
      if k < |st.targets| then st.(phase := Closing(k + 1), targets := st.targets[k := CloseConn(st.targets[k])])
      else st.(phase := Returned, status := FinalStatus(st.targets))
    case Returned => st
  }

  /** A thread that cannot move leaves the state alone. */
  function Step(env: Env, st: State, th: Thread): (st': State)
    requires |st.targets| == env.N() == |env.scripts| == |env.suffixes|
    ensures |st'.targets| == |st.targets|
  {
    match th
    case Main => MainStep(env, st)
    case Go(i) => GoStep(env, st, i)
  }

  /** The state after a schedule. */
  function Run(env: Env, st: State, schedule: seq<Thread>): (st': State)
    requires |st.targets| == env.N() == |env.scripts| == |env.suffixes|
    ensures |st'.targets| == |st.targets|
    decreases |schedule|
  {
    if schedule == [] then st
    else Step(env, Run(env, st, schedule[..|schedule| - 1]), schedule[|schedule| - 1])
  }

  // ---------------------------------------------------------------------
  // The invariant
  // ---------------------------------------------------------------------

  /** The target after its goroutine has run, undisturbed, to the end of its phase. */
  function Rest(env: Env, i: nat, t: Target): (r: Target)
    requires i < env.N() == |env.scripts| == |env.suffixes|
    ensures r.pc.Parked()
    decreases t.pc.Rank()
  {
    if t.pc.Parked() then t else Rest(env, i, Local(env, i, t))
  }

  /** Target i at the end of phases 1, 2 and 3. */
  function Staged(env: Env, i: nat): Target
    requires i < env.N() == |env.scripts| == |env.suffixes|
  {
    Rest(env, i, FRESH_TARGET)
  }

  function Committed(env: Env, i: nat): Target
    requires i < env.N() == |env.scripts| == |env.suffixes|
  {
    Rest(env, i, StartCommit(Staged(env, i)))
  }

  function Verified(env: Env, i: nat): Target
    requires i < env.N() == |env.scripts| == |env.suffixes|
  {
    Rest(env, i, StartVerify(Committed(env, i)))
  }

  /** Program counters of each phase, and what they say about the slots. */
  predicate Shape(t: Target, env: Env, i: nat)
    requires i < env.N() == |env.scripts| == |env.suffixes|
  {
    var r, s := t.res, env.scripts[i];
    && (t.pc.ToDial? ==> t == FRESH_TARGET)
    && (t.conn.Conn? ==> t.tmp == env.TempLoc(i).path != "")
    && (t.conn.NoConn? ==> t.tmp == "" && (t.pc.ToDial? || t.pc.Parked1?) && !r.staged)
    && (t.pc.ToUpload? ==> !r.staged)
    && (t.pc.ToCheck? ==> r.staged && s.upload.Uploaded?)
    && (t.pc.ToDial? || t.pc.ToUpload? || t.pc.ToCheck? ==> !r.checked)
    && (t.pc.Parked1? ==> (r.checked ==> r.staged) && (t.conn.Conn? ==> r.staged == s.upload.Uploaded?))
    && (t.pc.ToDial? || t.pc.ToUpload? || t.pc.ToCheck? || t.pc.Parked1? || t.pc.ToMove? ==> !r.moved)
    && (t.pc.ToMove? || t.pc.ToReload? || t.pc.Parked2? || t.pc.ToVerify? || t.pc.Parked3? ==> r.staged && r.checked)
    && (t.pc.ToReload? ==> r.moved)
    && (t.pc.Parked2? || t.pc.ToVerify? || t.pc.Parked3? ==> (r.reloaded ==> r.moved))
    && (r.moved ==> s.move.ok)
    && (t.pc.ToVerify? ==> r.reloaded)
    && (!t.pc.Parked2? && !t.pc.ToVerify? && !t.pc.Parked3? ==> !r.reloaded)
    && (t.pc.Parked3? ==> (r.verified ==> r.reloaded))
    && (!t.pc.Parked3? ==> !r.verified)
    && (t.pc.Parked2? || t.pc.ToVerify? || t.pc.Parked3? ==> r.moved == s.move.ok)
  }

  predicate Pc1(pc: Pc) { pc.ToDial? || pc.ToUpload? || pc.ToCheck? || pc.Parked1? }
  predicate Pc2(pc: Pc) { pc.ToMove? || pc.ToReload? || pc.Parked2? }
  predicate Pc3(pc: Pc) { pc.ToVerify? || pc.Parked3? }

  ghost predicate EveryoneChecked(env: Env)
    requires env.N() == |env.scripts| == |env.suffixes|
  {
    forall i :: 0 <= i < env.N() ==> Staged(env, i).res.checked
  }

  /** The targets' slots depend only on the script, the phase and the program counters. */
  ghost predicate TargetsInv(env: Env, st: State)
    requires |st.targets| == env.N() == |env.scripts| == |env.suffixes|
  {
    && (forall i :: 0 <= i < |st.targets| ==> Shape(st.targets[i], env, i))
    && match st.phase
       case Staging =>
         forall i :: 0 <= i < |st.targets| ==>
           Pc1(st.targets[i].pc) && Rest(env, i, st.targets[i]) == Staged(env, i)
       case Cleaning(k) =>
         && k <= env.N() && !EveryoneChecked(env)
         && (forall i :: 0 <= i < |st.targets| ==> st.targets[i] == Staged(env, i))
       case Aborting(k) =>
         && k <= env.N() && !EveryoneChecked(env)
         && (forall i :: 0 <= i < |st.targets| ==>
               st.targets[i] == if i < k then CloseConn(Staged(env, i)) else Staged(env, i))
       case Committing =>
         && EveryoneChecked(env)
         && forall i :: 0 <= i < |st.targets| ==>
              Pc2(st.targets[i].pc) && Rest(env, i, st.targets[i]) == Committed(env, i)
       case Verifying =>
         && EveryoneChecked(env)
         && forall i :: 0 <= i < |st.targets| ==>
              Pc3(st.targets[i].pc) && Rest(env, i, st.targets[i]) == Verified(env, i)
       case Closing(k) =>
         && k <= env.N() && EveryoneChecked(env)
         && (forall i :: 0 <= i < |st.targets| ==>
               st.targets[i] == if i < k then CloseConn(Verified(env, i)) else Verified(env, i))
       case Returned =>
         && (forall i :: 0 <= i < |st.targets| ==>
               st.targets[i] == CloseConn(if EveryoneChecked(env) then Verified(env, i) else Staged(env, i)))
  }

  ghost predicate StatusInv(env: Env, st: State)
    requires |st.targets| == env.N() == |env.scripts| == |env.suffixes|
  {
    st.status == if st.phase.Returned? && EveryoneChecked(env) then FinalStatus(st.targets) else StatusFailed
  }

  /** Whether cleanup has already been past target i. */
  predicate Swept(phase: Phase, i: nat) {
    match phase
    case Cleaning(k) => i < k
    case Aborting(_) => true
    case Returned => true
    case _ => false
  }

  /** What target i's temporary file holds. */
  function TempNow(env: Env, i: nat, t: Target, swept: bool): Option<string>
    requires i < env.N() == |env.scripts| == |env.suffixes|
  {
    var before := Lookup(env.files, env.TempLoc(i));
    var s := env.scripts[i];
    match t.pc
    case ToDial => before
    case ToUpload => before
    case ToCheck => Some(env.req.content)
    case Parked1 =>
      if t.conn.NoConn? then before
      else if swept && s.remove.Took() then None
      else if t.res.staged then Some(env.req.content)
      else if s.upload.UploadError? && s.upload.written.Some? then s.upload.written
      else before
    case ToMove => Some(env.req.content)
    case _ => if s.move.Took() then None else Some(env.req.content)
  }

  /** Whether target i's move has taken effect. */
  predicate Landed(env: Env, i: nat, t: Target)
    requires i < env.N() == |env.scripts|
  {
    (t.pc.ToReload? || t.pc.Parked2? || Pc3(t.pc)) && env.scripts[i].move.Took()
  }

  ghost predicate IsTemp(env: Env, l: Loc)
    requires env.N() == |env.suffixes|
  {
    exists i :: 0 <= i < env.N() && env.TempLoc(i) == l
  }

  ghost predicate LandedAt(env: Env, ts: seq<Target>, l: Loc)
    requires |ts| == env.N() == |env.scripts|
  {
    exists i :: 0 <= i < env.N() && env.LiveLoc(i) == l && Landed(env, i, ts[i])
  }

  /** The remote files are a function of the program counters. */
  ghost predicate FilesInv(env: Env, st: State)
    requires |st.targets| == env.N() == |env.scripts| == |env.suffixes|
  {
    && (forall i :: 0 <= i < env.N() ==>
          Lookup(st.files, env.TempLoc(i)) == TempNow(env, i, st.targets[i], Swept(st.phase, i)))
    && (forall l :: !IsTemp(env, l) ==>
          Lookup(st.files, l) == if LandedAt(env, st.targets, l) then Some(env.req.content) else Lookup(env.files, l))
  }

  ghost predicate Inv(env: Env, st: State) {
    && env.Valid()
    && |st.targets| == env.N()
    && TargetsInv(env, st)
    && StatusInv(env, st)
    && FilesInv(env, st)
  }
}

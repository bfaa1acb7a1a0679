/** How framing meets pausing: one connection of the PACK server, its parser state and
    buffer under the connection's I/O lock, the pause flag that is read and written
    without it, and the unpause command, with any number of dispatcher threads and of
    callers of PauseReceive. */
module PackPause {
  import opened Bytes
  import opened PackFraming

  datatype Lock = Free | Held(w: nat)

  datatype Pc =
    | Idle
    | WantIo                   // ProcessIo: wants csIo
    | Test                     // HandleReceive: tests the flag, then reads
    | Head(cmd: bool)          // ParsePack, called for an unpause command or a read: enough bytes?
    | Flag(cmd: bool)          // tests the flag
    | Take(cmd: bool)          // fetches and handles the next piece
    | Rearm                    // OnAfterProcessIo: releases csIo
    | CmdWant                  // BeforeUnpause: wants csIo
    | CmdIn                    // tests the connection and the flag
    | FreeHeld                 // AddFreeSocketObj from HandleReceive, csIo held
    | FreeUnheld               // AddFreeSocketObj from HandleCmdUnpause, csIo released

  /** PauseReceive: the flag is compared, written, and an unpause command is sent. */
  datatype Pauser = PIdle | PSet(b: bool) | PSend

  datatype Failure = None | BadHeader(cmd: bool) | Refused(cmd: bool)

  datatype State = State(
    lim: Limits,
    lock: Lock,                // csIo
    valid: bool,
    paused: bool,
    info: Info,
    buffer: Item,
    cmds: nat,                 // DISP_CMD_UNPAUSE commands queued
    workers: seq<Pc>,
    pausers: seq<Pauser>,
    // history
    received: Item,
    delivered: seq<Item>,
    failure: Failure,          // the first one
    entered: bool)             // csIo was taken for I/O after the failure

  /** The outcome of a read, or the listener's answer. */
  datatype Choice = Go | Data(d: Item) | Close | Refuse

  datatype Action =
    | Event(w: nat)
    | Command(w: nat)
    | Work(w: nat, c: Choice)
    | CallPause(p: nat, b: bool)
    | PauseStep(p: nat)

  predicate Enabled(s: State, a: Action) {
    match a
    case Event(w) => w < |s.workers| && s.workers[w].Idle?
    case Command(w) => w < |s.workers| && s.workers[w].Idle? && s.cmds > 0
    case Work(w, c) =>
      && w < |s.workers| && !s.workers[w].Idle?
      && (s.workers[w].WantIo? || s.workers[w].CmdWant? || s.workers[w].FreeUnheld? ==> s.lock.Free?)
      && (s.workers[w].Take? ==> |s.buffer| >= s.info.length && s.info.Valid())
    case CallPause(p, b) => p < |s.pausers| && s.pausers[p].PIdle? && s.valid
    case PauseStep(p) => p < |s.pausers| && !s.pausers[p].PIdle?
  }

  function At(s: State, w: nat, pc: Pc): State
    requires w < |s.workers|
  {
    s.(workers := s.workers[w := pc])
  }

  /** ParsePack is left without an error. */
  function Left(s: State, w: nat, cmd: bool): State
    requires w < |s.workers|
  {
    if cmd then At(s, w, WantIo).(lock := Free) else At(s, w, Test)
  }

  function Failed(s: State, w: nat, cmd: bool, why: Failure): State
    requires w < |s.workers|
  {
    var s1 := s.(failure := if s.failure.None? then why else s.failure);
    if cmd then At(s1, w, FreeUnheld).(lock := Free) else At(s1, w, FreeHeld)
  }

  function TakeNext(s: State, w: nat, cmd: bool, c: Choice): State
    requires w < |s.workers| && |s.buffer| >= s.info.length && s.info.Valid()
  {
    var chunk := s.buffer[..s.info.length];
    var s1 := s.(buffer := s.buffer[s.info.length..]);
    if !s.info.header then
      var s2 := s1.(delivered := s.delivered + [chunk]);
      if c.Refuse? then Failed(s2, w, cmd, Refused(cmd)) else At(s2.(info := FRESH), w, Head(cmd))
    else if Rejected(s.lim, Get(chunk)) then Failed(s1, w, cmd, BadHeader(cmd))
    else At(s1.(info := Info(false, LengthOf(Get(chunk)))), w, Head(cmd))
  }

  function WorkNext(s: State, w: nat, c: Choice): State
    requires Enabled(s, Work(w, c))
  {
    match s.workers[w]
    case Idle => s
    case WantIo =>
      if s.valid then At(s, w, Test).(lock := Held(w), entered := s.entered || !s.failure.None?)
      else At(s, w, Idle)
    case Test =>
      if s.paused then At(s, w, Rearm)
      else if c.Data? then At(s, w, Head(false)).(buffer := s.buffer + c.d, received := s.received + c.d)
      else if c.Close? then At(s, w, FreeHeld)
      else At(s, w, Rearm)
    case Head(cmd) => if |s.buffer| >= s.info.length then At(s, w, Flag(cmd)) else Left(s, w, cmd)
    case Flag(cmd) => if s.paused then Left(s, w, cmd) else At(s, w, Take(cmd))
    case Take(cmd) => TakeNext(s, w, cmd, c)
    case Rearm => At(s, w, Idle).(lock := Free)
    case CmdWant => At(s, w, CmdIn).(lock := Held(w))
    case CmdIn =>
      if !s.valid then At(s, w, FreeUnheld).(lock := Free)
      else if s.paused then Left(s, w, true)
      else At(s, w, Head(true)).(entered := s.entered || !s.failure.None?)
    case FreeHeld => At(s, w, Idle).(lock := Free, valid := false)
    case FreeUnheld => At(s, w, Idle).(valid := false)
  }

  function PauseNext(s: State, p: nat): State
    requires p < |s.pausers|
  {
    match s.pausers[p]
    case PIdle => s
    case PSet(b) => s.(pausers := s.pausers[p := if b then PIdle else PSend], paused := b)
    case PSend => s.(pausers := s.pausers[p := PIdle], cmds := s.cmds + 1)
  }

  function Next(s: State, a: Action): State
    requires Enabled(s, a)
  {
    match a
    case Event(w) => At(s, w, WantIo)
    case Command(w) => At(s, w, CmdWant).(cmds := s.cmds - 1)
    case Work(w, c) => WorkNext(s, w, c)
    case CallPause(p, b) => if s.paused == b then s else s.(pausers := s.pausers[p := PSet(b)])
    case PauseStep(p) => PauseNext(s, p)
  }

  predicate Init(s: State) {
    && s.lock.Free? && s.valid && s.info == FRESH && s.buffer == [] && s.cmds == 0
    && (forall w | 0 <= w < |s.workers| :: s.workers[w].Idle?)
    && (forall p | 0 <= p < |s.pausers| :: s.pausers[p].PIdle?)
    && s.received == [] && s.delivered == [] && s.failure.None? && !s.entered
  }

  ghost predicate Runs(s: State, acts: seq<Action>, s': State)
    decreases acts
  {
    if acts == [] then s == s'
    else Enabled(s, acts[0]) && Runs(Next(s, acts[0]), acts[1..], s')
  }

  // ---------------------------------------------------------------- the invariant

  predicate HoldsIo(pc: Pc) {
    pc.Test? || pc.Head? || pc.Flag? || pc.Take? || pc.Rearm? || pc.CmdIn? || pc.FreeHeld?
  }

  predicate Parsing(pc: Pc) { pc.Head? || pc.Flag? || pc.Take? }

  predicate WorkerOk(s: State, w: nat)
    requires w < |s.workers|
  {
    var pc := s.workers[w];
    && (HoldsIo(pc) <==> s.lock == Held(w))
    && (pc.Flag? || pc.Take? ==> |s.buffer| >= s.info.length)
    && (!s.failure.None? && !s.entered && s.valid && HoldsIo(pc) ==> pc.FreeHeld? || pc.CmdIn?)
    && (!s.valid && HoldsIo(pc) ==> pc.CmdIn?)
    && (!s.failure.None? && s.valid && !s.failure.cmd ==> pc.FreeHeld? || !HoldsIo(pc))
  }

  /** What has been delivered, and what the unread bytes will still give, is what the
      received bytes give in one piece. */
  predicate Faithful(s: State) {
    var whole := Parsed(s.lim, FRESH, s.received);
    match s.failure
    case None => s.info.Valid() && whole == Parsed(s.lim, s.info, s.buffer).Before(s.delivered)
    case BadHeader(_) => whole.bad && s.delivered == whole.packs
    case Refused(_) => s.delivered <= whole.packs
  }

  /** Somebody will look at the buffer, or the pause is still on. */
  ghost predicate Attended(s: State) {
    || |s.buffer| < s.info.length || s.paused || s.cmds > 0
    || (exists p | 0 <= p < |s.pausers| :: s.pausers[p].PSend?)
    || (exists w | 0 <= w < |s.workers| :: s.workers[w].CmdWant? || s.workers[w].CmdIn? || Parsing(s.workers[w]))
  }

  ghost predicate Inv(s: State) {
    && (forall w | 0 <= w < |s.workers| :: WorkerOk(s, w))
    && s.info.Valid()
    && (s.lock.Held? ==> s.lock.w < |s.workers|)
    && (!s.entered ==> Faithful(s))
    && (s.entered ==> !s.failure.None? && s.failure.cmd)
    && (!s.failure.None? && s.valid && !s.failure.cmd ==> s.lock.Held?)
    && (s.failure.None? && s.valid ==> Attended(s))
  }
}

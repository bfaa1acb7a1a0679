/** Pausing does not change what is delivered, nor strand a complete packet. */
module PackPauseTheorems {
  import opened Bytes
  import opened PackFraming
  import opened PackPause

  lemma InitInv(s: State)
    requires Init(s)
    ensures Inv(s)
  {
    assert Parsed(s.lim, FRESH, []).Before([]) == Parsed(s.lim, FRESH, []);
  }

  // ---------------------------------------------------------------- what is delivered

  /** A piece is fetched and handled. */
  lemma TakeFaithful(s: State, w: nat, cmd: bool, c: Choice)
    requires w < |s.workers| && s.info.Valid() && |s.buffer| >= s.info.length && Faithful(s) && s.failure.None?
    ensures Faithful(TakeNext(s, w, cmd, c)) && TakeNext(s, w, cmd, c).info.Valid()
  {
    var chunk, rest := s.buffer[..s.info.length], s.buffer[s.info.length..];
    if !s.info.header {
      BeforeTwice(Parsed(s.lim, FRESH, rest), [chunk], s.delivered);
    } else if !Rejected(s.lim, Get(chunk)) {
      LengthIsRemainder(Get(chunk));
    }
  }

  /** Bytes arrive. */
  lemma ReadFaithful(s: State, d: Item, s': State)
    requires Faithful(s) && s.failure.None? && s'.lim == s.lim && s'.info == s.info && s'.failure.None?
    requires s'.buffer == s.buffer + d && s'.received == s.received + d && s'.delivered == s.delivered
    ensures Faithful(s')
  {
    ParsedAppend(s.lim, FRESH, s.received, d);
    ParsedAppend(s.lim, s.info, s.buffer, d);
    var r := Parsed(s.lim, s.info, s.buffer);
    BeforeTwice(Parsed(s.lim, r.info, r.rest + d), r.packs, s.delivered);
  }

  lemma InfoStaysValid(s: State, w: nat, cmd: bool, c: Choice)
    requires w < |s.workers| && s.info.Valid() && |s.buffer| >= s.info.length
    ensures TakeNext(s, w, cmd, c).info.Valid()
  {
    if s.info.header { LengthIsRemainder(Get(s.buffer[..s.info.length])); }
  }

  // ---------------------------------------------------------------- worker steps

  /** What a step of worker `w` does to what the other workers rely on. */
  predicate WorkStep(s: State, w: nat, s': State)
    requires w < |s.workers|
  {
    && |s'.workers| == |s.workers| && s'.workers == s.workers[w := s'.workers[w]] && s'.pausers == s.pausers && s'.paused == s.paused
    && s'.lim == s.lim && s'.cmds == s.cmds && s'.info.Valid()
    && (s'.lock == s.lock || (s.lock.Free? && s'.lock == Held(w)) || (s.lock == Held(w) && s'.lock.Free?))
    && ((s'.buffer == s.buffer && s'.info == s.info) || s.lock == Held(w))
    && (s'.valid == s.valid || ((s.lock.Free? || s.lock == Held(w)) && s'.lock.Free?))
    && (s'.valid ==> s.valid)
    && (s'.failure == s.failure || (s.lock == Held(w) && s.failure.None? && (s'.failure.cmd <==> s'.lock.Free?)))
    && (s.entered ==> s'.entered)
    && (s'.entered && !s.entered ==> s'.lock == Held(w))
    && WorkerOk(s', w)
  }

  lemma TakeStep(s: State, w: nat, c: Choice)
    requires Enabled(s, Work(w, c)) && WorkerOk(s, w) && s.workers[w].Take? && s.info.Valid()
    requires s.failure.None? || s.entered
    requires s.entered ==> !s.failure.None? && s.failure.cmd
    ensures WorkStep(s, w, WorkNext(s, w, c))
  {
    InfoStaysValid(s, w, s.workers[w].cmd, c);
  }

  lemma OtherStep(s: State, w: nat, c: Choice)
    requires Enabled(s, Work(w, c)) && WorkerOk(s, w) && !s.workers[w].Take? && s.info.Valid()
    requires s.entered ==> !s.failure.None? && s.failure.cmd
    requires !s.failure.None? && s.valid && !s.failure.cmd ==> s.lock.Held?
    ensures WorkStep(s, w, WorkNext(s, w, c))
  {
    match s.workers[w]
    case WantIo =>
    case Test =>
    case Head(_) =>
    case Flag(_) =>
    case CmdIn =>
    case _ =>
  }

  /** The worker's own part of Attended. */
  lemma AttendsItself(s: State, w: nat, c: Choice)
    requires Enabled(s, Work(w, c)) && s.failure.None? && s.valid
    ensures var s' := WorkNext(s, w, c);
      s'.failure.None? && s'.valid && (s.workers[w].CmdWant? || s.workers[w].CmdIn? || Parsing(s.workers[w])) ==>
        || s'.workers[w].CmdIn? || Parsing(s'.workers[w]) || s'.paused || |s'.buffer| < s'.info.length
  {
  }

  lemma WorkAttended(s: State, w: nat, c: Choice)
    requires Inv(s) && Enabled(s, Work(w, c)) && WorkStep(s, w, WorkNext(s, w, c))
    requires WorkNext(s, w, c).failure.None? && WorkNext(s, w, c).valid
    ensures Attended(WorkNext(s, w, c))
  {
    var s' := WorkNext(s, w, c);
    AttendsItself(s, w, c);
    if p :| 0 <= p < |s.pausers| && s.pausers[p].PSend? {
      assert s'.pausers[p].PSend?;
    } else if v :| 0 <= v < |s.workers| && (s.workers[v].CmdWant? || s.workers[v].CmdIn? || Parsing(s.workers[v])) {
      assert v != w ==> s'.workers[v] == s.workers[v];
    } else {
      assert |s.buffer| < s.info.length || s.paused || s.cmds > 0;
      assert s'.buffer != s.buffer ==> Parsing(s'.workers[w]);
    }
  }

  /** All other steps leave the parser, and what it was given, as they are. */
  lemma OtherQuiet(s: State, w: nat, c: Choice)
    requires Enabled(s, Work(w, c)) && !s.workers[w].Take? && !(s.workers[w].Test? && !s.paused && c.Data?)
    ensures Quiet(s, WorkNext(s, w, c))
  {
    match s.workers[w]
    case WantIo =>
    case Test =>
    case CmdIn =>
    case _ =>
  }

  predicate Quiet(s: State, s': State) {
    && s'.lim == s.lim && s'.info == s.info && s'.buffer == s.buffer
    && s'.received == s.received && s'.delivered == s.delivered && s'.failure == s.failure
  }

  lemma WorkFaithful(s: State, w: nat, c: Choice)
    requires Inv(s) && Enabled(s, Work(w, c)) && !WorkNext(s, w, c).entered
    ensures Faithful(WorkNext(s, w, c))
  {
    assert WorkerOk(s, w);
    if s.workers[w].Take? {
      TakeFaithful(s, w, s.workers[w].cmd, c);
    } else if s.workers[w].Test? && !s.paused && c.Data? {
      ReadFaithful(s, c.d, WorkNext(s, w, c));
    } else {
      OtherQuiet(s, w, c);
    }
  }

  lemma WorkKept(s: State, w: nat, c: Choice)
    requires Inv(s) && Enabled(s, Work(w, c))
    ensures Inv(WorkNext(s, w, c))
  {
    var s' := WorkNext(s, w, c);
    assert WorkerOk(s, w);
    if s.workers[w].Take? { TakeStep(s, w, c); } else { OtherStep(s, w, c); }
    forall v | 0 <= v < |s'.workers| ensures WorkerOk(s', v) { assert WorkerOk(s, v); }
    if !s'.entered { WorkFaithful(s, w, c); }
    if s'.failure.None? && s'.valid { WorkAttended(s, w, c); }
  }

  // ---------------------------------------------------------------- other steps

  /** Steps that leave the parser alone. */
  lemma OutsideKept(s: State, s': State)
    requires Inv(s) && s' == s.(pausers := s'.pausers, paused := s'.paused, cmds := s'.cmds, workers := s'.workers)
    requires |s'.workers| == |s.workers|
    requires forall w | 0 <= w < |s.workers| ::
      s'.workers[w] == s.workers[w] || (!HoldsIo(s'.workers[w]) && !HoldsIo(s.workers[w]))
    requires s.failure.None? && s.valid ==> Attended(s')
    ensures Inv(s')
  {
    forall v | 0 <= v < |s'.workers| ensures WorkerOk(s', v) { assert WorkerOk(s, v); }
  }

  lemma PauseAttended(s: State, p: nat)
    requires Enabled(s, PauseStep(p)) && Attended(s)
    ensures Attended(PauseNext(s, p))
  {
    var s' := PauseNext(s, p);
    if s.pausers[p] == PSet(false) { assert s'.pausers[p].PSend?; }
    if q :| 0 <= q < |s.pausers| && s.pausers[q].PSend? { assert q != p ==> s'.pausers[q].PSend?; }
  }

  lemma CallAttended(s: State, a: Action)
    requires Enabled(s, a) && Attended(s) && (a.Event? || a.Command? || a.CallPause?)
    ensures Attended(Next(s, a))
  {
    var s' := Next(s, a);
    if a.Command? { assert s'.workers[a.w].CmdWant?; }
    if q :| 0 <= q < |s.pausers| && s.pausers[q].PSend? { assert s'.pausers[q].PSend?; }
    if v :| 0 <= v < |s.workers| && (s.workers[v].CmdWant? || s.workers[v].CmdIn? || Parsing(s.workers[v])) {
      assert s'.workers[v] == s.workers[v] || s'.workers[v].CmdWant?;
    }
  }

  lemma NextKept(s: State, a: Action)
    requires Inv(s) && Enabled(s, a)
    ensures Inv(Next(s, a))
  {
    match a
    case Work(w, c) => WorkKept(s, w, c);
    case PauseStep(p) =>
      if s.failure.None? && s.valid { PauseAttended(s, p); }
      OutsideKept(s, Next(s, a));
    case _ => CallKept(s, a);
  }

  lemma CallKept(s: State, a: Action)
    requires Inv(s) && Enabled(s, a) && (a.Event? || a.Command? || a.CallPause?)
    ensures Inv(Next(s, a))
  {
    if s.failure.None? && s.valid { CallAttended(s, a); }
    OutsideKept(s, Next(s, a));
  }

  lemma {:induction false} RunKeepsInv(s: State, acts: seq<Action>, s': State)
    requires Inv(s) && Runs(s, acts, s')
    ensures Inv(s')
    decreases acts
  {
    if acts != [] {
      NextKept(s, acts[0]);
      RunKeepsInv(Next(s, acts[0]), acts[1..], s');
    }
  }

  // ---------------------------------------------------------------- main results

  /** Whatever the receive calls and whenever the connection is paused and resumed, the
      packets delivered are those of the one-shot parse of the bytes received: with the
      unread bytes still to be parsed; or, after a bad header, all up to it and nothing
      more; or, after a refusal, some first ones. The one exception is a connection that
      was entered for I/O again after the failure. */
  lemma PausesDoNotMatter(s: State, acts: seq<Action>, s': State)
    requires Init(s) && Runs(s, acts, s') && !s'.entered
    ensures var whole := Parsed(s'.lim, FRESH, s'.received);
      match s'.failure
      case None => s'.info.Valid() && whole == Parsed(s'.lim, s'.info, s'.buffer).Before(s'.delivered)
      case BadHeader(_) => whole.bad && s'.delivered == whole.packs
      case Refused(_) => s'.delivered <= whole.packs
  {
    InitInv(s);
    RunKeepsInv(s, acts, s');
  }

  /** A connection is entered after a failure only if an unpause command found it: a
      failure found while reading closes the connection before csIo is released. */
  lemma FailureOnReadIsFinal(s: State, acts: seq<Action>, s': State)
    requires Init(s) && Runs(s, acts, s')
    ensures s'.entered ==> !s'.failure.None? && s'.failure.cmd
  {
    InitInv(s);
    RunKeepsInv(s, acts, s');
  }

  /** A valid connection that is not paused holds no complete packet or header unread,
      unless an unpause command is queued, about to be sent, or being handled, or some
      thread is parsing. */
  lemma NothingStranded(s: State, acts: seq<Action>, s': State)
    requires Init(s) && Runs(s, acts, s') && s'.valid && s'.failure.None? && !s'.paused && s'.cmds == 0
    requires forall p | 0 <= p < |s'.pausers| :: !s'.pausers[p].PSend?
    requires forall w | 0 <= w < |s'.workers| ::
      !s'.workers[w].CmdWant? && !s'.workers[w].CmdIn? && !Parsing(s'.workers[w])
    ensures |s'.buffer| < s'.info.length
    ensures s'.delivered == Parsed(s'.lim, FRESH, s'.received).packs
  {
    InitInv(s);
    RunKeepsInv(s, acts, s');
    assert Faithful(s') && Parsed(s'.lim, s'.info, s'.buffer).packs == [];
  }

  // ---------------------------------------------------------------- what a pause stops

  /** The flag is set from the first state of the run to its last step. */
  ghost predicate PausedAllAlong(s: State, acts: seq<Action>)
    decreases acts
  {
    acts == [] || (s.paused && Enabled(s, acts[0]) && PausedAllAlong(Next(s, acts[0]), acts[1..]))
  }

  ghost predicate NobodyTakes(s: State) { forall w | 0 <= w < |s.workers| :: !s.workers[w].Take? }

  predicate SameBytes(s: State, s': State) {
    s'.received == s.received && s'.buffer == s.buffer && s'.info == s.info && s'.delivered == s.delivered
  }

  /** A step with the flag set reads nothing, delivers nothing and starts on no piece, if
      nobody is in the middle of one... */
  lemma PauseIsHeeded(s: State, a: Action)
    requires Enabled(s, a) && s.paused && NobodyTakes(s)
    ensures NobodyTakes(Next(s, a)) && SameBytes(s, Next(s, a))
  {
    if a.Work? {
      assert !s.workers[a.w].Take?;
      match s.workers[a.w]
      case Head(_) | Flag(_) =>
      case CmdIn | WantIo | Test =>
      case _ =>
    }
  }

  /** ...so while it stays set, the connection reads and delivers nothing. */
  lemma {:induction false} WhilePaused(s: State, acts: seq<Action>, s': State)
    requires Runs(s, acts, s') && PausedAllAlong(s, acts) && NobodyTakes(s)
    ensures SameBytes(s, s')
    decreases acts
  {
    if acts != [] {
      PauseIsHeeded(s, acts[0]);
      WhilePaused(Next(s, acts[0]), acts[1..], s');
    }
  }

  // ---------------------------------------------------------------- how a worker moves

  /** The next piece is refused: by the tests of a header, or by the listener. */
  predicate Fails(s: State, c: Choice) {
    |s.buffer| >= s.info.length && s.info.Valid()
    && if s.info.header then Rejected(s.lim, Get(s.buffer[..s.info.length])) else c.Refuse?
  }

  /** ParsePack, called for a command or a read, stops without a failure. */
  predicate Pauses(s: State, pc: Pc, cmd: bool) {
    (pc == Head(cmd) && |s.buffer| < s.info.length) || (pc == Flag(cmd) && s.paused) || (cmd && pc == CmdIn && s.valid && s.paused)
  }

  /** How a worker comes to a place, and what it did on the way. */
  predicate ComesRightly(s: State, pc: Pc, c: Choice, s': State, pc': Pc) {
    match pc'
    case Idle => (pc.WantIo? && !s.valid) || pc.Rearm? || ((pc.FreeHeld? || pc.FreeUnheld?) && !s'.valid)
    case WantIo => Pauses(s, pc, true)
    case Test => (pc.WantIo? && s.valid && s.lock.Free?) || Pauses(s, pc, false)
    case Head(cmd) =>
      || (!cmd && pc == Test && !s.paused && c.Data? && s'.buffer == s.buffer + c.d)
      || (cmd && pc == CmdIn && s.valid && !s.paused)
      || (pc == Take(cmd) && !Fails(s, c))
    case Flag(cmd) => pc == Head(cmd) && |s.buffer| >= s.info.length
    case Take(cmd) => pc == Flag(cmd) && !s.paused
    case Rearm => pc == Test && (s.paused || (!c.Data? && !c.Close?))
    case CmdWant => false
    case CmdIn => pc == CmdWant && s.lock.Free?
    case FreeHeld => (pc == Test && !s.paused && c.Close?) || (pc == Take(false) && Fails(s, c))
    case FreeUnheld => (pc == CmdIn && !s.valid) || (pc == Take(true) && Fails(s, c))
  }

  /** Each step of a worker comes from a right place: it reads and takes only if not paused,
      and turns to closing exactly for a refused piece or a failed read. */
  lemma WorkComes(s: State, w: nat, c: Choice)
    requires Enabled(s, Work(w, c))
    ensures var s' := WorkNext(s, w, c);
      |s'.workers| == |s.workers| && ComesRightly(s, s.workers[w], c, s', s'.workers[w])
  {
    match s.workers[w]
    case Take(cmd) => TakeComes(s, w, cmd, c);
    case Test | WantIo | CmdIn => EntryComes(s, w, c);
    case Head(_) | Flag(_) => LoopComes(s, w, c);
    case _ =>
  }

  lemma EntryComes(s: State, w: nat, c: Choice)
    requires Enabled(s, Work(w, c)) && (s.workers[w].Test? || s.workers[w].WantIo? || s.workers[w].CmdIn?)
    ensures var s' := WorkNext(s, w, c);
      |s'.workers| == |s.workers| && ComesRightly(s, s.workers[w], c, s', s'.workers[w])
  {
    match s.workers[w]
    case Test =>
    case WantIo =>
    case _ =>
  }

  lemma LoopComes(s: State, w: nat, c: Choice)
    requires Enabled(s, Work(w, c)) && (s.workers[w].Head? || s.workers[w].Flag?)
    ensures var s' := WorkNext(s, w, c);
      |s'.workers| == |s.workers| && ComesRightly(s, s.workers[w], c, s', s'.workers[w])
  {
    match s.workers[w]
    case Head(_) =>
    case _ =>
  }

  lemma TakeComes(s: State, w: nat, cmd: bool, c: Choice)
    requires w < |s.workers| && |s.buffer| >= s.info.length && s.info.Valid() && s.workers[w] == Take(cmd)
    ensures var s' := TakeNext(s, w, cmd, c);
      |s'.workers| == |s.workers| && ComesRightly(s, s.workers[w], c, s', s'.workers[w])
  {
    if s.info.header { } else { }
  }

  predicate Frees(pc: Pc) { pc.FreeHeld? || pc.FreeUnheld? }

  /** Some thread is about to close the connection. */
  ghost predicate SomeoneFrees(s: State) { exists w | 0 <= w < |s.workers| :: Frees(s.workers[w]) }

  ghost predicate ClosedAfterFailure(s: State) { s.failure.None? || !s.valid || SomeoneFrees(s) }

  predicate KeepsClosing(s: State, w: nat, s': State)
    requires w < |s.workers|
  {
    && |s'.workers| == |s.workers| && s'.workers == s.workers[w := s'.workers[w]] && (s'.valid ==> s.valid)
    && (s.failure.None? && !s'.failure.None? ==> Frees(s'.workers[w]))
    && (Frees(s.workers[w]) ==> !s'.valid)
  }

  lemma WorkClosed(s: State, w: nat, c: Choice)
    requires Enabled(s, Work(w, c))
    ensures KeepsClosing(s, w, WorkNext(s, w, c))
  {
    match s.workers[w]
    case Take(cmd) => TakeClosed(s, w, cmd, c);
    case Head(_) | Flag(_) => LoopClosed(s, w, c);
    case Test | WantIo | CmdIn => EntryClosed(s, w, c);
    case _ =>
  }

  lemma TakeClosed(s: State, w: nat, cmd: bool, c: Choice)
    requires w < |s.workers| && |s.buffer| >= s.info.length && s.info.Valid() && s.workers[w] == Take(cmd)
    ensures KeepsClosing(s, w, TakeNext(s, w, cmd, c))
  {
    if s.info.header { } else { }
  }

  lemma LoopClosed(s: State, w: nat, c: Choice)
    requires Enabled(s, Work(w, c)) && (s.workers[w].Head? || s.workers[w].Flag?)
    ensures KeepsClosing(s, w, WorkNext(s, w, c))
  {
  }

  lemma EntryClosed(s: State, w: nat, c: Choice)
    requires Enabled(s, Work(w, c)) && (s.workers[w].Test? || s.workers[w].WantIo? || s.workers[w].CmdIn?)
    ensures KeepsClosing(s, w, WorkNext(s, w, c))
  {
  }

  lemma StepClosed(s: State, a: Action)
    requires Enabled(s, a) && ClosedAfterFailure(s)
    ensures ClosedAfterFailure(Next(s, a))
  {
    var s' := Next(s, a);
    if a.Work? { WorkClosed(s, a.w, a.c); }
    if SomeoneFrees(s) && s'.valid {
      var v :| 0 <= v < |s.workers| && Frees(s.workers[v]);
      assert s'.workers[v] == s.workers[v];
    } else if a.Work? && s.failure.None? && !s'.failure.None? {
      assert Frees(s'.workers[a.w]);
    }
  }

  lemma {:induction false} RunClosed(s: State, acts: seq<Action>, s': State)
    requires Runs(s, acts, s') && ClosedAfterFailure(s)
    ensures ClosedAfterFailure(s')
    decreases acts
  {
    if acts != [] {
      StepClosed(s, acts[0]);
      RunClosed(Next(s, acts[0]), acts[1..], s');
    }
  }

  /** After a bad header or a refusal the connection is closed, at the latest when nobody is
      at work any more. */
  lemma FailureCloses(s: State, acts: seq<Action>, s': State)
    requires Init(s) && Runs(s, acts, s') && !s'.failure.None? && forall w | 0 <= w < |s'.workers| :: s'.workers[w].Idle?
    ensures !s'.valid
  {
    RunClosed(s, acts, s');
  }
}

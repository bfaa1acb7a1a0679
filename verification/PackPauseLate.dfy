/** What can be delivered at all: pausing matters exactly for streams in which a rejected
    header is followed by bytes that still make up a packet. */
module PackPauseLate {
  import opened Bytes
  import opened PackFraming
  import opened PackPause
  import opened PackPauseTheorems

  /** The listener never answers HR_ERROR. */
  ghost predicate NoRefusal(acts: seq<Action>) { forall a | a in acts :: a.Work? ==> !a.c.Refuse? }

  // ---------------------------------------------------------------- every run

  /** What was delivered, and what the unread bytes would still give if parsing went on
      after rejected headers, is what all the received bytes would give. */
  predicate Skims(s: State) {
    s.info.Valid() && Skimmed(s.lim, FRESH, s.received) == Skimmed(s.lim, s.info, s.buffer).Before(s.delivered)
  }

  /** A failure is a bad header of the stream. */
  predicate FailsRightly(s: State) {
    !s.failure.None? ==> s.failure.BadHeader? && Parsed(s.lim, FRESH, s.received).bad
  }

  lemma TakeSkims(s: State, w: nat, cmd: bool, c: Choice)
    requires w < |s.workers| && |s.buffer| >= s.info.length && Skims(s) && !c.Refuse?
    ensures Skims(TakeNext(s, w, cmd, c))
  {
    var chunk, rest := s.buffer[..s.info.length], s.buffer[s.info.length..];
    if !s.info.header {
      BeforeTwice(Skimmed(s.lim, FRESH, rest), [chunk], s.delivered);
    } else if !Rejected(s.lim, Get(chunk)) {
      LengthIsRemainder(Get(chunk));
    }
  }

  lemma ReadSkims(s: State, d: Item, s': State)
    requires Skims(s) && s'.lim == s.lim && s'.info == s.info
    requires s'.buffer == s.buffer + d && s'.received == s.received + d && s'.delivered == s.delivered
    ensures Skims(s')
  {
    SkimmedAppend(s.lim, FRESH, s.received, d);
    SkimmedAppend(s.lim, s.info, s.buffer, d);
    var r := Skimmed(s.lim, s.info, s.buffer);
    BeforeTwice(Skimmed(s.lim, r.info, r.rest + d), r.packs, s.delivered);
  }

  lemma StepSkims(s: State, a: Action)
    requires Skims(s) && Enabled(s, a) && (a.Work? ==> !a.c.Refuse?)
    ensures Skims(Next(s, a))
  {
    if a.Work? {
      var w, c := a.w, a.c;
      if s.workers[w].Take? {
        TakeSkims(s, w, s.workers[w].cmd, c);
      } else if s.workers[w].Test? && !s.paused && c.Data? {
        ReadSkims(s, c.d, WorkNext(s, w, c));
      } else {
        OtherQuiet(s, w, c);
      }
    }
  }

  /** The first failure: until then the parse was faithful, so its bad header is the stream's. */
  lemma TakeFailsRightly(s: State, w: nat, c: Choice)
    requires Inv(s) && FailsRightly(s) && Enabled(s, Work(w, c)) && s.workers[w].Take? && !c.Refuse?
    ensures FailsRightly(WorkNext(s, w, c))
  {
    if s.failure.None? { TakeFaithful(s, w, s.workers[w].cmd, c); }
  }

  lemma StepFailsRightly(s: State, a: Action)
    requires Inv(s) && FailsRightly(s) && Enabled(s, a) && (a.Work? ==> !a.c.Refuse?)
    ensures FailsRightly(Next(s, a))
  {
    if a.Work? {
      var w, c := a.w, a.c;
      if s.workers[w].Take? {
        TakeFailsRightly(s, w, c);
      } else if s.workers[w].Test? && !s.paused && c.Data? {
        ParsedAppend(s.lim, FRESH, s.received, c.d);
      } else {
        OtherQuiet(s, w, c);
      }
    }
  }

  lemma {:induction false} RunSkims(s: State, acts: seq<Action>, s': State)
    requires Inv(s) && Skims(s) && FailsRightly(s) && Runs(s, acts, s') && NoRefusal(acts)
    ensures Inv(s') && Skims(s') && FailsRightly(s') && s'.lim == s.lim
    decreases acts
  {
    if acts != [] {
      var a := acts[0];
      NextKept(s, a);
      StepSkims(s, a);
      StepFailsRightly(s, a);
      SameLimits(s, a);
      RunSkims(Next(s, a), acts[1..], s');
    }
  }

  lemma SameLimits(s: State, a: Action)
    requires Enabled(s, a)
    ensures Next(s, a).lim == s.lim
  {
    if a.Work? { if s.workers[a.w].Take? { } else { } } else if a.PauseStep? { }
  }

  lemma InitSkims(s: State)
    requires Init(s)
    ensures Inv(s) && Skims(s) && FailsRightly(s)
  {
    InitInv(s);
  }

  /** Whatever the schedule of reads, pauses and resumptions, also after a bad header:
      nothing is delivered but what the received bytes give if rejected headers are
      skipped, in that order. */
  lemma NothingElseDelivered(s: State, acts: seq<Action>, s': State)
    requires Init(s) && Runs(s, acts, s') && NoRefusal(acts)
    ensures s'.delivered <= Skimmed(s'.lim, FRESH, s'.received).packs
    ensures s'.info.Valid()
         && Skimmed(s'.lim, FRESH, s'.received) == Skimmed(s'.lim, s'.info, s'.buffer).Before(s'.delivered)
  {
    InitSkims(s);
    RunSkims(s, acts, s');
  }

  /** On a stream without a bad header nothing ever fails, no matter how the connection is
      paused, and what is delivered and unread re-parses to the one-shot parse. */
  lemma GoodStream(s: State, acts: seq<Action>, s': State)
    requires Init(s) && Runs(s, acts, s') && NoRefusal(acts) && !Parsed(s'.lim, FRESH, s'.received).bad
    ensures s'.failure.None? && !s'.entered && s'.info.Valid()
    ensures Parsed(s'.lim, FRESH, s'.received) == Parsed(s'.lim, s'.info, s'.buffer).Before(s'.delivered)
  {
    InitSkims(s);
    RunSkims(s, acts, s');
    PausesDoNotMatter(s, acts, s');
  }

  // ---------------------------------------------------------------- building runs

  lemma {:induction false} OneMore(s: State, acts: seq<Action>, mid: State, a: Action)
    requires Runs(s, acts, mid) && Enabled(mid, a)
    ensures Runs(s, acts + [a], Next(mid, a))
    decreases acts
  {
    if acts == [] {
      assert Runs(Next(s, a), [], Next(mid, a));
      assert [a][1..] == [];
    } else {
      OneMore(Next(s, acts[0]), acts[1..], mid, a);
      assert (acts + [a])[1..] == acts[1..] + [a];
    }
  }

  /** A step more, that is no refusal. */
  lemma Go(s: State, acts: seq<Action>, mid: State, a: Action) returns (acts': seq<Action>, s': State)
    requires Runs(s, acts, mid) && NoRefusal(acts) && Enabled(mid, a) && (a.Work? ==> !a.c.Refuse?)
    ensures s' == Next(mid, a) && Runs(s, acts', s') && NoRefusal(acts')
  {
    OneMore(s, acts, mid, a);
    acts', s' := acts + [a], Next(mid, a);
  }

  /** Free to start something: the lock, a thread, and a caller of PauseReceive. */
  predicate Ready(s: State, v: nat, p: nat) {
    s.lock.Free? && s.valid && v < |s.workers| && s.workers[v].Idle? && p < |s.pausers| && s.pausers[p].PIdle?
  }

  lemma Pause(s0: State, acts0: seq<Action>, s: State, p: nat) returns (acts: seq<Action>, s': State)
    requires Runs(s0, acts0, s) && NoRefusal(acts0) && s.valid && p < |s.pausers| && s.pausers[p].PIdle?
    ensures Runs(s0, acts, s') && NoRefusal(acts) && s' == s.(paused := true)
  {
    acts, s' := acts0, s;
    if !s.paused {
      acts, s' := Go(s0, acts, s', CallPause(p, true));
      acts, s' := Go(s0, acts, s', PauseStep(p));
      assert s'.pausers == s.pausers;
    }
  }

  lemma Resume(s0: State, acts0: seq<Action>, s: State, p: nat) returns (acts: seq<Action>, s': State)
    requires Runs(s0, acts0, s) && NoRefusal(acts0) && s.valid && s.paused && p < |s.pausers| && s.pausers[p].PIdle?
    ensures Runs(s0, acts, s') && NoRefusal(acts) && s' == s.(paused := false, cmds := s.cmds + 1)
  {
    acts, s' := Go(s0, acts0, s, CallPause(p, false));
    acts, s' := Go(s0, acts, s', PauseStep(p));
    acts, s' := Go(s0, acts, s', PauseStep(p));
    assert s'.pausers == s.pausers;
  }

  /** Pausing and resuming sends an unpause command; thread `v` starts parsing for it. */
  lemma Unpause(s0: State, acts0: seq<Action>, s: State, v: nat, p: nat) returns (acts: seq<Action>, s': State)
    requires Runs(s0, acts0, s) && NoRefusal(acts0) && Ready(s, v, p)
    ensures Runs(s0, acts, s') && NoRefusal(acts)
    ensures s' == s.(paused := false, lock := Held(v), workers := s.workers[v := Head(true)],
                     entered := s.entered || !s.failure.None?)
  {
    acts, s' := Pause(s0, acts0, s, p);
    acts, s' := Resume(s0, acts, s', p);
    acts, s' := Go(s0, acts, s', Command(v));
    acts, s' := Go(s0, acts, s', Work(v, Choice.Go));
    acts, s' := Go(s0, acts, s', Work(v, Choice.Go));
  }

  /** Thread `v` reads `d`; a pause in between keeps it from parsing. */
  lemma Receive(s0: State, acts0: seq<Action>, s: State, v: nat, p: nat, d: Item) returns (acts: seq<Action>, s': State)
    requires Runs(s0, acts0, s) && NoRefusal(acts0) && Ready(s, v, p) && !s.paused
    ensures Runs(s0, acts, s') && NoRefusal(acts)
    ensures s' == s.(paused := true, buffer := s.buffer + d, received := s.received + d,
                     entered := s.entered || !s.failure.None?)
  {
    var go := Work(v, Choice.Go);
    acts, s' := Go(s0, acts0, s, Event(v));
    acts, s' := Go(s0, acts, s', go);
    acts, s' := Go(s0, acts, s', CallPause(p, true));
    acts, s' := Go(s0, acts, s', Work(v, Data(d)));
    acts, s' := Go(s0, acts, s', PauseStep(p));
    acts, s' := Settle(s0, acts, s', v);
    assert s'.workers == s.workers && s'.pausers == s.pausers;
  }

  lemma Settle(s0: State, acts0: seq<Action>, s: State, v: nat) returns (acts: seq<Action>, s': State)
    requires Runs(s0, acts0, s) && NoRefusal(acts0) && s.paused && v < |s.workers| && s.workers[v] == Head(false)
    ensures Runs(s0, acts, s') && NoRefusal(acts)
    ensures s' == s.(lock := Free, workers := s.workers[v := Idle])
  {
    var go := Work(v, Choice.Go);
    acts, s' := Go(s0, acts0, s, go);
    if s'.workers[v].Flag? {
      acts, s' := Go(s0, acts, s', go);
    }
    acts, s' := Go(s0, acts, s', go);
    acts, s' := Go(s0, acts, s', go);
  }

  /** Idle threads, other than `w`. */
  ghost predicate Spare(s: State, w: nat, free: seq<nat>) {
    && (forall i | 0 <= i < |free| :: free[i] < |s.workers| && free[i] != w && s.workers[free[i]].Idle?)
    && (forall i, j | 0 <= i < j < |free| :: free[i] != free[j])
  }

  /** Thread `w` parses for an unpause command, nothing is paused. */
  ghost predicate Parses(s: State, w: nat, p: nat, free: seq<nat>) {
    && w < |s.workers| && s.workers[w] == Head(true) && s.lock == Held(w) && s.valid && !s.paused && s.info.Valid()
    && p < |s.pausers| && s.pausers[p].PIdle? && Spare(s, w, free)
  }

  /** Commands alone deliver all there is, one thread for each rejected header. */
  lemma {:induction false} Drains(s0: State, acts0: seq<Action>, s: State, w: nat, p: nat, free: seq<nat>)
      returns (acts: seq<Action>, s': State)
    requires Runs(s0, acts0, s) && NoRefusal(acts0) && Parses(s, w, p, free) && |free| >= Skips(s.lim, s.info, s.buffer)
    ensures Runs(s0, acts, s') && NoRefusal(acts) && s'.received == s.received && s'.lim == s.lim
    ensures s'.delivered == s.delivered + Skimmed(s.lim, s.info, s.buffer).packs
    decreases |s.buffer|
  {
    acts, s' := acts0, s;
    if |s.buffer| >= s.info.length {
      var go := Work(w, Choice.Go);
      acts, s' := Go(s0, acts, s', go);
      acts, s' := Go(s0, acts, s', go);
      assert s' == s.(workers := s.workers[w := Take(true)]);
      acts, s' := Go(s0, acts, s', go);
      TakenSkims(s, w, s');
      TakenFrame(s, w, s');
      var taken := s';
      if s'.lock.Free? {
        assert Spare(s', free[0], free[1..]);
        acts, s' := Unpause(s0, acts, s', free[0], p);
        acts, s' := Drains(s0, acts, s', free[0], p, free[1..]);
      } else {
        acts, s' := Drains(s0, acts, s', w, p, free);
      }
      assert s.delivered + Skimmed(s.lim, s.info, s.buffer).packs == taken.delivered + Skimmed(taken.lim, taken.info, taken.buffer).packs;
    }
  }

  /** The next piece, taken. */
  lemma TakenSkims(s: State, w: nat, s': State)
    requires w < |s.workers| && s.workers[w] == Head(true) && s.lock == Held(w) && s.info.Valid() && |s.buffer| >= s.info.length
    requires s' == TakeNext(s.(workers := s.workers[w := Take(true)]), w, true, Choice.Go)
    ensures s'.info.Valid() && |s'.buffer| < |s.buffer|
    ensures Skips(s.lim, s.info, s.buffer) == Skips(s'.lim, s'.info, s'.buffer) + if s'.lock.Free? then 1 else 0
    ensures s.delivered + Skimmed(s.lim, s.info, s.buffer).packs == s'.delivered + Skimmed(s'.lim, s'.info, s'.buffer).packs
    ensures s'.lim == s.lim
  {
    InfoStaysValid(s.(workers := s.workers[w := Take(true)]), w, true, Choice.Go);
    var chunk, rest := s.buffer[..s.info.length], s.buffer[s.info.length..];
    if !s.info.header {
      assert s.delivered + ([chunk] + Skimmed(s.lim, FRESH, rest).packs) == (s.delivered + [chunk]) + Skimmed(s.lim, FRESH, rest).packs;
    }
  }

  lemma TakenFrame(s: State, w: nat, s': State)
    requires w < |s.workers| && s.workers[w] == Head(true) && s.lock == Held(w) && s.info.Valid() && |s.buffer| >= s.info.length
    requires s' == TakeNext(s.(workers := s.workers[w := Take(true)]), w, true, Choice.Go)
    ensures s'.received == s.received && s'.valid == s.valid && s'.paused == s.paused && s'.pausers == s.pausers
    ensures (s'.lock == s.lock && s'.workers == s.workers) || (s'.lock.Free? && s'.workers == s.workers[w := FreeUnheld])
  {
  }

  // ---------------------------------------------------------------- which streams

  function Begin(lim: Limits, threads: nat): State {
    State(lim, Free, true, false, FRESH, [], 0, seq(threads, _ => Idle), [PIdle], [], [], None, false)
  }

  lemma Received(lim: Limits, threads: nat, received: Item) returns (acts: seq<Action>, s': State)
    requires threads > 0
    ensures Runs(Begin(lim, threads), acts, s') && NoRefusal(acts)
    ensures s' == Begin(lim, threads).(paused := true, buffer := received, received := received)
  {
    var s := Begin(lim, threads);
    acts, s' := Receive(s, [], s, 0, 0, received);
    assert [] + received == received;
  }

  /** Some schedule receives these bytes and delivers everything they can give. */
  lemma AllCanBeDelivered(lim: Limits, received: Item) returns (s: State, acts: seq<Action>, s': State)
    ensures Init(s) && s.lim == lim && Runs(s, acts, s') && NoRefusal(acts)
    ensures s'.received == received && s'.delivered == Skimmed(lim, FRESH, received).packs
  {
    var skips := Skips(lim, FRESH, received);
    var free := seq(skips, i requires 0 <= i < skips => i + 1);
    s := Begin(lim, skips + 1);
    acts, s' := Received(lim, skips + 1, received);
    acts, s' := Unpause(s, acts, s', 0, 0);
    assert Parses(s', 0, 0, free);
    acts, s' := Drains(s, acts, s', 0, 0, free);
  }

  /** Some schedule of reads, pauses and resumptions, with some number of threads, receives
      these bytes and delivers more than, or other than, their one-shot parse. */
  ghost predicate CanDiffer(lim: Limits, received: Item) {
    exists s: State, acts, s' ::
      Init(s) && s.lim == lim && Runs(s, acts, s') && NoRefusal(acts) && s'.received == received
      && !(s'.delivered <= Parsed(lim, FRESH, received).packs)
  }

  /** Pausing can change what is delivered exactly for the streams in which the bytes after
      the first bad header, parsed on, give a packet. */
  lemma PausesMatterIff(lim: Limits, received: Item)
    ensures var r := Parsed(lim, FRESH, received);
      CanDiffer(lim, received) <==> r.bad && Skimmed(lim, FRESH, r.rest).packs != []
  {
    SkimsMoreIff(lim, received);
    if Skimmed(lim, FRESH, received).packs != Parsed(lim, FRESH, received).packs {
      var s, acts, s' := AllCanBeDelivered(lim, received);
    } else if CanDiffer(lim, received) {
      var s: State, acts, s' :|
        Init(s) && s.lim == lim && Runs(s, acts, s') && NoRefusal(acts) && s'.received == received
        && !(s'.delivered <= Parsed(lim, FRESH, received).packs);
      InitSkims(s);
      RunSkims(s, acts, s');
      NothingElseDelivered(s, acts, s');
    }
  }

  // ---------------------------------------------------------------- which states

  predicate ByCommand(f: Failure) { !f.None? && f.cmd }

  ghost predicate SomeoneWillClose(s: State) { exists w | 0 <= w < |s.workers| :: s.workers[w].FreeUnheld? }

  /** A connection that is valid after a failure found by an unpause command is about to be
      closed by the thread that found it; until it is entered again, only another unpause
      command can hold its lock. */
  ghost predicate Pending(s: State) {
    s.valid ==>
      && (SomeoneWillClose(s) <==> ByCommand(s.failure))
      && (ByCommand(s.failure) && !s.entered ==> forall w | 0 <= w < |s.workers| && HoldsIo(s.workers[w]) :: s.workers[w].CmdIn?)
  }

  lemma WorkPending(s: State, w: nat, c: Choice)
    requires Inv(s) && Pending(s) && Enabled(s, Work(w, c)) && WorkNext(s, w, c).valid
    ensures Pending(WorkNext(s, w, c))
  {
    var s' := WorkNext(s, w, c);
    assert WorkerOk(s, w);
    WorkMoves(s, w, c);
    if v :| 0 <= v < |s.workers| && s.workers[v].FreeUnheld? { assert s'.workers[v].FreeUnheld?; }
    if ByCommand(s'.failure) && !ByCommand(s.failure) { assert s'.workers[w].FreeUnheld?; }
    forall v | 0 <= v < |s'.workers| && HoldsIo(s'.workers[v]) && ByCommand(s'.failure) && !s'.entered ensures s'.workers[v].CmdIn? {
      assert WorkerOk(s, v);
    }
  }

  /** What a step that keeps the connection valid does to failures. */
  predicate Moves(s: State, w: nat, s': State)
    requires w < |s.workers| && |s'.workers| == |s.workers|
  {
    var x, x' := s.workers[w], s'.workers[w];
    && s.valid && s'.workers == s.workers[w := x'] && !x.FreeUnheld?
    && (s'.failure == s.failure || (s.failure.None? && s.lock == Held(w)))
    && (x'.FreeUnheld? ==> ByCommand(s'.failure))
    && (ByCommand(s'.failure) && !ByCommand(s.failure) ==> x'.FreeUnheld?)
    && (s.entered ==> s'.entered)
    && (ByCommand(s.failure) && !s'.entered && HoldsIo(x') && (x.CmdIn? || !HoldsIo(x)) ==> x'.CmdIn?)
  }

  lemma WorkMoves(s: State, w: nat, c: Choice)
    requires Enabled(s, Work(w, c)) && WorkerOk(s, w) && WorkNext(s, w, c).valid
    ensures Moves(s, w, WorkNext(s, w, c))
  {
    if s.workers[w].Take? { TakeMoves(s, w, c); } else { OtherMoves(s, w, c); }
  }

  lemma TakeMoves(s: State, w: nat, c: Choice)
    requires Enabled(s, Work(w, c)) && WorkerOk(s, w) && s.workers[w].Take? && s.valid
    ensures Moves(s, w, WorkNext(s, w, c))
  {
  }

  lemma OtherMoves(s: State, w: nat, c: Choice)
    requires Enabled(s, Work(w, c)) && WorkerOk(s, w) && !s.workers[w].Take? && WorkNext(s, w, c).valid
    ensures Moves(s, w, WorkNext(s, w, c))
  {
    match s.workers[w]
    case WantIo =>
    case Test =>
    case Head(_) =>
    case Flag(_) =>
    case CmdIn =>
    case _ =>
  }

  lemma NextPending(s: State, a: Action)
    requires Inv(s) && Pending(s) && Enabled(s, a)
    ensures Pending(Next(s, a))
  {
    var s' := Next(s, a);
    if s'.valid {
      if a.Work? {
        WorkPending(s, a.w, a.c);
      } else {
        if v :| 0 <= v < |s.workers| && s.workers[v].FreeUnheld? { assert s'.workers[v].FreeUnheld?; }
      }
    }
  }

  lemma {:induction false} RunPending(s: State, acts: seq<Action>, s': State)
    requires Inv(s) && Pending(s) && Runs(s, acts, s')
    ensures Pending(s')
    decreases acts
  {
    if acts != [] {
      NextKept(s, acts[0]);
      NextPending(s, acts[0]);
      RunPending(Next(s, acts[0]), acts[1..], s');
    }
  }

  /** The first failure stays on record. */
  lemma {:induction false} RunKeepsFailure(s: State, acts: seq<Action>, s': State)
    requires !s.failure.None? && Runs(s, acts, s')
    ensures s'.failure == s.failure
    decreases acts
  {
    if acts != [] {
      StepKeepsFailure(s, acts[0]);
      RunKeepsFailure(Next(s, acts[0]), acts[1..], s');
    }
  }

  lemma StepKeepsFailure(s: State, a: Action)
    requires !s.failure.None? && Enabled(s, a)
    ensures Next(s, a).failure == s.failure
  {
    if a.Work? { if s.workers[a.w].Take? { } else { } } else if a.PauseStep? { }
  }

  /** Some continuation delivers something that the one-shot parse does not. */
  ghost predicate CanGoOn(s: State) {
    exists acts, s' :: Runs(s, acts, s') && NoRefusal(acts) && !(s'.delivered <= Parsed(s'.lim, FRESH, s'.received).packs)
  }

  /** The lock is left, or was free; the connection is paused then. */
  lemma Leaves(s: State, p: nat) returns (acts: seq<Action>, s': State)
    requires Inv(s) && Pending(s) && s.valid && ByCommand(s.failure) && !s.entered && p < |s.pausers| && s.pausers[p].PIdle?
    ensures Runs(s, acts, s') && NoRefusal(acts) && s'.lock.Free? && s'.paused
    ensures s' == s.(lock := Free, paused := true, workers := s'.workers) && |s'.workers| == |s.workers|
    ensures forall v | 0 <= v < |s.workers| && s.workers[v].Idle? :: s'.workers[v].Idle?
  {
    acts, s' := Pause(s, [], s, p);
    if s.lock.Held? {
      var u := s.lock.w;
      assert WorkerOk(s, u) && HoldsIo(s.workers[u]);
      acts, s' := Go(s, acts, s', Work(u, Choice.Go));
    }
  }

  /** After a bad header, while the connection is still valid, and with threads free (two
      more than rejected headers are unread, and one to pause and resume): more can still be
      delivered exactly if a thread that found the header for an unpause command stands
      between the release of csIo and AddFreeSocketObj. In the run a read comes in between;
      EPOLLIN can be registered then, because the flag is clear already and any other thread
      that leaves OnAfterProcessIo, after a send command for instance, registers it. */
  lemma GoesOnIff(s0: State, before: seq<Action>, s: State, p: nat, free: seq<nat>)
    requires Init(s0) && s0.lim.Valid() && Runs(s0, before, s) && NoRefusal(before)
    requires s.valid && s.failure.BadHeader? && !s.entered
    requires p < |s.pausers| && s.pausers[p].PIdle? && Spare(s, |s.workers|, free)
    requires s.info.Valid() ==> |free| >= Skips(s.lim, s.info, s.buffer) + 2
    ensures CanGoOn(s) <==> SomeoneWillClose(s)
  {
    InitSkims(s0);
    RunSkims(s0, before, s);
    RunPending(s0, before, s);
    if ByCommand(s.failure) {
      Delivers(s, p, free);
    } else if CanGoOn(s) {
      var acts, s' :| Runs(s, acts, s') && NoRefusal(acts) && !(s'.delivered <= Parsed(s'.lim, FRESH, s'.received).packs);
      RunKeepsFailure(s, acts, s');
      RunSkims(s, acts, s');
    }
  }

  lemma Delivers(s: State, p: nat, free: seq<nat>)
    requires Inv(s) && Skims(s) && FailsRightly(s) && Pending(s) && s.lim.Valid()
    requires s.valid && ByCommand(s.failure) && !s.entered
    requires p < |s.pausers| && s.pausers[p].PIdle? && Spare(s, |s.workers|, free)
    requires |free| >= Skips(s.lim, s.info, s.buffer) + 2
    ensures CanGoOn(s)
  {
    var later := SomePacket(s.lim, s.info, s.buffer);
    var acts, s' := Leaves(s, p);
    acts, s' := Resume(s, acts, s', p);
    acts, s' := Receive(s, acts, s', free[0], p, later);
    acts, s' := Unpause(s, acts, s', free[0], p);
    assert Parses(s', free[0], p, free[1..]);
    acts, s' := Drains(s, acts, s', free[0], p, free[1..]);
    ParsedAppend(s.lim, FRESH, s.received, later);
    assert s'.received == s.received + later;
    assert s.delivered == Parsed(s.lim, FRESH, s'.received).packs;
  }

  // ---------------------------------------------------------------- an example

  const ZEROES: Item := [0, 0, 0, 0]
  const LATER: Item := [1, 0, 0, 0, 7]

  /** For instance: a header that announces nothing, and then a frame of one byte. */
  lemma LateDelivery() returns (s: State, acts: seq<Action>, s': State)
    ensures Init(s) && s.lim == Limits(10, 0) && Runs(s, acts, s') && NoRefusal(acts) && s'.received == ZEROES + LATER
    ensures var whole := Parsed(s.lim, FRESH, s'.received); whole.bad && whole.packs == [] && s'.delivered == [[7]]
  {
    var lim, all := Limits(10, 0), ZEROES + LATER;
    s, acts, s' := AllCanBeDelivered(lim, all);
    assert all[..4] == ZEROES && all[4..] == LATER && Get(ZEROES) == 0 && LengthOf(0) == 0;
    assert LATER[..4] == [1, 0, 0, 0] && LATER[4..] == [7] && Get(LATER[..4]) == 1;
    LengthIsRemainder(1);
    assert [7][..1] == [7] && [7][1..] == [];
    assert Skimmed(lim, FRESH, []).packs == [];
    assert Skimmed(lim, Info(false, 1), [7]).packs == [[7]];
    assert Skimmed(lim, FRESH, LATER).packs == [[7]];
  }
}

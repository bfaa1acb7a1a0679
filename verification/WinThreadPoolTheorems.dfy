/** The counter against the number of tasks in flight. */
module WinThreadPoolTheorems {
  import opened WinThreadPool

  // ---------------------------------------------------------------- sums

  lemma ReservedUpdate(xs: seq<Submitter>, k: nat, x: Submitter)
    requires k < |xs|
    ensures Reserved(xs[k := x]) == Reserved(xs) - Reserves(xs[k]) + Reserves(x)
  {
    if k == 0 {
      assert xs[0 := x][1..] == xs[1..];
    } else {
      assert xs[k := x][1..] == xs[1..][k - 1 := x];
      ReservedUpdate(xs[1..], k - 1, x);
    }
  }

  lemma PoppedUpdate(ws: seq<Worker>, w: nat, x: Worker)
    requires w < |ws|
    ensures Popped(ws[w := x]) == Popped(ws) - (if ws[w].WPopped? then 1 else 0) + (if x.WPopped? then 1 else 0)
  {
    if w == 0 {
      assert ws[0 := x][1..] == ws[1..];
    } else {
      assert ws[w := x][1..] == ws[1..][w - 1 := x];
      PoppedUpdate(ws[1..], w - 1, x);
    }
  }

  lemma NoneReserved(xs: seq<Submitter>)
    requires forall k | 0 <= k < |xs| :: xs[k].SIdle?
    ensures Reserved(xs) == 0
  {
    if xs != [] { NoneReserved(xs[1..]); }
  }

  lemma NonePopped(ws: seq<Worker>)
    requires forall w | 0 <= w < |ws| :: ws[w].WIdle?
    ensures Popped(ws) == 0
  {
    if ws != [] { NonePopped(ws[1..]); }
  }

  // ---------------------------------------------------------------- the drift

  /** How far the counter is ahead of what it should count, modulo 2^32. */
  function Drift(s: State): int { (s.cur - InFlight(s) - s.dropped) % DWORD }

  predicate Resets(s: State, a: Action) { a.Manage? && s.manager.MResetSize? }

  ghost predicate NoReset(s: State, acts: seq<Action>)
    decreases acts
  {
    acts == [] || (Enabled(s, acts[0]) && !Resets(s, acts[0]) && NoReset(Next(s, acts[0]), acts[1..]))
  }

  /** One more, or one less, modulo 2^32. */
  lemma Wraps(c: nat, n: int)
    ensures (Inc(c) - (n + 1)) % DWORD == (c - n) % DWORD == (Dec(c) - (n - 1)) % DWORD
  {
    if c + 1 == DWORD {
      assert Inc(c) - (n + 1) == (c - n) - DWORD;
      ModPlus(c - n - DWORD);
    }
    if c == 0 {
      assert Dec(c) - (n - 1) == (c - n) + DWORD;
      ModPlus(c - n);
    }
  }

  lemma ModPlus(x: int)
    ensures (x + DWORD) % DWORD == x % DWORD
  {
  }

  lemma SubmitDrift(s: State, k: nat, posted: bool, t: nat)
    requires k < |s.submitters|
    ensures Drift(SubmitterNext(s, k, posted, t)) == Drift(s)
  {
    var s' := SubmitterNext(s, k, posted, t);
    ReservedUpdate(s.submitters, k, s'.submitters[k]);
    Wraps(s.cur, InFlight(s) + s.dropped);
    SubmitCounts(s, k, posted, t);
  }

  /** The counter moves with the number in flight. */
  lemma SubmitCounts(s: State, k: nat, posted: bool, t: nat)
    requires k < |s.submitters|
    ensures var s' := SubmitterNext(s, k, posted, t); var d := InFlight(s') - InFlight(s);
      && s'.dropped == s.dropped
      && ((d == 0 && s'.cur == s.cur) || (d == 1 && s'.cur == Inc(s.cur)) || (d == -1 && s'.cur == Dec(s.cur)))
  {
    ReservedUpdate(s.submitters, k, SubmitterNext(s, k, posted, t).submitters[k]);
    match s.submitters[k]
    case SUnlimited =>
    case STry(_) =>
    case SReserved =>
    case SRefused =>
    case _ =>
  }

  lemma WorkCounts(s: State, w: nat)
    requires w < |s.workers|
    ensures var s' := WorkerNext(s, w); var d := InFlight(s') - InFlight(s);
      && s'.dropped == s.dropped
      && ((d == 0 && s'.cur == s.cur) || (d == -1 && s'.cur == Dec(s.cur)))
  {
    PoppedUpdate(s.workers, w, WorkerNext(s, w).workers[w]);
  }

  lemma WorkDrift(s: State, w: nat)
    requires w < |s.workers|
    ensures Drift(WorkerNext(s, w)) == Drift(s)
  {
    Wraps(s.cur, InFlight(s) + s.dropped);
    WorkCounts(s, w);
  }

  /** Every step but the one that sets the counter to 0 keeps the drift. */
  lemma DriftKept(s: State, a: Action)
    requires Enabled(s, a) && !Resets(s, a)
    ensures Drift(Next(s, a)) == Drift(s)
  {
    match a
    case Submit(k) => ReservedUpdate(s.submitters, k, SStarted);
    case SubmitStep(k, posted, t) => SubmitDrift(s, k, posted, t);
    case Work(w) => WorkDrift(s, w);
    case _ =>
  }

  lemma {:induction false} RunDrift(s: State, acts: seq<Action>, s': State)
    requires Runs(s, acts, s') && NoReset(s, acts)
    ensures Drift(s') == Drift(s)
    decreases acts
  {
    if acts != [] {
      DriftKept(s, acts[0]);
      RunDrift(Next(s, acts[0]), acts[1..], s');
    }
  }

  /** A closed queue is empty, and no worker holds a task. */
  ghost predicate Closed(s: State) {
    && (!s.open ==> s.queue == [] && forall w | 0 <= w < |s.workers| :: s.workers[w].WIdle?)
    && (s.manager.MResetSize? || s.manager.MResetMax? || s.manager.MResetState? ==> !s.open)
  }

  lemma {:induction false} RunClosed(s: State, acts: seq<Action>, s': State)
    requires Closed(s) && Runs(s, acts, s')
    ensures Closed(s')
    decreases acts
  {
    if acts != [] {
      RunClosed(Next(s, acts[0]), acts[1..], s');
    }
  }

  /** Until the next Reset, the counter is the number of tasks in flight (with those the
      closed queue has dropped) exactly when the last Reset found no Submit between raising
      the counter and posting its task. */
  lemma ResetDecides(s0: State, before: seq<Action>, s: State, after: seq<Action>, s': State)
    requires Init(s0) && Runs(s0, before, s) && s.manager.MResetSize?
    requires Runs(Next(s, Manage), after, s') && NoReset(Next(s, Manage), after)
    requires |s.submitters| < DWORD
    ensures s'.cur % DWORD == (InFlight(s') + s'.dropped) % DWORD <==> Reserved(s.submitters) == 0
  {
    var s1 := Next(s, Manage);
    RunClosed(s0, before, s);
    NonePopped(s.workers);
    ReservedBound(s.submitters);
    RunDrift(s1, after, s');
    assert Drift(s1) == (0 - Reserved(s.submitters)) % DWORD;
    assert Drift(s') == 0 <==> Reserved(s.submitters) == 0;
  }

  lemma ReservedBound(xs: seq<Submitter>)
    ensures Reserved(xs) <= |xs|
  {
    if xs != [] { ReservedBound(xs[1..]); }
  }

  // ---------------------------------------------------------------- clean restarts

  /** No Submit call is in progress when the counter is reset. */
  ghost predicate CleanRestarts(s: State, acts: seq<Action>)
    decreases acts
  {
    acts == [] || (
      && Enabled(s, acts[0])
      && (Resets(s, acts[0]) ==> forall k | 0 <= k < |s.submitters| :: s.submitters[k].SIdle?)
      && CleanRestarts(Next(s, acts[0]), acts[1..]))
  }

  predicate BetweenCycles(s: State) {
    s.manager.MResetMax? || s.manager.MResetState? || s.manager.MStart? || s.st.Stopped?
  }

  predicate SubmitterOk(s: State, k: nat)
    requires k < |s.submitters|
  {
    var x := s.submitters[k];
    && (x.SUnlimited? ==> s.max == 0)
    && (x.SLoop? || x.SRead? || x.STry? || x.SMissed? || x.SAgain? ==> s.max > 0)
    && (x.STry? ==> x.q < s.max)
    && (BetweenCycles(s) ==> x.SIdle?)
  }

  ghost predicate Inv(s: State) {
    && Closed(s) && s.max < DWORD && s.cur < DWORD
    && Drift(s) == 0
    && (s.max > 0 ==> InFlight(s) + s.dropped <= s.max)
    && (s.dropped > 0 ==> s.manager.MResetSize?)
    && (BetweenCycles(s) ==> InFlight(s) == 0 && !s.open)
    && (s.st.Stopped? || s.st.Started? ==> s.manager.MIdle?)
    && (s.manager.MIdle? ==> s.st.Stopped? || s.st.Started?)
    && (forall k | 0 <= k < |s.submitters| :: SubmitterOk(s, k))
  }

  lemma InitInv(s: State)
    requires Init(s)
    ensures Inv(s)
  {
    NoneReserved(s.submitters);
    NonePopped(s.workers);
  }

  lemma SubmitKept(s: State, k: nat, posted: bool, t: nat)
    requires Inv(s) && Enabled(s, SubmitStep(k, posted, t))
    ensures Inv(SubmitterNext(s, k, posted, t))
  {
    var s' := SubmitterNext(s, k, posted, t);
    assert SubmitterOk(s, k);
    SubmitDrift(s, k, posted, t);
    SubmitLocal(s, k, posted, t);
    SubmitLimit(s, k, posted, t);
    forall j | 0 <= j < |s'.submitters| ensures SubmitterOk(s', j) { assert SubmitterOk(s, j); }
  }

  lemma SubmitLimit(s: State, k: nat, posted: bool, t: nat)
    requires Inv(s) && Enabled(s, SubmitStep(k, posted, t)) && SubmitterOk(s, k)
    ensures var s' := SubmitterNext(s, k, posted, t);
      s.max > 0 ==> InFlight(s') + s.dropped <= s.max
  {
    if s.max > 0 {
      CounterExact(s);
      ReservedUpdate(s.submitters, k, SubmitterNext(s, k, posted, t).submitters[k]);
    }
  }

  lemma SubmitLocal(s: State, k: nat, posted: bool, t: nat)
    requires Enabled(s, SubmitStep(k, posted, t)) && SubmitterOk(s, k) && s.cur < DWORD
    ensures var s' := SubmitterNext(s, k, posted, t);
      && s'.cur < DWORD && s'.max == s.max && SubmitterOk(s', k) && s'.submitters == s.submitters[k := s'.submitters[k]]
      && s'.st == s.st && s'.manager == s.manager && s'.workers == s.workers && s'.dropped == s.dropped
      && s'.open == s.open && (!s.open ==> s'.queue == s.queue)
  {
  }

  lemma CounterExact(s: State)
    requires Inv(s) && s.max > 0
    ensures s.cur == InFlight(s) + s.dropped
  {
    SmallMod(s.cur, InFlight(s) + s.dropped);
  }

  lemma SmallMod(x: nat, y: nat)
    requires x < DWORD && y < DWORD && (x - y) % DWORD == 0
    ensures x == y
  {
  }

  lemma WorkKept(s: State, w: nat)
    requires Inv(s) && Enabled(s, Work(w))
    ensures Inv(WorkerNext(s, w))
  {
    var s' := WorkerNext(s, w);
    WorkDrift(s, w);
    WorkCounts(s, w);
    forall j | 0 <= j < |s'.submitters| ensures SubmitterOk(s', j) { assert SubmitterOk(s, j); }
  }

  lemma ManageKept(s: State)
    requires Inv(s) && Enabled(s, Manage)
    requires s.manager.MResetSize? ==> forall k | 0 <= k < |s.submitters| :: s.submitters[k].SIdle?
    ensures Inv(ManagerNext(s))
  {
    var s' := ManagerNext(s);
    if s.manager.MResetSize? { NoneReserved(s.submitters); }
    if s.manager.MResetSize? || s.manager.MStop? { NonePopped(s.workers); }
    forall j | 0 <= j < |s'.submitters| ensures SubmitterOk(s', j) { assert SubmitterOk(s, j); }
  }

  lemma NextKept(s: State, a: Action)
    requires Inv(s) && Enabled(s, a)
    requires Resets(s, a) ==> forall k | 0 <= k < |s.submitters| :: s.submitters[k].SIdle?
    ensures Inv(Next(s, a))
  {
    match a
    case SubmitStep(k, posted, t) => SubmitKept(s, k, posted, t);
    case Work(w) => WorkKept(s, w);
    case Manage => ManageKept(s);
    case Submit(k) => CallKept(s, a);
    case _ => CallKept(s, a);
  }

  lemma CallKept(s: State, a: Action)
    requires Inv(s) && Enabled(s, a) && (a.Submit? || a.CallStart? || a.CallStop?)
    ensures Inv(Next(s, a))
  {
    var s' := Next(s, a);
    if a.Submit? { ReservedUpdate(s.submitters, a.k, SStarted); assert SubmitterOk(s, a.k); }
    forall j | 0 <= j < |s'.submitters| ensures SubmitterOk(s', j) { assert SubmitterOk(s, j); }
  }

  lemma {:induction false} RunKeepsInv(s: State, acts: seq<Action>, s': State)
    requires Inv(s) && Runs(s, acts, s') && CleanRestarts(s, acts)
    ensures Inv(s')
    decreases acts
  {
    if acts != [] {
      NextKept(s, acts[0]);
      RunKeepsInv(Next(s, acts[0]), acts[1..], s');
    }
  }

  // ---------------------------------------------------------------- main results

  /** If no Submit is in progress at a Reset: in every state the counter is the number of
      tasks in flight (with those a closed queue has dropped), never above the limit, and
      what is about to lower it finds it above 0. */
  lemma CounterCounts(s: State, acts: seq<Action>, s': State)
    requires Init(s) && Runs(s, acts, s') && CleanRestarts(s, acts)
    ensures s'.cur == (InFlight(s') + s'.dropped) % DWORD
    ensures s'.max > 0 ==> s'.cur == InFlight(s') + s'.dropped <= s'.max
    ensures s'.open ==> s'.dropped == 0
    ensures s'.max > 0 && (exists k | 0 <= k < |s'.submitters| :: s'.submitters[k].SRefused?) ==> s'.cur > 0
    ensures s'.max > 0 && (exists w | 0 <= w < |s'.workers| :: s'.workers[w].WPopped?) ==> s'.cur > 0
  {
    InitInv(s);
    RunKeepsInv(s, acts, s');
    if k :| 0 <= k < |s'.submitters| && s'.submitters[k].SRefused? {
      ReservedUpdate(s'.submitters, k, SIdle);
    }
    if w :| 0 <= w < |s'.workers| && s'.workers[w].WPopped? {
      PoppedUpdate(s'.workers, w, WIdle);
    }
  }

  /** The compare-and-swap loop refines an atomic bounded queue: each step of a submitter
      or worker is one step of it, admission and refusal decided on the number really in
      flight at that moment. */
  lemma LoopIsAtomic(s: State, acts: seq<Action>, s': State, a: Action)
    requires Init(s) && Runs(s, acts, s') && CleanRestarts(s, acts)
    requires Enabled(s', a) && (a.Submit? || a.SubmitStep? || a.Work?) && s'.dropped == 0
    ensures Atomic(Abstract(s'), EventOf(s', a), Abstract(Next(s', a)))
  {
    InitInv(s);
    RunKeepsInv(s, acts, s');
    match a
    case Submit(k) => ReservedUpdate(s'.submitters, k, SStarted);
    case SubmitStep(k, posted, t) => SubmitIsAtomic(s', k, posted, t);
    case Work(w) => PoppedUpdate(s'.workers, w, WorkerNext(s', w).workers[w]);
  }

  lemma SubmitIsAtomic(s: State, k: nat, posted: bool, t: nat)
    requires Inv(s) && Enabled(s, SubmitStep(k, posted, t)) && s.dropped == 0
    ensures Atomic(Abstract(s), EventOf(s, SubmitStep(k, posted, t)), Abstract(SubmitterNext(s, k, posted, t)))
  {
    assert SubmitterOk(s, k);
    if s.max > 0 { CounterExact(s); }
    if s.submitters[k].SUnlimited? || s.submitters[k].SLoop? || s.submitters[k].STry? {
      Decides(s, k, posted, t);
    } else {
      Follows(s, k, posted, t);
    }
  }

  lemma Decides(s: State, k: nat, posted: bool, t: nat)
    requires Enabled(s, SubmitStep(k, posted, t)) && SubmitterOk(s, k) && (s.max > 0 ==> s.cur == InFlight(s))
    requires s.submitters[k].SUnlimited? || s.submitters[k].SLoop? || s.submitters[k].STry?
    ensures Atomic(Abstract(s), EventOf(s, SubmitStep(k, posted, t)), Abstract(SubmitterNext(s, k, posted, t)))
  {
    ReservedUpdate(s.submitters, k, SubmitterNext(s, k, posted, t).submitters[k]);
  }

  lemma Follows(s: State, k: nat, posted: bool, t: nat)
    requires Enabled(s, SubmitStep(k, posted, t)) && SubmitterOk(s, k)
    requires !s.submitters[k].SUnlimited? && !s.submitters[k].SLoop? && !s.submitters[k].STry?
    ensures Atomic(Abstract(s), EventOf(s, SubmitStep(k, posted, t)), Abstract(SubmitterNext(s, k, posted, t)))
  {
    ReservedUpdate(s.submitters, k, SubmitterNext(s, k, posted, t).submitters[k]);
  }

  /** The limit a submitter compares with does not change while it is in DirectSubmit, so
      the comparison made after the counter was read agrees with the decision made then. */
  lemma LimitStands(s: State, acts: seq<Action>, s': State, a: Action, k: nat)
    requires Init(s) && Runs(s, acts, s') && CleanRestarts(s, acts) && CleanRestarts(s', [a])
    requires k < |s'.submitters| && !s'.submitters[k].SIdle?
    ensures Next(s', a).max == s'.max
  {
    InitInv(s);
    RunKeepsInv(s, acts, s');
    assert SubmitterOk(s', k);
  }

  // ---------------------------------------------------------------- the underflow

  /** A bounded pool whose counter is 2^32 - 1 with nothing in flight. */
  ghost predicate Stuck(s: State) {
    && s.st.Started? && s.manager.MIdle? && 0 < s.max < DWORD && s.cur == DWORD - 1 && s.queue == []
    && (forall w | 0 <= w < |s.workers| :: !s.workers[w].WPopped?)
    && forall k | 0 <= k < |s.submitters| ::
         var x := s.submitters[k];
         x.SIdle? || x.SStarted? || x.SLoop? || (x.SRead? && x.q == DWORD - 1)
  }

  lemma StuckStays(s: State, a: Action)
    requires Stuck(s) && Enabled(s, a) && !a.CallStop?
    ensures Stuck(Next(s, a)) && EventOf(s, a) != Admit
  {
  }

  /** Such a pool refuses every task until it is stopped. */
  lemma {:induction false} StuckRefusesAll(s: State, acts: seq<Action>, s': State)
    requires Stuck(s) && Runs(s, acts, s') && forall i | 0 <= i < |acts| :: !acts[i].CallStop?
    ensures Stuck(s')
    decreases acts
  {
    if acts != [] {
      StuckStays(s, acts[0]);
      StuckRefusesAll(Next(s, acts[0]), acts[1..], s');
    }
  }

  const FRESH := State(Stopped, 0, 0, false, [], [SIdle], [], MIdle, 0)
  const HELD := FRESH.(st := Started, max := 1, cur := 1, open := true, submitters := [SReserved])
  const RESET := FRESH.(submitters := [SReserved])

  lemma StepFirst(s: State, a: Action, acts: seq<Action>, s': State)
    requires Enabled(s, a) && Runs(Next(s, a), acts, s')
    ensures Runs(s, [a] + acts, s')
  {
    assert ([a] + acts)[1..] == acts;
  }

  lemma {:induction false} RunsAppend(s: State, acts: seq<Action>, mid: State, more: seq<Action>, s': State)
    requires Runs(s, acts, mid) && Runs(mid, more, s')
    ensures Runs(s, acts + more, s')
    decreases acts
  {
    if acts == [] {
      assert acts + more == more;
    } else {
      RunsAppend(Next(s, acts[0]), acts[1..], mid, more, s');
      assert (acts + more)[1..] == acts[1..] + more;
    }
  }

  /** Start, and a Submit as far as its reservation. */
  lemma UpToReservation() returns (acts: seq<Action>)
    ensures Runs(FRESH, acts, HELD)
  {
    var step := SubmitStep(0, false, 0);
    var s1 := Next(Next(FRESH, CallStart(1)), Manage);
    var s2 := Next(s1, Submit(0));
    var s3 := Next(s2, step);
    var s4 := Next(s3, step);
    var s5 := Next(s4, step);
    assert Next(s5, step) == HELD;
    StepFirst(s5, step, [], HELD);
    StepFirst(s4, step, [step], HELD);
    StepFirst(s3, step, [step] + [step], HELD);
    acts := [step] + ([step] + [step]);
    StepFirst(s2, step, acts, HELD);
    acts := [step] + acts;
    StepFirst(s1, Submit(0), acts, HELD);
    acts := [Submit(0)] + acts;
    StepFirst(Next(FRESH, CallStart(1)), Manage, acts, HELD);
    acts := [Manage] + acts;
    StepFirst(FRESH, CallStart(1), acts, HELD);
    acts := [CallStart(1)] + acts;
  }

  /** Stop, all of it. */
  lemma StopAndReset() returns (acts: seq<Action>)
    ensures Runs(HELD, acts, RESET)
  {
    var s1 := Next(HELD, CallStop);
    var s2 := Next(s1, Manage);
    var s3 := Next(s2, Manage);
    var s4 := Next(s3, Manage);
    assert Next(s4, Manage) == RESET;
    StepFirst(s4, Manage, [], RESET);
    StepFirst(s3, Manage, [Manage], RESET);
    StepFirst(s2, Manage, [Manage] + [Manage], RESET);
    acts := [Manage] + ([Manage] + [Manage]);
    StepFirst(s1, Manage, acts, RESET);
    acts := [Manage] + acts;
    StepFirst(HELD, CallStop, acts, RESET);
    acts := [CallStop] + acts;
  }

  /** The post fails, the counter is lowered below 0, and the pool is started again. */
  lemma LateRefusal() returns (acts: seq<Action>, s': State)
    ensures Runs(RESET, acts, s') && Stuck(s') && InFlight(s') == 0
  {
    var step := SubmitStep(0, false, 0);
    var s1 := Next(RESET, step);
    var s2 := Next(s1, step);
    var s3 := Next(s2, CallStart(1));
    s' := Next(s3, Manage);
    StepFirst(s3, Manage, [], s');
    StepFirst(s2, CallStart(1), [Manage], s');
    StepFirst(s1, step, [CallStart(1)] + [Manage], s');
    acts := [step] + ([CallStart(1)] + [Manage]);
    StepFirst(RESET, step, acts, s');
    acts := [step] + acts;
    NoneReserved(s'.submitters);
  }

  /** Without the condition the counter can drop below 0, and the restarted pool refuses
      every task although nothing is in flight. */
  lemma UnderflowBlocksThePool() returns (acts: seq<Action>, s': State)
    ensures Init(FRESH) && Runs(FRESH, acts, s')
    ensures s'.st.Started? && InFlight(s') == 0 && s'.cur == DWORD - 1 && Stuck(s')
  {
    var first := UpToReservation();
    var second := StopAndReset();
    var third, s1 := LateRefusal();
    s' := s1;
    RunsAppend(FRESH, first, HELD, second, RESET);
    RunsAppend(FRESH, first + second, RESET, third, s');
    acts := first + second + third;
  }
}

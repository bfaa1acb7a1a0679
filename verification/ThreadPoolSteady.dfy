/** The thread count fixed between Start and Stop: when Stop cannot lose a task, and the
    run in which it does although the count never changes. */
module ThreadPoolSteady {
  import opened ThreadPool
  import Sizing = ThreadPoolSizing
  import Tasks = ThreadPoolTasks
  import opened ThreadPoolStop

  // ---------------------------------------------------------------- the losing run

  const FRESH := State(CallFail, 0, Stopped, false, [], 0, MFree, CFree,
                       [Worker(Unborn, false)], [SIdle], [RIdle], [], [], [])

  /** Started, with one thread, which has decided to leave. */
  const RACED := State(CallFail, 0, Started, true, [], 1, MFree, CFree,
                       [Worker(Exiting, true)], [SIdle], [RIdle], [], [], [])

  const ACCEPTED := RACED.(tasks := [0], accepted := [0], book := [Entry(false, Queued, 0, 0, 0)])

  lemma RunsFour(s: State, a: Action, b: Action, c: Action, d: Action) returns (s': State)
    requires Enabled(s, a) && Enabled(Next(s, a), b) && Enabled(Next(Next(s, a), b), c)
    requires Enabled(Next(Next(Next(s, a), b), c), d)
    ensures s' == Next(Next(Next(Next(s, a), b), c), d) && Runs(s, [a, b, c, d], s')
  {
    var s1 := Next(s, a);
    var s2 := Next(s1, b);
    var s3 := Next(s2, c);
    s' := Next(s3, d);
    StepFirst(s3, d, [], s');
    StepFirst(s2, c, [d], s');
    StepFirst(s1, b, [c, d], s');
    StepFirst(s, a, [b, c, d], s');
    assert [a] + [b, c, d] == [a, b, c, d];
  }

  /** The thread is created and reads the target 0. */
  lemma Creation() returns (s: State)
    ensures Runs(FRESH, [CallStart(0, 1), ResizeStep(0, Go), ResizeStep(0, Thread(0)), Work(0, Go)], s)
    ensures s == FRESH.(st := Starting, begun := true, cs := CResize(0), mtx := MWorker(0),
                        workers := [Worker(Look, false)], resizers := [REmplace(KStart, 1, 0)])
  {
    s := RunsFour(FRESH, CallStart(0, 1), ResizeStep(0, Go), ResizeStep(0, Thread(0)), Work(0, Go));
  }

  /** It is entered in the set; it sees one thread too many; it is counted. */
  lemma StaleDecision(s: State) returns (s': State)
    requires s == FRESH.(st := Starting, begun := true, cs := CResize(0), mtx := MWorker(0),
                         workers := [Worker(Look, false)], resizers := [REmplace(KStart, 1, 0)])
    ensures Runs(s, [Work(0, Go), ResizeStep(0, Go), Work(0, Go), ResizeStep(0, Go)], s')
    ensures s' == RACED.(st := Starting, cs := CResize(0), resizers := [RSpawn(KStart, 1)])
  {
    var s1 := Next(s, Work(0, Go));
    var s2 := Next(s1, ResizeStep(0, Go));
    assert s2.workers == [Worker(GotCount(0), true)];
    assert Size(s2) == 1;
    s' := RunsFour(s, Work(0, Go), ResizeStep(0, Go), Work(0, Go), ResizeStep(0, Go));
  }

  /** Start returns, and a task is accepted. */
  lemma Acceptance(s: State) returns (acts: seq<Action>)
    requires s == RACED.(st := Starting, cs := CResize(0), resizers := [RSpawn(KStart, 1)])
    ensures Runs(s, acts, ACCEPTED)
    ensures forall i | 0 <= i < |acts| :: !acts[i].CallAdjust?
  {
    var s1 := RunsFour(s, ResizeStep(0, Go), ResizeStep(0, Go), Submit(0, false), SubmitStep(0, Go));
    assert s1 == RACED.(mtx := MSubmit(0), submitters := [SLocked(0)],
                        book := [Entry(false, Submitting(0), 0, 0, 0)]);
    var s2 := Next(s1, SubmitStep(0, Go));
    var s3 := Next(s2, SubmitStep(0, Go));
    assert s3 == ACCEPTED.(mtx := MSubmit(0), submitters := [SUnlock(0)]);
    StepFirst(s3, SubmitStep(0, Go), [], ACCEPTED);
    StepFirst(s2, SubmitStep(0, Go), [SubmitStep(0, Go)], ACCEPTED);
    StepFirst(s1, SubmitStep(0, Go), [SubmitStep(0, Go)] + [SubmitStep(0, Go)], ACCEPTED);
    acts := [SubmitStep(0, Go)] + ([SubmitStep(0, Go)] + [SubmitStep(0, Go)]);
    RunsOn(s, [ResizeStep(0, Go), ResizeStep(0, Go), Submit(0, false), SubmitStep(0, Go)], s1, acts, ACCEPTED);
    acts := [ResizeStep(0, Go), ResizeStep(0, Go), Submit(0, false), SubmitStep(0, Go)] + acts;
  }

  /** A fixed thread count is not enough: a thread created by Start reads the target before
      it is itself counted and the set after it was entered, decides to leave, and is held
      up until a task is accepted and Stop is called. The task never runs. */
  lemma FixedCountCanLose() returns (acts: seq<Action>, after: seq<Action>, s': State)
    ensures Init(FRESH) && Runs(FRESH, acts, ACCEPTED) && forall i | 0 <= i < |acts| :: !acts[i].CallAdjust?
    ensures Enabled(ACCEPTED, CallStop(0)) && AllQuiet(ACCEPTED)
    ensures Runs(Next(ACCEPTED, CallStop(0)), after, s') && Size(s') == 0 && s'.tasks != []
  {
    var first := [CallStart(0, 1), ResizeStep(0, Go), ResizeStep(0, Thread(0)), Work(0, Go)];
    var second := [Work(0, Go), ResizeStep(0, Go), Work(0, Go), ResizeStep(0, Go)];
    var s1 := Creation();
    var s2 := StaleDecision(s1);
    var third := Acceptance(s2);
    RunsOn(FRESH, first, s1, second, s2);
    RunsOn(FRESH, first + second, s2, third, ACCEPTED);
    acts := first + second + third;
    after, s' := AcceptedIsLost(acts);
  }

  lemma AcceptedIsLost(acts: seq<Action>) returns (after: seq<Action>, s': State)
    requires Runs(FRESH, acts, ACCEPTED)
    ensures Init(FRESH) && Enabled(ACCEPTED, CallStop(0)) && AllQuiet(ACCEPTED)
    ensures Runs(Next(ACCEPTED, CallStop(0)), after, s') && Size(s') == 0 && s'.tasks != []
  {
    Sizing.InitInv(FRESH);
    Sizing.RunKeepsInv(FRESH, acts, ACCEPTED);
    Tasks.InitInv(FRESH);
    Tasks.RunKeepsInv(FRESH, acts, ACCEPTED);
    assert !SomeoneStays(ACCEPTED);
    after, s' := HopelessLoses(ACCEPTED, 0);
  }

  // ---------------------------------------------------------------- the safe runs

  ghost predicate InCreation(s: State) { exists r | 0 <= r < |s.resizers| :: Sizing.Creating(s.resizers[r]) }

  /** The count is never adjusted, and no thread tests the queue while Start is still
      creating threads. */
  ghost predicate Steady(s: State, acts: seq<Action>)
    decreases acts
  {
    acts == [] || (
      && Enabled(s, acts[0]) && !acts[0].CallAdjust?
      && (acts[0].Work? && s.workers[acts[0].w].pc.Look? ==> !InCreation(s))
      && Steady(Next(s, acts[0]), acts[1..]))
  }

  predicate AtWork(pc: Pc) { !pc.Exiting? && !pc.WantCs? && !pc.InCs? }

  /** What the one Start in progress has promised. */
  predicate StartOk(s: State, r: nat)
    requires r < |s.resizers|
  {
    var pc := s.resizers[r];
    match pc
    case RIdle => true
    case RWantCs(kind, n) => kind.KStart? && n > 0 && s.count == 0 && Size(s) == 0
    case RSpawn(kind, n) => kind.KStart? && n > 0 && s.count == Size(s)
    case REmplace(kind, n, _) => kind.KStart? && n > 0 && s.count == Size(s)
    case RInc(kind, n) => kind.KStart? && n > 0 && s.count + 1 == Size(s)
    case RDone(kind) => kind.KStart? && s.count > 0 && s.count == Size(s)
    case RNotify(_, _) | RNotifying(_, _) => false
  }

  predicate WorkerSteady(s: State, w: nat)
    requires w < |s.workers|
  {
    var pc := s.workers[w].pc;
    AtWork(pc) && (pc.GotCount? ==> pc.c == s.count)
  }

  ghost predicate NoneCounting(s: State) {
    forall w | 0 <= w < |s.workers| :: !s.workers[w].pc.GotCount?
  }

  ghost predicate Calm(s: State) {
    && (forall w | 0 <= w < |s.workers| :: WorkerSteady(s, w))
    && (forall r | 0 <= r < |s.resizers| :: StartOk(s, r))
    && (forall q, r | 0 <= q < r < |s.resizers| :: s.resizers[q].RIdle? || s.resizers[r].RIdle?)
    && (AllQuiet(s) <==> !s.st.Starting?)
    && (s.st.Started? ==> s.count > 0 && s.count == Size(s))
    && (s.st.Stopped? ==> s.count == 0 && Size(s) == 0)
    && (InCreation(s) ==> NoneCounting(s))
    && !s.st.Stopping?
  }

  lemma InitCalm(s: State)
    requires Init(s)
    ensures Calm(s)
  {
    Sizing.NoneInSet(s.workers);
  }

  /** Steps of others keep what Start has promised. */
  lemma CalmKept(s: State, s': State)
    requires Calm(s) && s'.st == s.st && s'.resizers == s.resizers && s'.count == s.count && Size(s') == Size(s)
    requires |s'.workers| == |s.workers|
    requires forall w | 0 <= w < |s.workers| :: WorkerSteady(s', w)
    requires InCreation(s) ==> NoneCounting(s')
    ensures Calm(s')
  {
    forall r | 0 <= r < |s'.resizers| ensures StartOk(s', r) { assert StartOk(s, r); }
  }

  /** A thread that has read the target finds the set of that size. */
  lemma CountIsRight(s: State, w: nat)
    requires Sizing.Inv(s) && Calm(s) && w < |s.workers| && s.workers[w].pc.GotCount?
    ensures s.count == Size(s)
  {
    assert Sizing.WorkerOk(s, w);
    if s.workers[w].inSet { Sizing.OneInSet(s.workers, w); }
    forall r | 0 <= r < |s.resizers| ensures !Sizing.Creating(s.resizers[r]) && StartOk(s, r) { }
  }

  lemma WorkCalm(s: State, w: nat, c: Choice)
    requires Sizing.Inv(s) && Calm(s) && w < |s.workers|
    requires s.workers[w].pc.Look? ==> !InCreation(s)
    ensures Calm(WorkerNext(s, w, c))
  {
    var s' := WorkerNext(s, w, c);
    assert Sizing.WorkerOk(s, w) && WorkerSteady(s, w);
    if s.workers[w].pc.GotCount? { CountIsRight(s, w); }
    WorkerCalm(s, w, c);
    Sizing.CountUpdate(s.workers, w, s'.workers[w], InSet);
    forall v | 0 <= v < |s.workers| ensures WorkerSteady(s', v) { assert WorkerSteady(s, v); }
    CalmKept(s, s');
  }

  lemma WorkerCalm(s: State, w: nat, c: Choice)
    requires w < |s.workers| && WorkerSteady(s, w)
    requires s.workers[w].pc.GotCount? ==> s.count == Size(s)
    ensures var s' := WorkerNext(s, w, c);
      && s'.st == s.st && s'.resizers == s.resizers && s'.count == s.count
      && s'.workers == s.workers[w := s'.workers[w]] && s'.workers[w].inSet == s.workers[w].inSet
      && WorkerSteady(s', w) && (s'.workers[w].pc.GotCount? ==> s.workers[w].pc.Look? || s' == s)
  {
    match s.workers[w].pc
    case Look | GotCount(_) | AboutToWait => LookerCalm(s, w);
    case Run(_) | Freeing(_) =>
    case _ =>
  }

  lemma LookerCalm(s: State, w: nat)
    requires w < |s.workers| && WorkerSteady(s, w)
    requires s.workers[w].pc.GotCount? ==> s.count == Size(s)
    ensures var s' := LookNext(s, w);
      && s'.st == s.st && s'.resizers == s.resizers && s'.count == s.count
      && s'.workers == s.workers[w := s'.workers[w]] && s'.workers[w].inSet == s.workers[w].inSet
      && WorkerSteady(s', w) && (s'.workers[w].pc.GotCount? ==> s.workers[w].pc.Look? || s' == s)
  {
  }

  /** A step of the one Start in progress. */
  lemma StarterMoves(s: State, r: nat, s': State)
    requires Calm(s) && r < |s.resizers| && !s.resizers[r].RIdle?
    requires |s'.resizers| == |s.resizers| && s'.resizers == s.resizers[r := s'.resizers[r]]
    requires |s'.workers| == |s.workers| && StartOk(s', r)
    requires forall w | 0 <= w < |s.workers| :: WorkerSteady(s', w)
    requires Sizing.Creating(s'.resizers[r]) ==> NoneCounting(s')
    requires if s'.resizers[r].RIdle? then s'.st.Started? && s'.count > 0 && s'.count == Size(s') else s'.st == s.st
    ensures Calm(s')
  {
    assert s.st.Starting?;
    forall q | 0 <= q < |s'.resizers| ensures q != r ==> s'.resizers[q].RIdle? { assert q != r ==> s.resizers[q].RIdle?; }
    if !s'.resizers[r].RIdle? { assert !AllQuiet(s'); }
  }

  /** Before the first thread is created none is alive. */
  lemma NoneBorn(s: State)
    requires Sizing.Inv(s) && Size(s) == 0 && s.cs.CFree?
    ensures NoneCounting(s)
  {
    forall w | 0 <= w < |s.workers| ensures !s.workers[w].pc.GotCount? {
      assert Sizing.WorkerOk(s, w);
      if s.workers[w].inSet { Sizing.OneInSet(s.workers, w); }
    }
  }

  lemma StartCalm(s: State, r: nat, c: Choice)
    requires Sizing.Inv(s) && Calm(s) && r < |s.resizers|
    ensures Calm(ResizerNext(s, r, c))
  {
    var s' := ResizerNext(s, r, c);
    if s' != s {
      assert StartOk(s, r) && Sizing.ResizerOk(s, r);
      match s.resizers[r] {
        case RWantCs(_, _) => NoneBorn(s);
        case RSpawn(_, n) =>
          if s.count < n { SpawnedCalm(s, r, c); }
        case REmplace(_, _, w) => EmplacedCalm(s, r, c);
        case _ =>
      }
      forall w | 0 <= w < |s.workers| ensures WorkerSteady(s', w) { assert WorkerSteady(s, w); }
      assert Sizing.Creating(s.resizers[r]) ==> InCreation(s);
      StarterMoves(s, r, s');
    }
  }

  lemma SpawnedCalm(s: State, r: nat, c: Choice)
    requires Sizing.Inv(s) && Calm(s) && r < |s.resizers| && s.resizers[r].RSpawn? && s.count < s.resizers[r].n
    requires ResizerNext(s, r, c) != s
    ensures Size(ResizerNext(s, r, c)) == Size(s)
  {
    Sizing.CountUpdate(s.workers, c.w, Worker(WantMtx, s.workers[c.w].inSet), InSet);
  }

  lemma EmplacedCalm(s: State, r: nat, c: Choice)
    requires Sizing.Inv(s) && Calm(s) && r < |s.resizers| && s.resizers[r].REmplace?
    requires s.resizers[r].w < |s.workers|
    ensures Size(ResizerNext(s, r, c)) == Size(s) + 1
  {
    var w := s.resizers[r].w;
    assert Sizing.ResizerOk(s, r) && Sizing.BeingAdded(s, w) && Sizing.WorkerOk(s, w);
    Sizing.CountUpdate(s.workers, w, s.workers[w].(inSet := true), InSet);
  }

  /** A submitter moves at most one waiter. */
  lemma SubmitterMoves(s: State, k: nat, c: Choice)
    requires k < |s.submitters|
    ensures var s' := SubmitterNext(s, k, c);
      && s'.st == s.st && s'.resizers == s.resizers && s'.count == s.count
      && (s'.workers == s.workers
          || (c.Thread? && c.w < |s.workers| && s.workers[c.w].pc.Waiting?
              && s'.workers == s.workers[c.w := Worker(WantMtx, s.workers[c.w].inSet)]))
  {
    match s.submitters[k]
    case SLocked(_) =>
    case SChecked(_) =>
    case SFull(_) =>
    case _ =>
  }

  lemma SubmitCalm(s: State, k: nat, c: Choice, s': State)
    requires Calm(s) && k < |s.submitters| && s' == SubmitterNext(s, k, c)
    ensures Calm(s')
  {
    SubmitterMoves(s, k, c);
    if s'.workers != s.workers {
      Sizing.CountUpdate(s.workers, c.w, Worker(WantMtx, s.workers[c.w].inSet), InSet);
    }
    forall w | 0 <= w < |s'.workers| ensures WorkerSteady(s', w) { assert WorkerSteady(s, w); }
    CalmKept(s, s');
  }

  /** Stopped again, or on the way there. */
  ghost predicate Over(s: State) {
    && (s.st.Stopping? || s.st.Stopped?) && s.begun
    && forall r | 0 <= r < |s.resizers| :: OnlyStops(s.resizers[r])
  }

  lemma StepCalm(s: State, a: Action)
    requires Sizing.Inv(s) && Enabled(s, a) && !a.CallAdjust? && !a.CallStop?
    requires a.Work? && s.workers[a.w].pc.Look? ==> !InCreation(s)
    requires Calm(s)
    ensures Calm(Next(s, a))
  {
    match a
    case Work(w, c) => WorkCalm(s, w, c);
    case SubmitStep(k, c) => SubmitCalm(s, k, c, Next(s, a));
    case ResizeStep(r, c) => StartCalm(s, r, c);
    case Submit(k, free) => NewTaskCalm(s, k, free);
    case CallStart(r, n) => CallCalm(s, r, n);
  }

  lemma StaysBegun(s: State, a: Action)
    requires Enabled(s, a) && !a.CallAdjust? && !a.CallStop? && Calm(s) && (s.st.Stopped? || s.begun)
    ensures Next(s, a).st.Stopped? || Next(s, a).begun
  {
    if a.ResizeStep? { assert StartOk(s, a.r); }
  }

  lemma NewTaskCalm(s: State, k: nat, free: bool)
    requires Calm(s) && Enabled(s, Submit(k, free))
    ensures Calm(Next(s, Submit(k, free)))
  {
    var s' := Next(s, Submit(k, free));
    forall w | 0 <= w < |s.workers| ensures WorkerSteady(s', w) { assert WorkerSteady(s, w); }
    CalmKept(s, s');
  }

  lemma CallCalm(s: State, r: nat, n: nat)
    requires Calm(s) && Enabled(s, CallStart(r, n))
    ensures Calm(Next(s, CallStart(r, n)))
  {
    var s' := Next(s, CallStart(r, n));
    assert AllQuiet(s) && !s'.resizers[r].RIdle?;
    forall w | 0 <= w < |s'.workers| ensures WorkerSteady(s', w) { assert WorkerSteady(s, w); }
  }

  lemma StepOver(s: State, a: Action)
    requires Enabled(s, a) && !a.CallAdjust? && (Over(s) || (Calm(s) && s.begun && a.CallStop?))
    ensures Over(Next(s, a))
  {
    var s' := Next(s, a);
    forall r | 0 <= r < |s'.resizers| ensures OnlyStops(s'.resizers[r]) {
      if Over(s) {
        assert OnlyStops(s.resizers[r]);
      } else {
        assert AllQuiet(s) && s.resizers[r].RIdle?;
      }
    }
  }

  lemma {:induction false} RunCalm(s: State, acts: seq<Action>, s': State)
    requires Sizing.Inv(s) && ((Calm(s) && (s.st.Stopped? || s.begun)) || Over(s))
    requires Runs(s, acts, s') && Steady(s, acts)
    ensures Calm(s') || Over(s')
    decreases acts
  {
    if acts != [] {
      var a := acts[0];
      if Over(s) || a.CallStop? { StepOver(s, a); } else { StepCalm(s, a); StaysBegun(s, a); }
      Sizing.NextKept(s, a);
      RunCalm(Next(s, a), acts[1..], s');
    }
  }

  /** With the thread count fixed, and no thread testing the queue before Start has
      created them all, Stop is never hopeless: every thread of the set is still at work
      when Stop is called. */
  lemma SteadyIsNotHopeless(s0: State, acts: seq<Action>, s: State, r: nat)
    requires Init(s0) && Runs(s0, acts, s) && Steady(s0, acts) && Enabled(s, CallStop(r))
    ensures AllQuiet(s) && !Hopeless(s)
    ensures s.count > 0 && Size(s) == s.count
    ensures forall w | 0 <= w < |s.workers| && s.workers[w].inSet :: Stays(s, w)
  {
    Sizing.InitInv(s0);
    InitCalm(s0);
    RunCalm(s0, acts, s);
    var w := SomeoneInSet(s.workers);
    forall v | 0 <= v < |s.workers| && s.workers[v].inSet ensures Stays(s, v) { assert WorkerSteady(s, v); }
  }

  /** Exactly once, for such runs. */
  lemma SteadyRunsEverything(s0: State, before: seq<Action>, s: State, r: nat, after: seq<Action>, s': State)
    requires Init(s0) && Runs(s0, before, s) && Steady(s0, before) && Enabled(s, CallStop(r))
    requires Runs(Next(s, CallStop(r)), after, s') && s'.st.Stopped?
    ensures s'.tasks == [] && s'.started == s'.accepted
    ensures forall t | 0 <= t < |s'.book| && t in s'.accepted ::
      s'.book[t].runs == 1 && s'.book[t].frees == (if s'.book[t].free then 1 else 0)
  {
    SteadyIsNotHopeless(s0, before, s, r);
    StopRunsEverything(s0, before, s, r, after, s');
  }
}

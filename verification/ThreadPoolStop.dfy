/** Whether Stop lets every accepted task run. The answer depends on the moment Stop is
    called: a worker that decided to exit earlier, on counts that were passing through,
    has the decision confirmed by the new target 0, whatever is queued by then. */
module ThreadPoolStop {
  import opened ThreadPool
  import Sizing = ThreadPoolSizing
  import Tasks = ThreadPoolTasks

  /** A thread of the set that may leave it without looking at the queue again. */
  predicate Leaving(s: State, w: nat)
    requires w < |s.workers|
  {
    var pc := s.workers[w].pc;
    pc.Exiting? || pc.WantCs? || (pc.InCs? && s.count < Size(s))
  }

  predicate Stays(s: State, w: nat)
    requires w < |s.workers|
  {
    s.workers[w].inSet && !Leaving(s, w)
  }

  ghost predicate SomeoneStays(s: State) { exists w: nat | w < |s.workers| :: Stays(s, w) }

  ghost predicate AllQuiet(s: State) { forall r | 0 <= r < |s.resizers| :: s.resizers[r].RIdle? }

  /** Some task is queued, or will be by a Submit that has passed its test of the state. */
  ghost predicate TaskComing(s: State) {
    s.tasks != [] || exists k | 0 <= k < |s.submitters| :: s.submitters[k].SChecked?
  }

  /** Stop called now can lose a task. */
  ghost predicate Hopeless(s: State) { TaskComing(s) && !SomeoneStays(s) }

  // ---------------------------------------------------------------- after Stop is called

  predicate OnlyStops(pc: Resizer) {
    || pc.RIdle?
    || (pc.RWantCs? && pc.kind.KStop? && pc.n == 0)
    || ((pc.RNotify? || pc.RNotifying? || pc.RDone?) && pc.kind.KStop?)
  }

  ghost predicate Finished(s: State) {
    forall w | 0 <= w < |s.workers| :: !Alive(s.workers[w].pc)
  }

  ghost predicate Safe(s: State) {
    && (s.st.Stopping? || s.st.Stopped?) && s.begun
    && (forall r | 0 <= r < |s.resizers| :: OnlyStops(s.resizers[r]))
    && (TaskComing(s) ==> SomeoneStays(s))
    && (s.st.Stopped? ==> Finished(s))
  }

  /** Every thread alive is in the set, while nobody is creating threads. */
  lemma AliveInSet(s: State, w: nat)
    requires Sizing.Inv(s) && Safe(s) && w < |s.workers|
    ensures Alive(s.workers[w].pc) <==> s.workers[w].inSet
    ensures !s.cs.CResize?
  {
    assert Sizing.WorkerOk(s, w);
    forall r | 0 <= r < |s.resizers| ensures s.cs != CResize(r) {
      assert Sizing.ResizerOk(s, r) && OnlyStops(s.resizers[r]);
    }
  }

  /** A step that neither brings a task nor takes a stayer away. */
  lemma StayersKept(s: State, s': State, v: nat)
    requires Sizing.Inv(s) && Safe(s) && |s'.workers| == |s.workers|
    requires s'.st == s.st && s'.begun && s'.resizers == s.resizers
    requires TaskComing(s') ==> TaskComing(s)
    requires TaskComing(s') && SomeoneStays(s) ==> v < |s.workers| && Stays(s', v)
    requires Finished(s) ==> Finished(s')
    ensures Safe(s')
  {
  }

  /** What a worker that stays before its step relies on is not changed by others. */
  lemma StaysThroughWork(s: State, w: nat, c: Choice, v: nat)
    requires Sizing.Inv(s) && Safe(s) && w < |s.workers| && v < |s.workers| && v != w && Stays(s, v)
    ensures Stays(WorkerNext(s, w, c), v)
  {
    var s' := WorkerNext(s, w, c);
    assert Sizing.WorkerOk(s, w) && Sizing.WorkerOk(s, v);
    Sizing.WorkFacts(s, w, c);
    if s.workers[v].pc.InCs? {
      assert !s.workers[w].pc.InCs?;
      Sizing.CountUpdate(s.workers, w, s'.workers[w], InSet);
    }
  }

  /** A worker that stays goes on staying, or leaves with the queue closed and empty. */
  lemma StaysByItself(s: State, w: nat, c: Choice)
    requires Sizing.Inv(s) && Safe(s) && w < |s.workers| && Stays(s, w)
    ensures Stays(WorkerNext(s, w, c), w) || !TaskComing(WorkerNext(s, w, c))
  {
    var s' := WorkerNext(s, w, c);
    assert Sizing.WorkerOk(s, w);
    forall k | 0 <= k < |s.submitters| ensures s.submitters[k].SChecked? ==> s.mtx == MSubmit(k) {
      assert Sizing.SubmitterOk(s, k);
    }
    Sizing.WorkFacts(s, w, c);
  }

  lemma WorkOnlyTakes(s: State, w: nat, c: Choice)
    requires Sizing.Inv(s) && w < |s.workers|
    ensures var s' := WorkerNext(s, w, c);
      && s'.st == s.st && s'.begun == s.begun && (TaskComing(s') ==> TaskComing(s))
      && (!Alive(s.workers[w].pc) ==> s' == s)
  {
    assert Sizing.WorkerOk(s, w);
    Sizing.WorkFacts(s, w, c);
  }

  lemma WorkSafe(s: State, w: nat, c: Choice)
    requires Sizing.Inv(s) && Safe(s) && w < |s.workers|
    ensures Safe(WorkerNext(s, w, c))
  {
    var s' := WorkerNext(s, w, c);
    assert Sizing.WorkerOk(s, w);
    Sizing.WorkFacts(s, w, c);
    WorkOnlyTakes(s, w, c);
    var v := 0;
    if TaskComing(s') && SomeoneStays(s) {
      v :| 0 <= v < |s.workers| && Stays(s, v);
      if v == w { StaysByItself(s, w, c); } else { StaysThroughWork(s, w, c, v); }
    }
    StayersKept(s, s', v);
  }

  lemma NotifyStays(s: State, c: Choice, v: nat)
    requires Wakeable(s, c) && v < |s.workers| && Stays(s, v)
    ensures Stays(Notified(s, c), v)
  {
    if c.Thread? { Sizing.CountUpdate(s.workers, c.w, Worker(WantMtx, s.workers[c.w].inSet), InSet); }
  }

  /** A submitter past its test of the state brings a task only if one was coming. */
  lemma SubmitSafe(s: State, k: nat, c: Choice)
    requires Sizing.Inv(s) && Safe(s) && k < |s.submitters|
    ensures Safe(SubmitterNext(s, k, c))
  {
    var s' := SubmitterNext(s, k, c);
    var pc := s.submitters[k];
    if TaskComing(s') && !pc.SChecked? && s'.tasks == [] {
      var j :| 0 <= j < |s'.submitters| && s'.submitters[j].SChecked?;
      assert j != k;
      assert s.submitters[j].SChecked?;
    }
    var v := 0;
    if SomeoneStays(s) {
      v :| 0 <= v < |s.workers| && Stays(s, v);
      if s'.workers != s.workers { NotifyStays(s, c, v); }
    }
    if Finished(s) {
      forall w | 0 <= w < |s'.workers| ensures !Alive(s'.workers[w].pc) { assert !Alive(s.workers[w].pc); }
    }
    StayersKept(s, s', v);
  }

  lemma StopStepStays(s: State, r: nat, c: Choice, v: nat)
    requires Sizing.Inv(s) && Safe(s) && r < |s.resizers| && v < |s.workers| && Stays(s, v)
    requires !(s.resizers[r].RDone? && Size(s) == 0)
    ensures Stays(ResizerNext(s, r, c), v)
  {
    assert OnlyStops(s.resizers[r]) && Sizing.WorkerOk(s, v);
    if s.resizers[r].RNotifying? && s.resizers[r].d != 0 && Wakeable(s, c) { NotifyStays(s, c, v); }
  }

  lemma ResizeSafe(s: State, r: nat, c: Choice)
    requires Sizing.Inv(s) && Safe(s) && r < |s.resizers|
    ensures Safe(ResizerNext(s, r, c))
  {
    var s' := ResizerNext(s, r, c);
    assert OnlyStops(s.resizers[r]);
    forall q | 0 <= q < |s'.resizers| ensures OnlyStops(s'.resizers[q]) { assert OnlyStops(s.resizers[q]); }
    if TaskComing(s') {
      var v :| 0 <= v < |s.workers| && Stays(s, v);
      if s.resizers[r].RDone? && Size(s) == 0 {
        Sizing.OneInSet(s.workers, v);
      } else {
        StopStepStays(s, r, c, v);
      }
    }
    StoppedIsFinished(s, r, c);
  }

  lemma StoppedIsFinished(s: State, r: nat, c: Choice)
    requires Sizing.Inv(s) && Safe(s) && r < |s.resizers|
    ensures ResizerNext(s, r, c).st.Stopped? ==> Finished(ResizerNext(s, r, c))
  {
    var s' := ResizerNext(s, r, c);
    assert OnlyStops(s.resizers[r]);
    if s'.st.Stopped? && s.st.Stopped? {
      forall w | 0 <= w < |s'.workers| ensures !Alive(s'.workers[w].pc) { assert !Alive(s.workers[w].pc); }
    } else if s'.st.Stopped? {
      forall w | 0 <= w < |s.workers| ensures !Alive(s.workers[w].pc) {
        AliveInSet(s, w);
        if s.workers[w].inSet { Sizing.OneInSet(s.workers, w); }
      }
    }
  }

  lemma NextSafe(s: State, a: Action)
    requires Sizing.Inv(s) && Safe(s) && Enabled(s, a)
    ensures Safe(Next(s, a))
  {
    match a
    case Work(w, c) => WorkSafe(s, w, c);
    case SubmitStep(k, c) => SubmitSafe(s, k, c);
    case ResizeStep(r, c) => ResizeSafe(s, r, c);
    case Submit(k, free) =>
      var s' := Next(s, a);
      if TaskComing(s') && s'.tasks == [] {
        var j :| 0 <= j < |s'.submitters| && s'.submitters[j].SChecked?;
        assert s.submitters[j].SChecked?;
      }
      var v := 0;
      if SomeoneStays(s) { v :| 0 <= v < |s.workers| && Stays(s, v); assert Stays(s', v); }
      StayersKept(s, s', v);
  }

  lemma {:induction false} RunSafe(s: State, acts: seq<Action>, s': State)
    requires Sizing.Inv(s) && Tasks.Inv(s) && Safe(s) && Runs(s, acts, s')
    ensures Sizing.Inv(s') && Tasks.Inv(s') && Safe(s')
    decreases acts
  {
    if acts != [] {
      NextSafe(s, acts[0]);
      Sizing.NextKept(s, acts[0]);
      Tasks.NextKept(s, acts[0]);
      RunSafe(Next(s, acts[0]), acts[1..], s');
    }
  }

  lemma StopIsSafe(s: State, r: nat)
    requires Sizing.Inv(s) && Enabled(s, CallStop(r)) && s.begun && AllQuiet(s) && !Hopeless(s)
    ensures Safe(Next(s, CallStop(r)))
  {
    var s' := Next(s, CallStop(r));
    forall q | 0 <= q < |s'.resizers| ensures OnlyStops(s'.resizers[q]) { }
    if TaskComing(s') {
      assert TaskComing(s);
      var v: nat :| v < |s.workers| && Stays(s, v);
      assert Stays(s', v);
    }
  }

  /** A pool that is not stopped has begun. */
  lemma {:induction false} BegunOnce(s: State, acts: seq<Action>, s': State)
    requires Runs(s, acts, s') && (s.st.Stopped? || s.begun)
    requires forall r | 0 <= r < |s.resizers| :: s.resizers[r].RIdle? || s.begun
    ensures s'.st.Stopped? || s'.begun
    decreases acts
  {
    if acts != [] {
      BegunOnce(Next(s, acts[0]), acts[1..], s');
    }
  }

  // ---------------------------------------------------------------- main results

  /** Stop called while some thread of the set is not on its way out, or with no task
      coming, and not during a Start or AdjustThreadCount: when the pool is Stopped, every
      accepted task has run exactly once, in the order of acceptance, and every accepted
      socket task has been freed exactly once. */
  lemma StopRunsEverything(s0: State, before: seq<Action>, s: State, r: nat, after: seq<Action>, s': State)
    requires Init(s0) && Runs(s0, before, s) && Enabled(s, CallStop(r)) && AllQuiet(s)
    requires !Hopeless(s)
    requires Runs(Next(s, CallStop(r)), after, s') && s'.st.Stopped?
    ensures s'.tasks == [] && s'.started == s'.accepted
    ensures forall t | 0 <= t < |s'.book| ::
      if t in s'.accepted
      then s'.book[t].runs == 1 && s'.book[t].frees == (if s'.book[t].free then 1 else 0)
      else s'.book[t].frees == 0 && (s'.book[t].runs == 1 <==> s'.book[t].phase.RunByCaller?)
  {
    Sizing.InitInv(s0);
    Sizing.RunKeepsInv(s0, before, s);
    Tasks.InitInv(s0);
    Tasks.RunKeepsInv(s0, before, s);
    BegunOnce(s0, before, s);
    StopIsSafe(s, r);
    Sizing.NextKept(s, CallStop(r));
    Tasks.NextKept(s, CallStop(r));
    RunSafe(Next(s, CallStop(r)), after, s');
    NobodyIsLeft(s');
    forall t | 0 <= t < |s'.book|
      ensures if t in s'.accepted
        then s'.book[t].runs == 1 && s'.book[t].frees == (if s'.book[t].free then 1 else 0)
        else s'.book[t].frees == 0 && (s'.book[t].runs == 1 <==> s'.book[t].phase.RunByCaller?)
    {
      EntryAtEnd(s', t);
    }
  }

  lemma NobodyIsLeft(s: State)
    requires Sizing.Inv(s) && Tasks.Inv(s) && Safe(s) && s.st.Stopped?
    ensures s.tasks == []
  {
    if s.tasks != [] {
      var w: nat :| w < |s.workers| && Stays(s, w);
      AliveInSet(s, w);
      assert false;
    }
  }

  lemma EntryAtEnd(s: State, t: nat)
    requires Sizing.Inv(s) && Tasks.Inv(s) && Safe(s) && s.st.Stopped? && s.tasks == [] && t < |s.book|
    ensures t in s.accepted ==> s.book[t].phase.Ended?
    ensures t in s.accepted <==> s.book[t].phase.Ended?
    ensures if t in s.accepted
        then s.book[t].runs == 1 && s.book[t].frees == (if s.book[t].free then 1 else 0)
        else s.book[t].frees == 0 && (s.book[t].runs == 1 <==> s.book[t].phase.RunByCaller?)
  {
    assert Tasks.EntryOk(s, t);
    var e := s.book[t];
    if t in s.accepted {
      var i :| 0 <= i < |s.accepted| && s.accepted[i] == t;
      assert Tasks.AcceptedOk(s, i);
      assert i < |s.started|;
      assert e.phase.Running? ==> Alive(s.workers[e.phase.w].pc);
    }
  }

  // ---------------------------------------------------------------- the losing run

  /** All threads alive wait for m_cs, with the target at 0. */
  ghost predicate Doomed(s: State) {
    && s.cs.CFree? && s.count == 0 && s.tasks != []
    && forall w | 0 <= w < |s.workers| ::
         if Alive(s.workers[w].pc)
         then s.workers[w].inSet && (s.workers[w].pc.Exiting? || s.workers[w].pc.WantCs?)
         else !s.workers[w].inSet
  }

  lemma StepFirst(s: State, a: Action, acts: seq<Action>, s': State)
    requires Enabled(s, a) && Runs(Next(s, a), acts, s')
    ensures Runs(s, [a] + acts, s')
  {
    assert ([a] + acts)[1..] == acts;
  }

  lemma SomeoneInSet(ws: seq<Worker>) returns (w: nat)
    requires Count(ws, InSet) > 0
    ensures w < |ws| && ws[w].inSet
  {
    if ws[0].inSet {
      w := 0;
    } else {
      w := SomeoneInSet(ws[1..]);
      w := w + 1;
    }
  }

  /** They leave one after the other, and the queue stays. */
  lemma {:induction false} Drain(s: State) returns (acts: seq<Action>, s': State)
    requires Doomed(s)
    ensures Runs(s, acts, s') && Size(s') == 0 && s'.tasks != []
    decreases Size(s)
  {
    if Size(s) == 0 {
      acts, s' := [], s;
    } else {
      var w := SomeoneInSet(s.workers);
      var s1, first := OneLeaves(s, w);
      acts, s' := Drain(s1);
      RunsOn(s, first, s1, acts, s');
      acts := first + acts;
    }
  }

  lemma {:induction false} RunsOn(s: State, acts: seq<Action>, mid: State, more: seq<Action>, s': State)
    requires Runs(s, acts, mid) && Runs(mid, more, s')
    ensures Runs(s, acts + more, s')
    decreases acts
  {
    if acts == [] {
      assert acts + more == more;
    } else {
      RunsOn(Next(s, acts[0]), acts[1..], mid, more, s');
      assert (acts + more)[1..] == acts[1..] + more;
    }
  }

  /** Thread `w` takes m_cs... */
  lemma OneEnters(s: State, w: nat) returns (s': State, acts: seq<Action>)
    requires Doomed(s) && w < |s.workers| && s.workers[w].inSet
    ensures Runs(s, acts, s')
    ensures s' == s.(workers := s.workers[w := Worker(InCs, true)], cs := CWorker(w))
  {
    var s1 := if s.workers[w].pc.Exiting? then Next(s, Work(w, Go)) else s;
    s' := Next(s1, Work(w, Go));
    StepFirst(s1, Work(w, Go), [], s');
    acts := [Work(w, Go)];
    if s.workers[w].pc.Exiting? {
      StepFirst(s, Work(w, Go), acts, s');
      acts := [Work(w, Go)] + acts;
    }
  }

  /** ...and leaves. */
  lemma OneLeaves(s: State, w: nat) returns (s': State, acts: seq<Action>)
    requires Doomed(s) && w < |s.workers| && s.workers[w].inSet && Size(s) > 0
    ensures Runs(s, acts, s') && Doomed(s') && Size(s') == Size(s) - 1
  {
    var s1, first := OneEnters(s, w);
    Sizing.CountUpdate(s.workers, w, Worker(InCs, true), InSet);
    s' := Next(s1, Work(w, Go));
    assert s'.workers == s.workers[w := Worker(Gone, false)];
    Sizing.CountUpdate(s.workers, w, Worker(Gone, false), InSet);
    StepFirst(s1, Work(w, Go), [], s');
    RunsOn(s, first, s1, [Work(w, Go)], s');
    acts := first + [Work(w, Go)];
  }

  /** The threads alive are those of the set, and none stays. */
  ghost predicate NoneStays(s: State) {
    forall w | 0 <= w < |s.workers| ::
      && (Alive(s.workers[w].pc) <==> s.workers[w].inSet)
      && (s.workers[w].inSet ==> Leaving(s, w))
  }

  /** The Stop in progress sets the target to 0, and the threads drain. */
  lemma TargetToZero(s: State, r: nat) returns (acts: seq<Action>, s': State)
    requires NoneStays(s) && s.cs.CFree? && s.tasks != []
    requires r < |s.resizers| && s.resizers[r] == RWantCs(KStop, 0)
    requires forall w | 0 <= w < |s.workers| :: !s.workers[w].pc.InCs?
    ensures Runs(s, acts, s') && Size(s') == 0 && s'.tasks != []
  {
    var s1 := Next(s, ResizeStep(r, Go));
    assert s1.workers == s.workers;
    acts, s' := Drain(s1);
    StepFirst(s, ResizeStep(r, Go), acts, s');
    acts := [ResizeStep(r, Go)] + acts;
  }

  /** First the thread under m_cs, if there is one, leaves. */
  lemma HolderFirst(s: State, r: nat) returns (acts: seq<Action>, s': State)
    requires Sizing.Inv(s) && NoneStays(s) && !s.cs.CResize? && s.tasks != []
    requires r < |s.resizers| && s.resizers[r] == RWantCs(KStop, 0)
    ensures Runs(s, acts, s') && Size(s') == 0 && s'.tasks != []
  {
    forall w | 0 <= w < |s.workers| ensures s.workers[w].pc.InCs? <==> s.cs == CWorker(w) {
      assert Sizing.WorkerOk(s, w);
    }
    if s.cs.CWorker? {
      var a := Work(s.cs.w, Go);
      var s1 := Next(s, a);
      assert s.workers[s.cs.w].pc.InCs? && Leaving(s, s.cs.w);
      assert s1.workers == s.workers[s.cs.w := Worker(Gone, false)];
      acts, s' := TargetToZero(s1, r);
      StepFirst(s, a, acts, s');
      acts := [a] + acts;
    } else {
      acts, s' := TargetToZero(s, r);
    }
  }

  lemma QuietNoneStays(s: State)
    requires Sizing.Inv(s) && AllQuiet(s) && !SomeoneStays(s)
    ensures NoneStays(s) && !s.cs.CResize?
  {
    forall r | 0 <= r < |s.resizers| ensures s.cs != CResize(r) { assert Sizing.ResizerOk(s, r); }
    forall w: nat | w < |s.workers|
      ensures Alive(s.workers[w].pc) <==> s.workers[w].inSet
      ensures s.workers[w].inSet ==> Leaving(s, w)
    {
      assert Sizing.WorkerOk(s, w) && !Stays(s, w);
    }
  }

  lemma HopelessLoses(s: State, r: nat) returns (acts: seq<Action>, s': State)
    requires Sizing.Inv(s) && Tasks.Inv(s) && Enabled(s, CallStop(r)) && AllQuiet(s) && Hopeless(s)
    ensures Runs(Next(s, CallStop(r)), acts, s') && Size(s') == 0 && s'.tasks != []
  {
    QuietNoneStays(s);
    var s1 := Next(s, CallStop(r));
    Sizing.NextKept(s, CallStop(r));
    assert NoneStays(s1) by {
      forall w: nat | w < |s1.workers| ensures s1.workers[w].inSet ==> Leaving(s1, w) { assert Leaving(s, w) <==> Leaving(s1, w); }
    }
    if s.tasks != [] {
      acts, s' := HolderFirst(s1, r);
    } else {
      var k: nat :| k < |s.submitters| && s.submitters[k].SChecked?;
      assert Tasks.SubmitterTask(s, k);
      var a := SubmitStep(k, Go);
      var s2 := Next(s1, a);
      assert Wakeable(s1, Go);
      assert s2.workers == s1.workers;
      Sizing.NextKept(s1, a);
      acts, s' := HolderFirst(s2, r);
      StepFirst(s1, a, acts, s');
      acts := [a] + acts;
    }
  }

  ghost predicate CanLose(s: State) {
    exists acts, s' :: Runs(s, acts, s') && Size(s') == 0 && s'.tasks != []
  }

  /** A Stop called while no Start or AdjustThreadCount is in progress can end with the
      last thread gone and tasks in the queue exactly when a task is coming and every
      thread of the set is already on its way out. */
  lemma StopLosesWhenHopeless(s0: State, before: seq<Action>, s: State, r: nat)
    requires Init(s0) && Runs(s0, before, s) && Enabled(s, CallStop(r)) && AllQuiet(s)
    ensures CanLose(Next(s, CallStop(r))) <==> Hopeless(s)
  {
    var s1 := Next(s, CallStop(r));
    Sizing.InitInv(s0);
    Sizing.RunKeepsInv(s0, before, s);
    Tasks.InitInv(s0);
    Tasks.RunKeepsInv(s0, before, s);
    BegunOnce(s0, before, s);
    if Hopeless(s) {
      var acts, s' := HopelessLoses(s, r);
    } else {
      StopIsSafe(s, r);
      Sizing.NextKept(s, CallStop(r));
      Tasks.NextKept(s, CallStop(r));
      forall acts, s' | Runs(s1, acts, s') && Size(s') == 0 ensures s'.tasks == [] {
        RunSafe(s1, acts, s');
        if s'.tasks != [] {
          var w: nat :| w < |s'.workers| && Stays(s', w);
          Sizing.OneInSet(s'.workers, w);
        }
      }
    }
  }
}

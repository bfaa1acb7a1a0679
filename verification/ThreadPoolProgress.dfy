/** Nobody waits for ever in the thread pool: its two locks cannot deadlock, what has been
    accepted can be run as long as a thread is left, and a Stop can always come to its end. */
module ThreadPoolProgress {
  import opened Sums
  import opened ThreadPool
  import Sizing = ThreadPoolSizing
  import Tasks = ThreadPoolTasks
  import Stop = ThreadPoolStop

  // ---------------------------------------------------------------- what is still to do

  /** An upper bound on a worker's steps until it sleeps, leaves, or takes a task. A worker
      that decided to exit and will find that it may not has the way back before it. */
  function Rank(pc: Pc, count: nat, size: nat): nat {
    match pc
    case Unborn | Gone | Waiting => 0
    case AboutToWait => 1
    case GotCount(c) => if c < size <= count then 10 else 4
    case Look => 5
    case WantMtx => 6
    case Freeing(_) => 7
    case Run(_) => 8
    case InCs => if count < size then 1 else 7
    case WantCs => if count < size then 2 else 8
    case Exiting => if count < size then 3 else 9
  }

  function RankBy(count: nat, size: nat): Worker -> nat { (x: Worker) => Rank(x.pc, count, size) }

  function SubmitRank(pc: Submitter): nat {
    match pc
    case SIdle => 0
    case SUnlock(_) => 1
    case SFull(_) => 2
    case SChecked(_) => 3
    case SLocked(_) => 4
    case SWant(_) => 5
  }

  function ResizeRank(pc: Resizer): nat {
    match pc
    case RDone(_) => 1
    case RNotifying(_, d) => 2 + d
    case RNotify(_, d) => 3 + d
    case _ => 0
  }

  function Wants(pc: Resizer): nat { if pc.RWantCs? then 1 else 0 }

  function Callers(s: State): nat { Sum(s.submitters, SubmitRank) + Sum(s.resizers, ResizeRank) }
  function Wanting(s: State): nat { Sum(s.resizers, Wants) }
  function Tiring(s: State): nat { Sum(s.workers, RankBy(s.count, Size(s))) }

  /** Less is left to do: in the order of the calls, the tasks, the threads, their steps. */
  predicate Nearer(s: State, s': State) {
    || Wanting(s') < Wanting(s)
    || (Wanting(s') == Wanting(s)
        && (|| Callers(s') < Callers(s)
            || (Callers(s') == Callers(s)
                && (|| |s'.tasks| < |s.tasks|
                    || (|s'.tasks| == |s.tasks|
                        && (Size(s') < Size(s) || (Size(s') == Size(s) && Tiring(s') < Tiring(s))))))))
  }

  // ---------------------------------------------------------------- who can move

  /** It is not going to create threads. */
  predicate Grows(pc: Resizer) { Sizing.Creating(pc) || (pc.RWantCs? && pc.n > 0) }

  ghost predicate Ready(s: State) {
    Sizing.Inv(s) && Tasks.Inv(s) && forall r | 0 <= r < |s.resizers| :: !Grows(s.resizers[r])
  }

  predicate WorkerRests(pc: Pc) { pc.Unborn? || pc.Gone? || pc.Waiting? }

  /** At most a Stop waits for the last thread. */
  predicate ResizerRests(s: State, pc: Resizer) { pc.RIdle? || (pc == RDone(KStop) && Size(s) != 0) }

  ghost predicate AtRest(s: State) {
    && (forall w | 0 <= w < |s.workers| :: WorkerRests(s.workers[w].pc))
    && (forall k | 0 <= k < |s.submitters| :: s.submitters[k].SIdle?)
    && (forall r | 0 <= r < |s.resizers| :: ResizerRests(s, s.resizers[r]))
  }

  /** A waiting thread, if there is one. */
  ghost function Waker(s: State): Choice {
    if exists w: nat :: w < |s.workers| && s.workers[w].pc.Waiting?
    then (var w: nat :| w < |s.workers| && s.workers[w].pc.Waiting?; Thread(w))
    else Go
  }

  /** A step of a thread that does not wait for a lock. */
  ghost predicate Useful(s: State, a: Action) {
    match a
    case Work(w, c) =>
      && w < |s.workers| && !WorkerRests(s.workers[w].pc) && c == Go
      && (s.workers[w].pc.WantMtx? ==> s.mtx == MFree) && (s.workers[w].pc.WantCs? ==> s.cs == CFree)
    case SubmitStep(k, c) =>
      && k < |s.submitters| && !s.submitters[k].SIdle? && c == (if s.submitters[k].SFull? then Other else Waker(s))
      && (s.submitters[k].SWant? ==> s.mtx == MFree)
    case ResizeStep(r, c) =>
      && r < |s.resizers| && !ResizerRests(s, s.resizers[r]) && c == Waker(s)
      && (s.resizers[r].RNotify? ==> s.mtx == MFree) && (s.resizers[r].RWantCs? ==> s.cs == CFree)
    case _ => false
  }

  /** Whoever waits for a lock waits for a thread that can move. */
  lemma SomeoneMoves(s: State) returns (a: Action)
    requires Ready(s) && !AtRest(s)
    ensures Useful(s, a)
  {
    if s.mtx != MFree {
      a := HolderMoves(s);
    } else if s.cs.CWorker? {
      assert Sizing.WorkerOk(s, s.cs.w);
      a := Work(s.cs.w, Go);
    } else {
      assert s.cs.CResize? ==> Sizing.ResizerOk(s, s.cs.r);
      if w :| 0 <= w < |s.workers| && !WorkerRests(s.workers[w].pc) {
        a := Work(w, Go);
      } else if k :| 0 <= k < |s.submitters| && !s.submitters[k].SIdle? {
        a := SubmitStep(k, if s.submitters[k].SFull? then Other else Waker(s));
      } else {
        var r :| 0 <= r < |s.resizers| && !ResizerRests(s, s.resizers[r]);
        a := ResizeStep(r, Waker(s));
      }
    }
  }

  lemma HolderMoves(s: State) returns (a: Action)
    requires Ready(s) && s.mtx != MFree
    ensures Useful(s, a)
  {
    match s.mtx
    case MWorker(w) =>
      assert Sizing.WorkerOk(s, w);
      a := Work(w, Go);
    case MSubmit(k) =>
      assert Sizing.SubmitterOk(s, k);
      a := SubmitStep(k, Waker(s));
    case MResize(r) =>
      assert Sizing.ResizerOk(s, r);
      a := ResizeStep(r, Waker(s));
  }

  // ---------------------------------------------------------------- useful steps

  /** A worker's step but for the one that takes a task and the one that leaves. */
  lemma Tires(s: State, w: nat, s': State)
    requires w < |s.workers| == |s'.workers| && s'.workers == s.workers[w := s'.workers[w]] && s'.workers[w].inSet == s.workers[w].inSet
    requires s'.submitters == s.submitters && s'.resizers == s.resizers && s'.tasks == s.tasks && s'.count == s.count
    requires Rank(s'.workers[w].pc, s.count, Size(s)) < Rank(s.workers[w].pc, s.count, Size(s))
    ensures Nearer(s, s')
  {
    Sizing.CountUpdate(s.workers, w, s'.workers[w], InSet);
    SumUpdate(s.workers, w, s'.workers[w], RankBy(s.count, Size(s)));
  }

  lemma LookNearer(s: State, w: nat)
    requires Ready(s) && w < |s.workers| && Sizing.HoldsMtx(s.workers[w].pc)
    ensures Nearer(s, LookNext(s, w))
  {
    var s' := LookNext(s, w);
    if s.workers[w].pc.Look? && s.tasks != [] {
      assert s.accepted[|s.started|] == s.tasks[0] && Tasks.AcceptedOk(s, |s.started|);
    } else {
      assert Sizing.WorkerOk(s, w);
      Tires(s, w, s');
    }
  }

  lemma RunNearer(s: State, w: nat)
    requires Ready(s) && w < |s.workers| && (s.workers[w].pc.Run? || s.workers[w].pc.Freeing?)
    ensures Nearer(s, RunNext(s, w))
  {
    assert Tasks.WorkerTask(s, w);
    Tires(s, w, RunNext(s, w));
  }

  lemma ExitNearer(s: State, w: nat)
    requires Ready(s) && w < |s.workers| && (s.workers[w].pc.Exiting? || s.workers[w].pc.WantCs? || s.workers[w].pc.InCs?)
    requires s.workers[w].pc.WantCs? ==> s.cs == CFree
    ensures Nearer(s, ExitNext(s, w, Go))
  {
    if s.workers[w].pc.InCs? && s.count < Size(s) {
      assert Sizing.WorkerOk(s, w);
      Sizing.CountUpdate(s.workers, w, Worker(Gone, false), InSet);
    } else {
      Tires(s, w, ExitNext(s, w, Go));
    }
  }

  lemma WorkNearer(s: State, w: nat)
    requires Ready(s) && Useful(s, Work(w, Go))
    ensures Nearer(s, WorkerNext(s, w, Go))
  {
    match s.workers[w].pc
    case WantMtx => Tires(s, w, WorkerNext(s, w, Go));
    case Look | GotCount(_) | AboutToWait => LookNearer(s, w);
    case Run(_) | Freeing(_) => RunNearer(s, w);
    case Exiting | WantCs | InCs => ExitNearer(s, w);
  }

  lemma WakerWakes(s: State)
    ensures Wakeable(s, Waker(s))
  {
  }

  lemma SubmitNearer(s: State, k: nat, c: Choice)
    requires Ready(s) && Useful(s, SubmitStep(k, c))
    ensures Nearer(s, SubmitterNext(s, k, c)) && SubmitterNext(s, k, c).resizers == s.resizers
  {
    var s' := SubmitterNext(s, k, c);
    SubmitterFacts(s, k, c);
    SubmitCalls(s, k, c);
    SumUpdate(s.submitters, k, s'.submitters[k], SubmitRank);
  }

  lemma SubmitterFacts(s: State, k: nat, c: Choice)
    requires Ready(s) && Useful(s, SubmitStep(k, c))
    ensures var s' := SubmitterNext(s, k, c);
      && |s'.submitters| == |s.submitters| && s'.submitters == s.submitters[k := s'.submitters[k]]
      && SubmitRank(s'.submitters[k]) < SubmitRank(s.submitters[k])
  {
    assert Tasks.SubmitterTask(s, k);
    WakerWakes(s);
    match s.submitters[k]
    case SChecked(_) =>
    case SFull(_) =>
    case _ =>
  }

  lemma ResizeNearer(s: State, r: nat, c: Choice)
    requires Ready(s) && Useful(s, ResizeStep(r, c))
    ensures Nearer(s, ResizerNext(s, r, c)) && Ready(ResizerNext(s, r, c))
  {
    var s' := ResizerNext(s, r, c);
    WakerWakes(s);
    ResizerFacts(s, r, c);
    SumUpdate(s.resizers, r, s'.resizers[r], ResizeRank);
    SumUpdate(s.resizers, r, s'.resizers[r], Wants);
    Sizing.NextKept(s, ResizeStep(r, c));
    Tasks.NextKept(s, ResizeStep(r, c));
  }

  /** What a useful step does to resizer `r` and to nobody else's calls. */
  predicate Resized(s: State, r: nat, s': State)
    requires r < |s.resizers|
  {
    && |s'.resizers| == |s.resizers| && s'.resizers == s.resizers[r := s'.resizers[r]] && s'.submitters == s.submitters
    && !Grows(s'.resizers[r])
    && (Wants(s'.resizers[r]) < Wants(s.resizers[r])
        || (Wants(s'.resizers[r]) == Wants(s.resizers[r]) && ResizeRank(s'.resizers[r]) < ResizeRank(s.resizers[r])))
  }

  lemma ResizerFacts(s: State, r: nat, c: Choice)
    requires Ready(s) && Useful(s, ResizeStep(r, c)) && Wakeable(s, c)
    ensures Resized(s, r, ResizerNext(s, r, c))
  {
    assert !Grows(s.resizers[r]);
    match s.resizers[r]
    case RWantCs(_, _) =>
    case RNotify(_, _) =>
    case RNotifying(_, _) => NotifyingFacts(s, r, c);
    case RDone(_) =>
  }

  lemma NotifyingFacts(s: State, r: nat, c: Choice)
    requires r < |s.resizers| && s.resizers[r].RNotifying? && Wakeable(s, c)
    ensures Resized(s, r, ResizerNext(s, r, c))
  {
  }

  lemma UsefulKept(s: State, a: Action)
    requires Ready(s) && Useful(s, a)
    ensures Enabled(s, a) && Ready(Next(s, a)) && Nearer(s, Next(s, a))
  {
    Sizing.NextKept(s, a);
    Tasks.NextKept(s, a);
    match a
    case Work(w, _) => WorkNearer(s, w); Sizing.WorkLeavesCalls(s, w, Go);
    case SubmitStep(k, c) => SubmitNearer(s, k, c);
    case ResizeStep(r, c) => ResizeNearer(s, r, c);
  }

  // ---------------------------------------------------------------- everybody can come to rest

  lemma {:induction false} CanRest(s0: State, acts0: seq<Action>, s: State) returns (acts: seq<Action>, s': State)
    requires Runs(s0, acts0, s) && Ready(s)
    ensures Runs(s0, acts, s') && Ready(s') && AtRest(s')
    ensures Stop.AllQuiet(s) ==> s'.count == s.count && Stop.AllQuiet(s')
    decreases Wanting(s), Callers(s), |s.tasks|, Size(s), Tiring(s)
  {
    acts, s' := acts0, s;
    if !AtRest(s) {
      var a := SomeoneMoves(s);
      UsefulKept(s, a);
      if Stop.AllQuiet(s) { QuietStep(s, a); }
      acts, s' := Tasks.OneMore(s0, acts, s', a);
      acts, s' := CanRest(s0, acts, s');
    }
  }

  lemma QuietStep(s: State, a: Action)
    requires Ready(s) && Useful(s, a) && Enabled(s, a) && Stop.AllQuiet(s)
    ensures Next(s, a).count == s.count && Stop.AllQuiet(Next(s, a))
  {
    match a
    case Work(w, _) => Sizing.WorkLeavesCalls(s, w, Go);
    case SubmitStep(k, c) => SubmitCalls(s, k, c);
    case ResizeStep(_, _) => assert false;
  }

  /** At rest the queue is empty or no thread is left. */
  lemma RestIsDone(s: State)
    requires Sizing.Inv(s) && AtRest(s)
    ensures s.tasks == [] || Stop.Finished(s)
  {
    forall w | 0 <= w < |s.workers| ensures !Sizing.WillLook(s.workers[w].pc) { assert WorkerRests(s.workers[w].pc); }
  }

  // ---------------------------------------------------------------- main results

  /** From every reachable state in which nobody creates threads, all threads can come to
      rest; and then every accepted task has run, unless no thread is left. While no resizer
      is at work and the target is not 0, threads are left. */
  lemma AcceptedCanRun(s0: State, before: seq<Action>, s: State) returns (acts: seq<Action>, s': State)
    requires Init(s0) && Runs(s0, before, s) && (forall r | 0 <= r < |s.resizers| :: !Grows(s.resizers[r]))
    ensures Runs(s, acts, s') && AtRest(s') && (s'.tasks == [] || Stop.Finished(s'))
    ensures Stop.AllQuiet(s) && s.count > 0 ==> s'.tasks == []
    ensures s'.tasks == [] ==> forall t | t in s'.accepted :: t < |s'.book| && s'.book[t].phase.Ended? && s'.book[t].runs == 1
  {
    Sizing.InitInv(s0);
    Sizing.RunKeepsInv(s0, before, s);
    Tasks.InitInv(s0);
    Tasks.RunKeepsInv(s0, before, s);
    acts, s' := CanRest(s, [], s);
    RestIsDone(s');
    if Stop.AllQuiet(s) && s.count > 0 { SomeoneIsLeft(s'); }
    if s'.tasks == [] {
      forall t | t in s'.accepted ensures t < |s'.book| && s'.book[t].phase.Ended? && s'.book[t].runs == 1 { EndedAtRest(s', t); }
    }
  }

  lemma SomeoneIsLeft(s: State)
    requires Sizing.Inv(s) && s.count > 0
    ensures !Stop.Finished(s)
  {
    var w := Stop.SomeoneInSet(s.workers);
    assert Sizing.WorkerOk(s, w);
  }

  lemma EndedAtRest(s: State, t: nat)
    requires Tasks.Inv(s) && AtRest(s) && s.tasks == [] && t in s.accepted
    ensures t < |s.book| && s.book[t].phase.Ended? && s.book[t].runs == 1
  {
    var i :| 0 <= i < |s.accepted| && s.accepted[i] == t;
    assert Tasks.AcceptedOk(s, i) && Tasks.EntryOk(s, t);
    assert s.book[t].phase.Running? ==> WorkerRests(s.workers[s.book[t].phase.w].pc);
  }

  // ---------------------------------------------------------------- Stop

  /** Since Stop was called: nobody else resizes, and past m_cs the target is 0. */
  ghost predicate Ending(s: State) {
    && s.begun && (s.st.Stopping? || (s.st.Stopped? && s.count == 0))
    && (forall r | 0 <= r < |s.resizers| :: Stop.OnlyStops(s.resizers[r]) && (s.resizers[r].RIdle? || s.resizers[r].RWantCs? || s.count == 0))
    && (s.st.Stopping? ==> exists r | 0 <= r < |s.resizers| :: !s.resizers[r].RIdle?)
  }

  lemma EndingKept(s: State, a: Action)
    requires Sizing.Inv(s) && Ending(s) && Enabled(s, a)
    ensures Ending(Next(s, a))
  {
    match a
    case Work(w, c) => Sizing.WorkLeavesCalls(s, w, c);
    case SubmitStep(k, c) => SubmitCalls(s, k, c);
    case ResizeStep(r, c) => StopStep(s, r, c);
    case Submit(_, _) =>
  }

  lemma SubmitCalls(s: State, k: nat, c: Choice)
    requires k < |s.submitters|
    ensures var s' := SubmitterNext(s, k, c);
      s'.resizers == s.resizers && s'.count == s.count && s'.st == s.st && s'.begun == s.begun
  {
  }

  lemma StopStep(s: State, r: nat, c: Choice)
    requires Ending(s) && r < |s.resizers|
    ensures Ending(ResizerNext(s, r, c))
  {
    var s' := ResizerNext(s, r, c);
    assert Stop.OnlyStops(s.resizers[r]);
    if s'.st.Stopping? {
      if s'.resizers[r].RIdle? {
        var q :| 0 <= q < |s.resizers| && !s.resizers[q].RIdle?;
        assert !s'.resizers[q].RIdle?;
      } else {
        assert !s'.resizers[r].RIdle?;
      }
    }
    forall q | 0 <= q < |s'.resizers|
      ensures Stop.OnlyStops(s'.resizers[q]) && (s'.resizers[q].RIdle? || s'.resizers[q].RWantCs? || s'.count == 0)
    {
      assert Stop.OnlyStops(s.resizers[q]);
    }
  }

  lemma {:induction false} RunKeepsEnding(s: State, acts: seq<Action>, s': State)
    requires Sizing.Inv(s) && Tasks.Inv(s) && Ending(s) && Runs(s, acts, s')
    ensures Sizing.Inv(s') && Tasks.Inv(s') && Ending(s')
    decreases acts
  {
    if acts != [] {
      EndingKept(s, acts[0]);
      Sizing.NextKept(s, acts[0]);
      Tasks.NextKept(s, acts[0]);
      RunKeepsEnding(Next(s, acts[0]), acts[1..], s');
    }
  }

  lemma StopIsEnding(s0: State, before: seq<Action>, s: State, r: nat)
    requires Init(s0) && Runs(s0, before, s) && Enabled(s, CallStop(r)) && Stop.AllQuiet(s)
    ensures var s' := Next(s, CallStop(r)); Sizing.Inv(s') && Tasks.Inv(s') && Ending(s')
  {
    Sizing.InitInv(s0);
    Sizing.RunKeepsInv(s0, before, s);
    Tasks.InitInv(s0);
    Tasks.RunKeepsInv(s0, before, s);
    Stop.BegunOnce(s0, before, s);
    Sizing.NextKept(s, CallStop(r));
    Tasks.NextKept(s, CallStop(r));
    assert !Next(s, CallStop(r)).resizers[r].RIdle?;
  }

  /** A Stop never hangs: called while no Start or AdjustThreadCount is in progress, from
      every state after it the pool can still get to Stopped, with no thread left. */
  lemma StopCanEnd(s0: State, before: seq<Action>, s: State, r: nat, after: seq<Action>, s1: State)
      returns (acts: seq<Action>, s': State)
    requires Init(s0) && Runs(s0, before, s) && Enabled(s, CallStop(r)) && Stop.AllQuiet(s)
    requires Runs(Next(s, CallStop(r)), after, s1)
    ensures Runs(s1, acts, s') && s'.st.Stopped? && Stop.Finished(s')
  {
    StopIsEnding(s0, before, s, r);
    RunKeepsEnding(Next(s, CallStop(r)), after, s1);
    acts, s' := CanRest(s1, [], s1);
    RunKeepsEnding(s1, acts, s');
    RestIsStopped(s');
  }

  lemma RestIsStopped(s: State)
    requires Sizing.Inv(s) && AtRest(s) && Ending(s)
    ensures s.st.Stopped? && Stop.Finished(s)
  {
    forall r | 0 <= r < |s.resizers| ensures Sizing.Owes(s.resizers[r]) == 0 && !Sizing.Creating(s.resizers[r]) {
      assert ResizerRests(s, s.resizers[r]);
    }
    Sizing.NoneAwake(s.workers);
    Sizing.NothingOwed(s.resizers);
    assert s.cs.CResize? ==> Sizing.ResizerOk(s, s.cs.r);
    assert Size(s) == s.count;
    forall r | 0 <= r < |s.resizers| ensures s.resizers[r].RIdle? { assert ResizerRests(s, s.resizers[r]); }
    forall w | 0 <= w < |s.workers| ensures !Alive(s.workers[w].pc) {
      assert Sizing.WorkerOk(s, w);
      if s.workers[w].inSet { Sizing.OneInSet(s.workers, w); }
    }
  }
}

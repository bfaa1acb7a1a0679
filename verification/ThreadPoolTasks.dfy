/** What becomes of a submitted task. */
module ThreadPoolTasks {
  import opened ThreadPool
  import Sizing = ThreadPoolSizing

  /** The task a submitter still has in hand. */
  predicate Offers(pc: Submitter, t: nat) {
    pc == SWant(t) || pc == SLocked(t) || pc == SChecked(t) || pc == SFull(t)
  }

  predicate Executes(pc: Pc, t: nat) { pc == Run(t) || pc == Freeing(t) }

  /** An accepted task carries its place among the accepted ones, so no task is accepted
      twice; behind the started ones it is queued, before them it runs or has run. */
  predicate AcceptedOk(s: State, i: nat)
    requires i < |s.accepted|
  {
    var t := s.accepted[i];
    && t < |s.book| && s.book[t].pos == i
    && (if i < |s.started| then s.book[t].phase.Running? || s.book[t].phase.Ended? else s.book[t].phase.Queued?)
  }

  /** What each phase says about the calls of the task's function and the release of
      its argument. */
  predicate EntryOk(s: State, t: nat)
    requires t < |s.book|
  {
    var e := s.book[t];
    && (e.phase.Queued? || e.phase.Running? || e.phase.Ended? ==> e.pos < |s.accepted| && s.accepted[e.pos] == t)
    && (match e.phase
        case Submitting(k) => e.runs == 0 && e.frees == 0 && k < |s.submitters| && Offers(s.submitters[k], t)
        case Queued => e.runs == 0 && e.frees == 0
        case Running(w) => e.runs == 1 && e.frees == 0 && w < |s.workers| && Executes(s.workers[w].pc, t)
        case Ended => e.runs == 1 && e.frees == (if e.free then 1 else 0)
        case Refused => e.runs == 0 && e.frees == 0
        case RunByCaller => e.runs == 1 && e.frees == 0)
  }

  predicate WorkerTask(s: State, w: nat)
    requires w < |s.workers|
  {
    var pc := s.workers[w].pc;
    && (pc.Run? || pc.Freeing? ==> pc.t < |s.book| && s.book[pc.t].phase == Running(w))
    && (pc.Freeing? ==> s.book[pc.t].free)
  }

  predicate SubmitterTask(s: State, k: nat)
    requires k < |s.submitters|
  {
    var pc := s.submitters[k];
    pc.SWant? || pc.SLocked? || pc.SChecked? || pc.SFull? ==> pc.t < |s.book| && s.book[pc.t].phase == Submitting(k)
  }

  ghost predicate Inv(s: State) {
    && s.accepted == s.started + s.tasks
    && (forall i | 0 <= i < |s.accepted| :: AcceptedOk(s, i))
    && (forall t | 0 <= t < |s.book| :: EntryOk(s, t))
    && (forall w | 0 <= w < |s.workers| :: WorkerTask(s, w))
    && (forall k | 0 <= k < |s.submitters| :: SubmitterTask(s, k))
    && (s.maxQueue != 0 ==> |s.tasks| <= s.maxQueue)
  }

  lemma InitInv(s: State)
    requires Init(s)
    ensures Inv(s)
  {
  }

  predicate HasTask(pc: Submitter) { pc.SWant? || pc.SLocked? || pc.SChecked? || pc.SFull? }

  /** A worker's step that leaves the task it executes, if any, as it is. */
  predicate SameWork(book: seq<Entry>, pc: Pc, pc': Pc) {
    || pc' == pc
    || (!pc.Run? && !pc.Freeing? && !pc'.Run? && !pc'.Freeing?)
    || (pc.Run? && pc' == Freeing(pc.t) && pc.t < |book| && book[pc.t].free)
  }

  /** A submitter's step that leaves the task it offers, if any, as it is. */
  predicate SameOffer(pc: Submitter, pc': Submitter) {
    || pc' == pc
    || (!HasTask(pc) && !HasTask(pc'))
    || (HasTask(pc) && HasTask(pc') && pc.t == pc'.t)
  }

  predicate SameTasks(s: State, s': State) {
    && s'.book == s.book && s'.accepted == s.accepted && s'.started == s.started
    && s'.tasks == s.tasks && s'.maxQueue == s.maxQueue
    && |s'.workers| == |s.workers| && |s'.submitters| == |s.submitters|
  }

  /** Steps that leave every task where it is. */
  lemma Untouched(s: State, s': State)
    requires Inv(s) && SameTasks(s, s')
    requires forall w | 0 <= w < |s.workers| :: SameWork(s.book, s.workers[w].pc, s'.workers[w].pc)
    requires forall k | 0 <= k < |s.submitters| :: SameOffer(s.submitters[k], s'.submitters[k])
    ensures Inv(s')
  {
    forall i | 0 <= i < |s'.accepted| ensures AcceptedOk(s', i) { assert AcceptedOk(s, i); }
    forall w | 0 <= w < |s'.workers| ensures WorkerTask(s', w) {
      assert WorkerTask(s, w) && SameWork(s.book, s.workers[w].pc, s'.workers[w].pc);
    }
    forall k | 0 <= k < |s'.submitters| ensures SubmitterTask(s', k) {
      assert SubmitterTask(s, k) && SameOffer(s.submitters[k], s'.submitters[k]);
    }
    forall t | 0 <= t < |s'.book| ensures EntryOk(s', t) { EntryUntouched(s, s', t); }
  }

  lemma EntryUntouched(s: State, s': State, t: nat)
    requires SameTasks(s, s') && t < |s.book| && EntryOk(s, t)
    requires forall w | 0 <= w < |s.workers| :: SameWork(s.book, s.workers[w].pc, s'.workers[w].pc)
    requires forall k | 0 <= k < |s.submitters| :: SameOffer(s.submitters[k], s'.submitters[k])
    ensures EntryOk(s', t)
  {
    match s.book[t].phase
    case Running(w) => assert SameWork(s.book, s.workers[w].pc, s'.workers[w].pc);
    case Submitting(k) => assert SameOffer(s.submitters[k], s'.submitters[k]);
    case _ =>
  }

  predicate OnlyWorker(s: State, w: nat, s': State)
    requires w < |s.workers|
  {
    && SameTasks(s, s') && s'.submitters == s.submitters
    && s'.workers == s.workers[w := s'.workers[w]] && SameWork(s.book, s.workers[w].pc, s'.workers[w].pc)
  }

  /** The same, for a step of worker `w`. */
  lemma UntouchedBy(s: State, w: nat, s': State)
    requires Inv(s) && w < |s.workers| && OnlyWorker(s, w, s')
    ensures Inv(s')
  {
    Untouched(s, s');
  }

  /** A task is taken from the front of the queue by worker `w`. */
  lemma TakeKept(s: State, w: nat)
    requires Inv(s) && w < |s.workers| && s.workers[w].pc.Look? && s.tasks != []
    ensures Inv(LookNext(s, w))
  {
    var s' := LookNext(s, w);
    var n := |s.started|;
    var t0 := s.tasks[0];
    assert s.accepted[n] == t0 && AcceptedOk(s, n);
    forall i | 0 <= i < |s'.accepted| ensures AcceptedOk(s', i) { assert AcceptedOk(s, i); }
    forall t | 0 <= t < |s'.book| ensures EntryOk(s', t) { assert EntryOk(s, t); }
    forall v | 0 <= v < |s'.workers| ensures WorkerTask(s', v) { assert WorkerTask(s, v); }
    forall k | 0 <= k < |s'.submitters| ensures SubmitterTask(s', k) { assert SubmitterTask(s, k); }
  }

  lemma RunKept(s: State, w: nat)
    requires Inv(s) && w < |s.workers| && (s.workers[w].pc.Run? || s.workers[w].pc.Freeing?)
    ensures Inv(RunNext(s, w))
  {
    var s' := RunNext(s, w);
    var t0 := s.workers[w].pc.t;
    assert WorkerTask(s, w) && EntryOk(s, t0);
    if s.workers[w].pc.Run? && s.book[t0].free {
      Untouched(s, s');
    } else {
      EndKept(s, w, s', t0);
    }
  }

  /** Worker `w` is done with task `t0`. */
  lemma EndKept(s: State, w: nat, s': State, t0: nat)
    requires Inv(s) && w < |s.workers| && Executes(s.workers[w].pc, t0) && t0 < |s.book|
    requires s.book[t0].free == s.workers[w].pc.Freeing?
    requires s' == Booked(At(s, w, WantMtx), t0,
      s.book[t0].(phase := Ended, frees := s.book[t0].frees + if s.book[t0].free then 1 else 0))
    ensures Inv(s')
  {
    assert WorkerTask(s, w) && EntryOk(s, t0);
    forall i | 0 <= i < |s'.accepted| ensures AcceptedOk(s', i) { assert AcceptedOk(s, i); }
    forall t | 0 <= t < |s'.book| ensures EntryOk(s', t) { assert EntryOk(s, t); }
    forall v | 0 <= v < |s'.workers| ensures WorkerTask(s', v) { assert WorkerTask(s, v); }
    forall k | 0 <= k < |s'.submitters| ensures SubmitterTask(s', k) { assert SubmitterTask(s, k); }
  }

  predicate SameOrWoken(pc: Pc, pc': Pc) { pc' == pc || (pc.Waiting? && pc'.WantMtx?) }

  /** A submitter gives its task away: refused, run by the caller, or pushed. */
  lemma DecidedKept(s: State, k: nat, s': State, t0: nat)
    requires Inv(s) && k < |s.submitters| == |s'.submitters| && Offers(s.submitters[k], t0)
    requires t0 < |s.book| == |s'.book| && s'.book == s.book[t0 := s'.book[t0]] && s'.maxQueue == s.maxQueue
    requires s'.submitters == s.submitters[k := s'.submitters[k]]
    requires s'.submitters[k].SIdle? || s'.submitters[k].SUnlock?
    requires |s'.workers| == |s.workers|
    requires forall w | 0 <= w < |s.workers| :: SameOrWoken(s.workers[w].pc, s'.workers[w].pc)
    requires s'.started == s.started
    requires var e, e' := s.book[t0], s'.book[t0];
      && e'.free == e.free && e'.frees == e.frees
      && if e'.phase.Queued? then
           && e'.runs == e.runs && e'.pos == |s.accepted|
           && s'.accepted == s.accepted + [t0] && s'.tasks == s.tasks + [t0]
           && (s.maxQueue == 0 || |s.tasks| < s.maxQueue)
         else
           && s'.accepted == s.accepted && s'.tasks == s.tasks
           && ((e'.phase.Refused? && e'.runs == e.runs) || (e'.phase.RunByCaller? && e'.runs == e.runs + 1))
    ensures Inv(s')
  {
    assert SubmitterTask(s, k) && EntryOk(s, t0);
    forall i | 0 <= i < |s'.accepted| ensures AcceptedOk(s', i) { assert i < |s.accepted| ==> AcceptedOk(s, i); }
    forall t | 0 <= t < |s'.book| ensures EntryOk(s', t) { assert EntryOk(s, t); }
    forall v | 0 <= v < |s'.workers| ensures WorkerTask(s', v) { assert WorkerTask(s, v); }
    forall j | 0 <= j < |s'.submitters| ensures SubmitterTask(s', j) { assert SubmitterTask(s, j); }
  }

  lemma SubmitKept(s: State, k: nat, free: bool)
    requires Inv(s) && Enabled(s, Submit(k, free))
    ensures Inv(Next(s, Submit(k, free)))
  {
    var s' := Next(s, Submit(k, free));
    forall i | 0 <= i < |s'.accepted| ensures AcceptedOk(s', i) { assert AcceptedOk(s, i); }
    forall t | 0 <= t < |s'.book| ensures EntryOk(s', t) { assert t < |s.book| ==> EntryOk(s, t); }
    forall v | 0 <= v < |s'.workers| ensures WorkerTask(s', v) { assert WorkerTask(s, v); }
    forall j | 0 <= j < |s'.submitters| ensures SubmitterTask(s', j) { assert SubmitterTask(s, j); }
  }

  lemma SubmitterKept(s: State, k: nat, c: Choice)
    requires Inv(s) && k < |s.submitters|
    ensures Inv(SubmitterNext(s, k, c))
  {
    var s' := SubmitterNext(s, k, c);
    var pc := s.submitters[k];
    assert SubmitterTask(s, k);
    match pc
    case SLocked(t) => if s.st.Started? { Untouched(s, s'); } else { DecidedKept(s, k, s', t); }
    case SChecked(t) =>
      if s'.submitters[k].SUnlock? { PushedKept(s, k, c, t); } else { Untouched(s, s'); }
    case SFull(t) =>
      if s'.submitters[k].SIdle? { DecidedKept(s, k, s', t); } else { Untouched(s, s'); }
    case _ => Untouched(s, s');
  }

  lemma PushedKept(s: State, k: nat, c: Choice, t: nat)
    requires Inv(s) && k < |s.submitters| && s.submitters[k] == SChecked(t)
    requires SubmitterNext(s, k, c).submitters[k].SUnlock?
    ensures Inv(SubmitterNext(s, k, c))
  {
    assert SubmitterTask(s, k);
    DecidedKept(s, k, SubmitterNext(s, k, c), t);
  }

  lemma WorkKept(s: State, w: nat, c: Choice)
    requires Inv(s) && w < |s.workers|
    ensures Inv(WorkerNext(s, w, c))
  {
    match s.workers[w].pc
    case Look | GotCount(_) | AboutToWait =>
      if s.workers[w].pc.Look? && s.tasks != [] { TakeKept(s, w); } else { LookIdle(s, w); }
    case Run(_) | Freeing(_) => RunKept(s, w);
    case Exiting | WantCs | InCs =>
      ExitIdle(s, w, c);
      UntouchedBy(s, w, ExitNext(s, w, c));
    case _ => Untouched(s, WorkerNext(s, w, c));
  }

  lemma LookIdle(s: State, w: nat)
    requires Inv(s) && w < |s.workers| && !(s.workers[w].pc.Look? && s.tasks != [])
    ensures Inv(LookNext(s, w))
  {
    UntouchedBy(s, w, LookNext(s, w));
  }

  lemma ExitIdle(s: State, w: nat, c: Choice)
    requires w < |s.workers|
    ensures OnlyWorker(s, w, ExitNext(s, w, c))
  {
    match s.workers[w].pc
    case InCs => if s.count < Size(s) { } else { }
    case _ =>
  }

  /** A resizer moves at most one worker, and no task. */
  lemma Resizing(s: State, r: nat, c: Choice, s': State)
    requires r < |s.resizers| && s' == ResizerNext(s, r, c)
    ensures SameTasks(s, s') && s'.submitters == s.submitters
    ensures s'.workers == s.workers || exists w: nat | w < |s.workers| :: OnlyWorker(s, w, s')
  {
    match s.resizers[r]
    case RSpawn(_, n) => if s'.workers != s.workers { assert OnlyWorker(s, c.w, s'); }
    case REmplace(_, n, w) => if w < |s.workers| { assert OnlyWorker(s, w, s'); }
    case RNotifying(_, d) => Notifying(s, r, c, s');
    case _ =>
  }

  lemma Notifying(s: State, r: nat, c: Choice, s': State)
    requires r < |s.resizers| && s.resizers[r].RNotifying? && s' == ResizerNext(s, r, c)
    ensures SameTasks(s, s') && s'.submitters == s.submitters
    ensures s'.workers == s.workers || exists w: nat | w < |s.workers| :: OnlyWorker(s, w, s')
  {
    if s'.workers != s.workers { assert OnlyWorker(s, c.w, s'); }
  }

  lemma ResizeKept(s: State, r: nat, c: Choice, s': State)
    requires Inv(s) && r < |s.resizers| && s' == ResizerNext(s, r, c)
    ensures Inv(s')
  {
    Resizing(s, r, c, s');
    if s'.workers == s.workers {
      Untouched(s, s');
    } else {
      var w: nat :| w < |s.workers| && OnlyWorker(s, w, s');
      UntouchedBy(s, w, s');
    }
  }

  lemma NextKept(s: State, a: Action)
    requires Inv(s) && Enabled(s, a)
    ensures Inv(Next(s, a))
  {
    match a
    case Submit(k, free) => SubmitKept(s, k, free);
    case SubmitStep(k, c) => SubmitterKept(s, k, c);
    case Work(w, c) => WorkKept(s, w, c);
    case ResizeStep(r, c) => ResizeKept(s, r, c, Next(s, a));
    case _ => Untouched(s, Next(s, a));
  }

  lemma {:induction false} RunKeepsInv(s: State, acts: seq<Action>, s': State)
    requires Inv(s) && Runs(s, acts, s')
    ensures Inv(s')
    decreases acts
  {
    if acts != [] {
      NextKept(s, acts[0]);
      RunKeepsInv(Next(s, acts[0]), acts[1..], s');
    }
  }

  // ---------------------------------------------------------------- over runs

  /** In every reachable state: accepted tasks start in the order of acceptance; no task
      is accepted twice; every task ran at most once, and was freed at most once and only
      after a worker ran it; a refused task never ran; the queue keeps its limit. */
  lemma TasksAtMostOnce(s: State, acts: seq<Action>, s': State)
    requires Init(s) && Runs(s, acts, s')
    ensures s'.started <= s'.accepted && s'.accepted == s'.started + s'.tasks
    ensures forall i, j | 0 <= i < j < |s'.accepted| :: s'.accepted[i] != s'.accepted[j]
    ensures forall t | 0 <= t < |s'.book| :: s'.book[t].runs <= 1 && s'.book[t].frees <= 1
    ensures forall t | 0 <= t < |s'.book| :: s'.book[t].frees == 1 <==> s'.book[t].phase.Ended? && s'.book[t].free
    ensures forall t | 0 <= t < |s'.book| && s'.book[t].phase.Refused? :: s'.book[t].runs == 0 && t !in s'.accepted
    ensures s'.maxQueue != 0 ==> |s'.tasks| <= s'.maxQueue
  {
    InitInv(s);
    RunKeepsInv(s, acts, s');
    forall i, j | 0 <= i < j < |s'.accepted| ensures s'.accepted[i] != s'.accepted[j] {
      assert AcceptedOk(s', i) && AcceptedOk(s', j);
    }
    forall t | 0 <= t < |s'.book|
      ensures s'.book[t].runs <= 1 && s'.book[t].frees <= 1
      ensures s'.book[t].frees == 1 <==> s'.book[t].phase.Ended? && s'.book[t].free
      ensures s'.book[t].phase.Refused? ==> s'.book[t].runs == 0 && t !in s'.accepted
    {
      assert EntryOk(s', t);
      if s'.book[t].phase.Refused? {
        forall i | 0 <= i < |s'.accepted| ensures s'.accepted[i] != t { assert AcceptedOk(s', i); }
      }
    }
  }

  /** A socket task run by its submitter (policy TRP_CALLER_RUN) is run once and never
      freed by the pool, though Submit reports success. */
  lemma CallerRunIsNotFreed(s: State, acts: seq<Action>, s': State, t: nat)
    requires Init(s) && Runs(s, acts, s') && t < |s'.book| && s'.book[t].phase.RunByCaller?
    ensures s'.book[t].runs == 1 && s'.book[t].frees == 0
  {
    InitInv(s);
    RunKeepsInv(s, acts, s');
    assert EntryOk(s', t);
  }

  // ---------------------------------------------------------------- what Submit decides

  /** How a submitter comes from `pc` to `pc'`, and what its step does with the task. */
  predicate ComesRightly(s: State, pc: Submitter, s': State, pc': Submitter) {
    match pc'
    case SWant(t) => pc.SIdle? || (pc == SFull(t) && s.policy == WaitFor)
    case SLocked(t) => pc == SWant(t) && s.mtx == MFree
    case SChecked(t) => pc == SLocked(t) && s.st == Started
    case SFull(t) => pc == SChecked(t) && s.maxQueue > 0 && |s.tasks| >= s.maxQueue
    case SUnlock(t) =>
      pc == SChecked(t) && (s.maxQueue == 0 || |s.tasks| < s.maxQueue) && s'.tasks == s.tasks + [t]
    case SIdle =>
      && (pc.SUnlock? || pc.SFull? || (pc.SLocked? && s.st != Started))
      && (pc.SFull? || pc.SLocked? ==>
            && s'.tasks == s.tasks && pc.t < |s'.book|
            && s'.book[pc.t].phase == if pc.SFull? && s.policy == CallerRun then RunByCaller else Refused)
  }

  /** Submit pushes a task below the limit only; with the queue full the policy decides: the
      task is refused, waits, or is run by its caller. */
  lemma SubmitterDecides(s: State, a: Action, k: nat)
    requires Inv(s) && Enabled(s, a) && k < |s.submitters|
    ensures var s' := Next(s, a);
      k < |s'.submitters| && (s'.submitters[k] == s.submitters[k] || ComesRightly(s, s.submitters[k], s', s'.submitters[k]))
  {
    match a
    case Work(w, c) => Sizing.WorkLeavesCalls(s, w, c);
    case SubmitStep(j, c) => if j == k { OwnDecision(s, k, c); } else { OthersStay(s, j, c); }
    case ResizeStep(r, c) => Resizing(s, r, c, Next(s, a));
    case _ =>
  }

  lemma OwnDecision(s: State, k: nat, c: Choice)
    requires Inv(s) && k < |s.submitters|
    ensures var s' := SubmitterNext(s, k, c);
      k < |s'.submitters| && (s'.submitters[k] == s.submitters[k] || ComesRightly(s, s.submitters[k], s', s'.submitters[k]))
  {
    assert SubmitterTask(s, k);
    match s.submitters[k]
    case SChecked(t) =>
    case SFull(t) =>
    case SLocked(t) =>
    case _ =>
  }

  lemma OthersStay(s: State, k: nat, c: Choice)
    requires k < |s.submitters|
    ensures var s' := SubmitterNext(s, k, c);
      s'.submitters == s.submitters[k := if k < |s'.submitters| then s'.submitters[k] else SIdle]
  {
    match s.submitters[k]
    case SChecked(t) =>
    case _ =>
  }

  /** A task is run by its submitter under that policy only. */
  ghost predicate ByPolicy(s: State) {
    forall t | 0 <= t < |s.book| && s.book[t].phase.RunByCaller? :: s.policy == CallerRun
  }

  lemma {:induction false} CallerRunsByPolicy(s: State, acts: seq<Action>, s': State)
    requires Runs(s, acts, s') && ByPolicy(s)
    ensures ByPolicy(s') && s'.policy == s.policy && s'.maxQueue == s.maxQueue
    decreases acts
  {
    if acts != [] {
      StepByPolicy(s, acts[0]);
      CallerRunsByPolicy(Next(s, acts[0]), acts[1..], s');
    }
  }

  lemma StepByPolicy(s: State, a: Action)
    requires Enabled(s, a) && ByPolicy(s)
    ensures var s' := Next(s, a); ByPolicy(s') && s'.policy == s.policy && s'.maxQueue == s.maxQueue
  {
    match a
    case Work(w, c) => WorkByPolicy(s, w, c);
    case SubmitStep(j, c) =>
    case ResizeStep(r, c) => Resizing(s, r, c, Next(s, a)); ResizeByPolicy(s, r, c);
    case _ =>
  }

  lemma WorkByPolicy(s: State, w: nat, c: Choice)
    requires w < |s.workers| && ByPolicy(s)
    ensures var s' := WorkerNext(s, w, c); ByPolicy(s') && s'.policy == s.policy && s'.maxQueue == s.maxQueue
  {
    match s.workers[w].pc
    case Look =>
    case Run(_) | Freeing(_) =>
    case _ =>
  }

  lemma ResizeByPolicy(s: State, r: nat, c: Choice)
    requires r < |s.resizers|
    ensures ResizerNext(s, r, c).policy == s.policy && ResizerNext(s, r, c).book == s.book
  {
  }

  // ---------------------------------------------------------------- a task run by its submitter

  lemma {:induction false} OneMore(s: State, acts: seq<Action>, mid: State, a: Action) returns (acts': seq<Action>, s': State)
    requires Runs(s, acts, mid) && Enabled(mid, a)
    ensures acts' == acts + [a] && s' == Next(mid, a) && Runs(s, acts', s')
    decreases acts
  {
    acts', s' := acts + [a], Next(mid, a);
    if acts == [] {
      assert acts' == [a] && [a][1..] == [];
      assert Runs(Next(s, a), [], s');
    } else {
      var more, _ := OneMore(Next(s, acts[0]), acts[1..], mid, a);
      assert acts'[1..] == more;
    }
  }

  /** One thread, and room for one task. */
  const SMALL := State(CallerRun, 1, Stopped, false, [], 0, MFree, CFree, [Worker(Unborn, false)], [SIdle], [RIdle], [], [], [])

  const OPENED := SMALL.(st := Started, begun := true, count := 1, workers := [Worker(WantMtx, true)])

  const FILLED := OPENED.(tasks := [0], book := [Entry(true, Queued, 0, 0, 0)], accepted := [0])

  lemma UpToOpened() returns (acts: seq<Action>)
    ensures Runs(SMALL, acts, OPENED)
  {
    var s';
    acts, s' := OneMore(SMALL, [], SMALL, CallStart(0, 1));
    acts, s' := OneMore(SMALL, acts, s', ResizeStep(0, Go));
    acts, s' := OneMore(SMALL, acts, s', ResizeStep(0, Thread(0)));
    acts, s' := OneMore(SMALL, acts, s', ResizeStep(0, Go));
    acts, s' := OneMore(SMALL, acts, s', ResizeStep(0, Go));
    acts, s' := OneMore(SMALL, acts, s', ResizeStep(0, Go));
    acts, s' := OneMore(SMALL, acts, s', ResizeStep(0, Go));
    assert s' == OPENED;
  }

  lemma UpToFilled(first: seq<Action>) returns (acts: seq<Action>)
    requires Runs(SMALL, first, OPENED)
    ensures Runs(SMALL, acts, FILLED)
  {
    var s';
    acts, s' := OneMore(SMALL, first, OPENED, Submit(0, true));
    acts, s' := OneMore(SMALL, acts, s', SubmitStep(0, Go));
    acts, s' := OneMore(SMALL, acts, s', SubmitStep(0, Go));
    acts, s' := OneMore(SMALL, acts, s', SubmitStep(0, Go));
    acts, s' := OneMore(SMALL, acts, s', SubmitStep(0, Go));
    assert s' == FILLED;
  }

  /** It happens: the queue is full, and the second socket task is run by its submitter. */
  lemma CallerRunHappens() returns (acts: seq<Action>, s': State)
    ensures Init(SMALL) && Runs(SMALL, acts, s') && |s'.book| == 2
    ensures s'.book[1].free && s'.book[1].phase.RunByCaller? && s'.book[1].runs == 1 && s'.book[1].frees == 0
  {
    var ready := UpToOpened();
    var filled := UpToFilled(ready);
    acts, s' := OneMore(SMALL, filled, FILLED, Submit(0, true));
    acts, s' := OneMore(SMALL, acts, s', SubmitStep(0, Go));
    acts, s' := OneMore(SMALL, acts, s', SubmitStep(0, Go));
    acts, s' := OneMore(SMALL, acts, s', SubmitStep(0, Go));
    acts, s' := OneMore(SMALL, acts, s', SubmitStep(0, Go));
  }
}

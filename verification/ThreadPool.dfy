/** The Linux thread pool over one Start ... Stop cycle, as a machine of single steps:
    workers, callers of Submit, and callers of Start, AdjustThreadCount and Stop, any
    number of each. The task queue is guarded by `m_mtx`, the thread set and the target
    count by `m_cs`; workers read the count and the set under `m_mtx` only. */
module ThreadPool {

  datatype EnState = Stopped | Starting | Started | Stopping

  datatype Policy = CallFail | WaitFor | CallerRun

  /** What became of a submitted task. */
  datatype Phase = Submitting(k: nat) | Queued | Running(w: nat) | Ended | Refused | RunByCaller

  /** A task by its number: whether it is a socket task (freed by the pool), its place
      among the accepted ones, how often its function was called and its argument freed. */
  datatype Entry = Entry(free: bool, phase: Phase, pos: nat, runs: nat, frees: nat)

  datatype Mtx = MFree | MWorker(w: nat) | MSubmit(k: nat) | MResize(r: nat)
  datatype Cs = CFree | CWorker(w: nat) | CResize(r: nat)

  datatype Pc =
    | Unborn
    | WantMtx
    | Look                       // under m_mtx: is there a task?
    | GotCount(c: nat)           // under m_mtx: no task; target count read, set size not yet
    | AboutToWait                // under m_mtx: will sleep
    | Waiting                    // on the condition variable
    | Run(t: nat)
    | Freeing(t: nat)
    | Exiting                    // decided to exit
    | WantCs
    | InCs                       // under m_cs: test again, erase
    | Gone

  /** A thread: where it stands and whether m_stThreads holds it. */
  datatype Worker = Worker(pc: Pc, inSet: bool)

  datatype Submitter =
    | SIdle
    | SWant(t: nat)
    | SLocked(t: nat)            // under m_mtx: state not tested
    | SChecked(t: nat)           // under m_mtx: state was SS_STARTED
    | SUnlock(t: nat)            // under m_mtx: pushed
    | SFull(t: nat)

  datatype Kind = KStart | KAdjust | KStop

  datatype Resizer =
    | RIdle
    | RWantCs(kind: Kind, n: nat)
    | RSpawn(kind: Kind, n: nat)               // under m_cs, in CreateWorkerThreads
    | REmplace(kind: Kind, n: nat, w: nat)     // thread created, not in the set yet
    | RInc(kind: Kind, n: nat)                 // in the set, not counted yet
    | RNotify(kind: Kind, d: nat)              // d notifications owed, m_mtx not taken
    | RNotifying(kind: Kind, d: nat)
    | RDone(kind: Kind)

  datatype State = State(
    policy: Policy,
    maxQueue: nat,
    st: EnState,
    begun: bool,
    tasks: seq<nat>,             // m_lsTasks, by task number
    count: nat,                  // m_dwThreadCount
    mtx: Mtx,
    cs: Cs,
    workers: seq<Worker>,
    submitters: seq<Submitter>,
    resizers: seq<Resizer>,
    // history
    book: seq<Entry>,
    accepted: seq<nat>,
    started: seq<nat>)

  /** What a step may choose: a thread to wake or to create, or which way a race went. */
  datatype Choice = Go | Thread(w: nat) | Other

  datatype Action =
    | Work(w: nat, c: Choice)
    | Submit(k: nat, free: bool)
    | SubmitStep(k: nat, c: Choice)
    | CallStart(r: nat, n: nat)
    | CallAdjust(r: nat, n: nat)
    | CallStop(r: nat)
    | ResizeStep(r: nat, c: Choice)

  // ---------------------------------------------------------------- counting

  datatype Measure = InSet | Awake

  predicate Alive(pc: Pc) { !pc.Unborn? && !pc.Gone? }
  predicate Asleep(pc: Pc) { pc.AboutToWait? || pc.Waiting? }

  function Weight(x: Worker, m: Measure): nat {
    match m
    case InSet => if x.inSet then 1 else 0
    case Awake => if Alive(x.pc) && !Asleep(x.pc) then 1 else 0
  }

  function Count(ws: seq<Worker>, m: Measure): nat {
    if ws == [] then 0 else Weight(ws[0], m) + Count(ws[1..], m)
  }

  /** |m_stThreads| */
  function Size(s: State): nat { Count(s.workers, InSet) }

  // ---------------------------------------------------------------- steps

  function At(s: State, w: nat, pc: Pc): State
    requires w < |s.workers|
  {
    s.(workers := s.workers[w := s.workers[w].(pc := pc)])
  }

  function Booked(s: State, t: nat, e: Entry): State
    requires t < |s.book|
  {
    s.(book := s.book[t := e])
  }

  predicate Wakeable(s: State, c: Choice) {
    if c.Thread? then c.w < |s.workers| && s.workers[c.w].pc.Waiting?
    else forall w | 0 <= w < |s.workers| :: !s.workers[w].pc.Waiting?
  }

  /** notify_one: some waiter, if there is one. */
  function Notified(s: State, c: Choice): State
    requires Wakeable(s, c)
  {
    if c.Thread? then At(s, c.w, WantMtx) else s
  }

  /** WorkerProc and CheckWorkerThreadExit. */
  function WorkerNext(s: State, w: nat, c: Choice): State
    requires w < |s.workers|
  {
    match s.workers[w].pc
    case Unborn | Gone => s
    case WantMtx => if s.mtx == MFree then At(s, w, Look).(mtx := MWorker(w)) else s
    case Look | GotCount(_) | AboutToWait => LookNext(s, w)
    case Waiting => if c.Other? then At(s, w, WantMtx) else s      // spurious wakeup
    case Run(_) | Freeing(_) => RunNext(s, w)
    case Exiting | WantCs | InCs => ExitNext(s, w, c)
  }

  function LookNext(s: State, w: nat): State
    requires w < |s.workers|
  {
    match s.workers[w].pc
    case Look =>
      if s.tasks == [] then At(s, w, GotCount(s.count))
      else
        var t := s.tasks[0];
        var s' := At(s, w, Run(t)).(mtx := MFree, tasks := s.tasks[1..], started := s.started + [t]);
        if t < |s.book| then Booked(s', t, s.book[t].(phase := Running(w), runs := s.book[t].runs + 1)) else s
    case GotCount(n) =>
      if n < Size(s)
      then At(s, w, Exiting).(mtx := MFree)
      else At(s, w, AboutToWait)
    case AboutToWait => At(s, w, Waiting).(mtx := MFree)
    case _ => s
  }

  function RunNext(s: State, w: nat): State
    requires w < |s.workers|
  {
    match s.workers[w].pc
    case Run(t) =>
      if t >= |s.book| then s
      else if s.book[t].free then At(s, w, Freeing(t))
      else Booked(At(s, w, WantMtx), t, s.book[t].(phase := Ended))
    case Freeing(t) =>
      if t >= |s.book| then s
      else Booked(At(s, w, WantMtx), t, s.book[t].(phase := Ended, frees := s.book[t].frees + 1))
    case _ => s
  }

  function ExitNext(s: State, w: nat, c: Choice): State
    requires w < |s.workers|
  {
    match s.workers[w].pc
    case Exiting => At(s, w, if c.Other? then WantMtx else WantCs)  // the unlocked test
    case WantCs => if s.cs == CFree then At(s, w, InCs).(cs := CWorker(w)) else s
    case InCs =>
      if s.count < Size(s)
      then s.(workers := s.workers[w := Worker(Gone, false)], cs := CFree)
      else At(s, w, WantMtx).(cs := CFree)
    case _ => s
  }

  /** DoSubmit, DirectSubmit and CycleWaitSubmit. */
  function SubmitterNext(s: State, k: nat, c: Choice): State
    requires k < |s.submitters|
  {
    match s.submitters[k]
    case SIdle => s
    case SWant(t) =>
      if s.mtx == MFree then s.(submitters := s.submitters[k := SLocked(t)], mtx := MSubmit(k)) else s
    case SLocked(t) =>
      if s.st.Started? then s.(submitters := s.submitters[k := SChecked(t)])
      else if t < |s.book|
      then Booked(s.(submitters := s.submitters[k := SIdle], mtx := MFree), t, s.book[t].(phase := Refused))
      else s
    case SChecked(t) =>
      if t >= |s.book| then s
      else if s.maxQueue != 0 && |s.tasks| >= s.maxQueue
      then s.(submitters := s.submitters[k := SFull(t)], mtx := MFree)
      else if Wakeable(s, c)
      then Booked(Notified(s, c).(submitters := s.submitters[k := SUnlock(t)],
                                  tasks := s.tasks + [t], accepted := s.accepted + [t]),
                  t, s.book[t].(phase := Queued, pos := |s.accepted|))
      else s
    case SUnlock(t) => s.(submitters := s.submitters[k := SIdle], mtx := MFree)
    case SFull(t) =>
      if t >= |s.book| then s
      else if s.policy.WaitFor? && !c.Other? then s.(submitters := s.submitters[k := SWant(t)])
      else if s.policy.CallerRun?
      then Booked(s.(submitters := s.submitters[k := SIdle]), t,
                  s.book[t].(phase := RunByCaller, runs := s.book[t].runs + 1))
      else Booked(s.(submitters := s.submitters[k := SIdle]), t, s.book[t].(phase := Refused))
  }

  /** DoAdjustThreadCount, CreateWorkerThreads, and the ends of Start and Stop. */
  function ResizerNext(s: State, r: nat, c: Choice): State
    requires r < |s.resizers|
  {
    match s.resizers[r]
    case RIdle => s
    case RWantCs(kind, n) =>
      if s.cs != CFree then s
      else if n > s.count then s.(resizers := s.resizers[r := RSpawn(kind, n)], cs := CResize(r))
      else if n < s.count then s.(resizers := s.resizers[r := RNotify(kind, s.count - n)], count := n)
      else s.(resizers := s.resizers[r := RDone(kind)])
    case RSpawn(kind, n) =>
      if s.count >= n then s.(resizers := s.resizers[r := RDone(kind)], cs := CFree)
      else if c.Thread? && c.w < |s.workers| && s.workers[c.w].pc.Unborn?
      then At(s, c.w, WantMtx).(resizers := s.resizers[r := REmplace(kind, n, c.w)])
      else s
    case REmplace(kind, n, w) =>
      if w >= |s.workers| then s
      else s.(workers := s.workers[w := s.workers[w].(inSet := true)], resizers := s.resizers[r := RInc(kind, n)])
    case RInc(kind, n) => s.(resizers := s.resizers[r := RSpawn(kind, n)], count := s.count + 1)
    case RNotify(kind, d) =>
      if s.mtx == MFree then s.(resizers := s.resizers[r := RNotifying(kind, d)], mtx := MResize(r)) else s
    case RNotifying(kind, d) =>
      if d == 0 then s.(resizers := s.resizers[r := RDone(kind)], mtx := MFree)
      else if Wakeable(s, c) then Notified(s, c).(resizers := s.resizers[r := RNotifying(kind, d - 1)])
      else s
    case RDone(kind) =>
      (match kind
       case KStart => s.(resizers := s.resizers[r := RIdle], st := Started)
       case KAdjust => s.(resizers := s.resizers[r := RIdle])
       case KStop =>
         if Size(s) == 0 then s.(resizers := s.resizers[r := RIdle], st := Stopped) else s)
  }

  predicate Enabled(s: State, a: Action) {
    match a
    case Work(w, _) => w < |s.workers|
    case Submit(k, _) => k < |s.submitters| && s.submitters[k].SIdle?
    case SubmitStep(k, _) => k < |s.submitters|
    case CallStart(r, n) => r < |s.resizers| && s.resizers[r].RIdle? && s.st.Stopped? && !s.begun && n > 0
    case CallAdjust(r, n) => r < |s.resizers| && s.resizers[r].RIdle? && s.st.Started? && n > 0
    case CallStop(r) => r < |s.resizers| && s.resizers[r].RIdle? && s.st.Started?
    case ResizeStep(r, _) => r < |s.resizers|
  }

  function Next(s: State, a: Action): State
    requires Enabled(s, a)
  {
    match a
    case Work(w, c) => WorkerNext(s, w, c)
    case Submit(k, free) =>
      s.(submitters := s.submitters[k := SWant(|s.book|)],
         book := s.book + [Entry(free, Submitting(k), 0, 0, 0)])
    case SubmitStep(k, c) => SubmitterNext(s, k, c)
    case CallStart(r, n) => s.(resizers := s.resizers[r := RWantCs(KStart, n)], st := Starting, begun := true)
    case CallAdjust(r, n) => s.(resizers := s.resizers[r := RWantCs(KAdjust, n)])
    case CallStop(r) => s.(resizers := s.resizers[r := RWantCs(KStop, 0)], st := Stopping)
    case ResizeStep(r, c) => ResizerNext(s, r, c)
  }

  predicate Init(s: State) {
    && s.st.Stopped? && !s.begun && s.tasks == [] && s.count == 0 && s.mtx.MFree? && s.cs.CFree?
    && (forall w | 0 <= w < |s.workers| :: s.workers[w] == Worker(Unborn, false))
    && (forall k | 0 <= k < |s.submitters| :: s.submitters[k] == SIdle)
    && (forall r | 0 <= r < |s.resizers| :: s.resizers[r] == RIdle)
    && s.book == [] && s.accepted == [] && s.started == []
  }

  /** Runs, given by their actions. */
  ghost predicate Runs(s: State, acts: seq<Action>, s': State)
    decreases acts
  {
    if acts == [] then s == s'
    else Enabled(s, acts[0]) && Runs(Next(s, acts[0]), acts[1..], s')
  }
}

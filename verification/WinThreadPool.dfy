/** The Windows thread pool's bounded queue: the DWORD counter that submitters raise by
    compare-and-swap before they post a task, and workers lower before they run one, over
    any number of Start ... Stop cycles. The queue itself is the operating system's. */
module WinThreadPool {

  const DWORD := 0x1_0000_0000

  datatype EnState = Stopped | Starting | Started | Stopping

  /** DirectSubmit, one shared access a step. */
  datatype Submitter =
    | SIdle
    | SStarted                 // the state was SS_STARTED; the limit is not read yet
    | SUnlimited               // the limit was 0: increment next
    | SLoop                    // read the counter next
    | SRead(q: nat)            // compare with the limit next
    | STry(q: nat)             // compare-and-swap next
    | SMissed(v: nat)          // the swap found v instead: compare with the limit next
    | SAgain                   // test the state next
    | SReserved                // the counter was raised: post next
    | SRefused                 // the post failed: lower the counter next

  datatype Worker = WIdle | WPopped(t: nat) | WRunning(t: nat)

  datatype Manager = MIdle | MStart(max: nat) | MStop | MResetSize | MResetMax | MResetState

  datatype State = State(
    st: EnState,
    max: nat,                  // m_dwMaxQueueSize
    cur: nat,                  // m_dwQueueSize
    open: bool,                // the operating system's queue exists
    queue: seq<nat>,
    submitters: seq<Submitter>,
    workers: seq<Worker>,
    manager: Manager,
    dropped: nat)              // history: tasks left in the closed queue, until the next Reset

  datatype Action =
    | Submit(k: nat)
    | SubmitStep(k: nat, posted: bool, t: nat)
    | Work(w: nat)
    | CallStart(max: nat)
    | CallStop
    | Manage

  /** InterlockedIncrement and InterlockedDecrement on a DWORD. */
  function Inc(c: nat): nat { if c + 1 == DWORD then 0 else c + 1 }
  function Dec(c: nat): nat { if c == 0 then DWORD - 1 else c - 1 }

  // ---------------------------------------------------------------- in flight

  function Reserves(x: Submitter): nat { if x.SReserved? || x.SRefused? then 1 else 0 }

  function Reserved(xs: seq<Submitter>): nat {
    if xs == [] then 0 else Reserves(xs[0]) + Reserved(xs[1..])
  }

  function Popped(ws: seq<Worker>): nat {
    if ws == [] then 0 else (if ws[0].WPopped? then 1 else 0) + Popped(ws[1..])
  }

  /** Tasks admitted and not begun: being posted, queued, or just taken by a worker. */
  function InFlight(s: State): nat { Reserved(s.submitters) + |s.queue| + Popped(s.workers) }

  // ---------------------------------------------------------------- steps

  predicate AllIdle(s: State) {
    && (forall k | 0 <= k < |s.submitters| :: s.submitters[k].SIdle?)
    && (forall w | 0 <= w < |s.workers| :: s.workers[w].WIdle?)
  }

  predicate Enabled(s: State, a: Action) {
    match a
    case Submit(k) => k < |s.submitters| && s.submitters[k].SIdle? && s.st.Started?
    case SubmitStep(k, posted, _) =>
      && k < |s.submitters| && !s.submitters[k].SIdle?
      && (s.submitters[k].SReserved? && posted ==> s.open)
    case Work(w) => w < |s.workers| && (s.workers[w].WIdle? ==> s.open && s.queue != [])
    case CallStart(max) => s.manager.MIdle? && s.st.Stopped? && max < DWORD
    case CallStop => s.manager.MIdle? && s.st.Started?
    case Manage =>
      && !s.manager.MIdle?
      && (s.manager.MStop? ==> forall w | 0 <= w < |s.workers| :: s.workers[w].WIdle?)
  }

  function Put(s: State, k: nat, x: Submitter): State
    requires k < |s.submitters|
  {
    s.(submitters := s.submitters[k := x])
  }

  function SubmitterNext(s: State, k: nat, posted: bool, t: nat): State
    requires k < |s.submitters|
  {
    match s.submitters[k]
    case SIdle => s
    case SStarted => Put(s, k, if s.max == 0 then SUnlimited else SLoop)
    case SUnlimited => Put(s, k, SReserved).(cur := Inc(s.cur))
    case SLoop => Put(s, k, SRead(s.cur))
    case SRead(q) => Put(s, k, if q >= s.max then SIdle else STry(q))            // SUBMIT_FULL
    case STry(q) =>
      if s.cur == q then Put(s, k, SReserved).(cur := Inc(q)) else Put(s, k, SMissed(s.cur))
    case SMissed(v) => Put(s, k, if v == s.max then SIdle else SAgain)           // SUBMIT_FULL
    case SAgain => Put(s, k, if s.st.Started? then SLoop else SIdle)             // SUBMIT_ERROR
    case SReserved => if posted then Put(s, k, SIdle).(queue := s.queue + [t]) else Put(s, k, SRefused)
    case SRefused => Put(s, k, SIdle).(cur := Dec(s.cur))       // SUBMIT_ERROR
  }

  function WorkerNext(s: State, w: nat): State
    requires w < |s.workers|
  {
    match s.workers[w]
    case WIdle =>
      if s.queue == [] then s
      else s.(workers := s.workers[w := WPopped(s.queue[0])], queue := s.queue[1..])
    case WPopped(t) => s.(workers := s.workers[w := WRunning(t)], cur := Dec(s.cur))
    case WRunning(t) => s.(workers := s.workers[w := WIdle])
  }

  /** Start, and Stop with its wait for the workers and its Reset. */
  function ManagerNext(s: State): State {
    match s.manager
    case MIdle => s
    case MStart(max) => s.(manager := MIdle, st := Started, open := true)
    case MStop => s.(manager := MResetSize, open := false, queue := [], dropped := s.dropped + |s.queue|)
    case MResetSize => s.(manager := MResetMax, cur := 0, dropped := 0)
    case MResetMax => s.(manager := MResetState, max := 0)
    case MResetState => s.(manager := MIdle, st := Stopped)
  }

  function Next(s: State, a: Action): State
    requires Enabled(s, a)
  {
    match a
    case Submit(k) => Put(s, k, SStarted)
    case SubmitStep(k, posted, t) => SubmitterNext(s, k, posted, t)
    case Work(w) => WorkerNext(s, w)
    case CallStart(max) => s.(manager := MStart(max), st := Starting, max := max)
    case CallStop => s.(manager := MStop, st := Stopping)
    case Manage => ManagerNext(s)
  }

  predicate Init(s: State) {
    && s.st.Stopped? && s.max == 0 && s.cur == 0 && !s.open && s.queue == [] && s.manager.MIdle? && AllIdle(s)
    && s.dropped == 0
  }

  ghost predicate Runs(s: State, acts: seq<Action>, s': State)
    decreases acts
  {
    if acts == [] then s == s'
    else Enabled(s, acts[0]) && Runs(Next(s, acts[0]), acts[1..], s')
  }

  // ---------------------------------------------------------------- the atomic queue

  /** What the limit is meant to be: one atomic decision about the number in flight. */
  datatype Bounded = Bounded(max: nat, size: nat)

  datatype Event = Admit | Full | Begin | Withdraw | Silent

  predicate Atomic(b: Bounded, e: Event, b': Bounded) {
    && b'.max == b.max
    && match e
       case Admit => (b.max == 0 || b.size < b.max) && b'.size == b.size + 1
       case Full => b.max != 0 && b.size >= b.max && b'.size == b.size
       case Begin => b.size > 0 && b'.size == b.size - 1
       case Withdraw => b.size > 0 && b'.size == b.size - 1
       case Silent => b'.size == b.size
  }

  /** Where each answer of DirectSubmit is decided: SUBMIT_FULL when the counter is read,
      or when the swap finds the limit; admission when the counter is raised. */
  function EventOf(s: State, a: Action): Event
    requires Enabled(s, a)
  {
    match a
    case SubmitStep(k, posted, _) =>
      (match s.submitters[k]
       case SUnlimited => Admit
       case SLoop => if s.cur >= s.max then Full else Silent
       case STry(q) => if s.cur == q then Admit else if s.cur == s.max then Full else Silent
       case SRefused => Withdraw
       case _ => Silent)
    case Work(w) => if s.workers[w].WPopped? then Begin else Silent
    case _ => Silent
  }

  function Abstract(s: State): Bounded { Bounded(s.max, InFlight(s)) }
}

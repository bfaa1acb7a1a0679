/** The send side of the UDP server as a machine of single steps. All connections
    share one listening socket; a connection whose datagram did not fit puts its id on
    `quSend` and asks for EPOLLOUT, in that order, while the worker that gets EPOLLOUT
    gives it up first and empties `quSend` afterwards. */
module UdpSend {
  import opened Bytes

  const MAX_CONTINUE_WRITES := 50

  datatype Lock = Free | ByWorker(w: nat) | BySender(k: nat) | Nested(w: nat, k: nat)

  /** One connection: `sent`, `reported` and `accepted` are its history, by datagrams. */
  datatype Conn = Conn(
    valid: bool,
    queue: seq<Item>,        // sndBuff
    lock: Lock,              // csSend
    accepted: seq<Item>,
    sent: seq<Item>,
    reported: seq<Item>)

  datatype Worker =
    | Idle
      // HandleSend
    | OutEvent                           // about to register without EPOLLOUT
    | Draining                           // about to pop an id from quSend
    | DrainPost(c: nat)                  // about to queue DISP_CMD_SEND for the popped id
      // DoSend
    | CmdSend(c: nat)                    // first test, no lock
    | WaitSend(c: nat)
    | Loop(c: nat, i: nat)               // under csSend from here on
    | SendItem(c: nat, i: nat, item: Item)
    | Report(c: nat, i: nat, item: Item)
    | OnSend(c: nat, i: nat)
    | PushId(c: nat)                     // blocked; about to push the id on quSend
    | Arm(c: nat)                        // about to register with EPOLLOUT
    | Repost(c: nat)                     // not blocked, not empty: about to queue the command again
    | Unlock(c: nat)

  datatype Sender =
    | SIdle
    | SWait(c: nat, data: Item)
    | SHold(c: nat, data: Item, pending: bool)   // under csSend, length read
    | SPost(c: nat)                              // lock released; about to queue the command

  /** `out` is the registration; `due` says that an EPOLLOUT event asked for by the last
      ModFD is still to come. ModFD looks at the socket again, so an edge-triggered
      registration made after EAGAIN reports the next time there is room. */
  datatype State = State(
    conns: seq<Conn>,
    quSend: seq<nat>,
    out: bool,
    due: bool,
    cmds: multiset<nat>,     // DISP_CMD_SEND, by connection
    workers: seq<Worker>,
    senders: seq<Sender>)

  datatype Answer = Go | Sent | WouldBlock

  datatype Action =
    | Deliver(w: nat)
    | TakeSend(w: nat, c: nat)
    | Work(w: nat, ans: Answer)
    | CallSend(k: nat, c: nat, data: Item)
    | SendStep(k: nat)
    | Invalidate(c: nat)
    | Release(c: nat)

  function At(s: State, w: nat, pc: Worker): State
    requires w < |s.workers|
  {
    s.(workers := s.workers[w := pc])
  }

  function With(s: State, c: nat, conn: Conn): State
    requires c < |s.conns|
  {
    s.(conns := s.conns[c := conn])
  }

  /** The connection a worker is busy with. */
  function Target(pc: Worker): (c: int) {
    match pc
    case Idle | OutEvent | Draining => -1
    case DrainPost(c) => c
    case CmdSend(c) => c
    case WaitSend(c) => c
    case Loop(c, _) => c
    case SendItem(c, _, _) => c
    case Report(c, _, _) => c
    case OnSend(c, _) => c
    case PushId(c) => c
    case Arm(c) => c
    case Repost(c) => c
    case Unlock(c) => c
  }

  /** HandleSend: disarm, then drain. */
  function DrainNext(s: State, w: nat): State
    requires w < |s.workers|
  {
    match s.workers[w]
    case OutEvent => At(s, w, Draining).(out := false, due := false)
    case Draining =>
      if s.quSend == [] then At(s, w, Idle)
      else At(s, w, DrainPost(s.quSend[0])).(quSend := s.quSend[1..])
    case DrainPost(c) => At(s, w, Draining).(cmds := s.cmds + multiset{c})
    case _ => s
  }

  /** DoSend before and after its loop. */
  function EdgeNext(s: State, w: nat): State
    requires w < |s.workers| && 0 <= Target(s.workers[w]) < |s.conns|
  {
    var c := Target(s.workers[w]);
    var conn := s.conns[c];
    match s.workers[w]
    case CmdSend(_) => At(s, w, if conn.valid && conn.queue != [] then WaitSend(c) else Idle)
    case WaitSend(_) =>
      if conn.lock != Free then s
      else if conn.valid && conn.queue != [] then With(At(s, w, Loop(c, 0)), c, conn.(lock := ByWorker(w)))
      else At(s, w, Idle)
    case Repost(_) => At(s, w, Unlock(c)).(cmds := s.cmds + multiset{c as nat})
    case Unlock(_) => With(At(s, w, Idle), c, conn.(lock := Free))
    case _ => s
  }

  /** DoSend's loop and SendItem. */
  function LoopNext(s: State, w: nat, ans: Answer): State
    requires w < |s.workers| && 0 <= Target(s.workers[w]) < |s.conns|
  {
    var c := Target(s.workers[w]);
    var conn := s.conns[c];
    match s.workers[w]
    case Loop(_, i) =>
      if conn.queue == [] then At(s, w, Unlock(c))
      else if i >= MAX_CONTINUE_WRITES then At(s, w, Repost(c))
      else With(At(s, w, SendItem(c, i, conn.queue[0])), c, conn.(queue := conn.queue[1..]))
    case SendItem(_, i, item) =>
      (match ans
       case Sent => With(At(s, w, Report(c, i, item)), c, conn.(sent := conn.sent + [item]))
       case WouldBlock => With(At(s, w, PushId(c)), c, conn.(queue := [item] + conn.queue))
       case Go => s)
    case Report(_, i, item) => With(At(s, w, OnSend(c, i)), c, conn.(reported := conn.reported + [item]))
    case OnSend(_, i) => if conn.lock == ByWorker(w) then At(s, w, Loop(c, i + 1)) else s
    case PushId(_) => At(s, w, Arm(c)).(quSend := s.quSend + [c as nat])
    case Arm(_) => At(s, w, Unlock(c)).(out := true, due := true)
    case _ => s
  }

  function WorkerNext(s: State, w: nat, ans: Answer): State
    requires w < |s.workers|
  {
    match s.workers[w]
    case Idle => s
    case OutEvent | Draining | DrainPost(_) => DrainNext(s, w)
    case CmdSend(c) => if c < |s.conns| then EdgeNext(s, w) else s
    case WaitSend(c) => if c < |s.conns| then EdgeNext(s, w) else s
    case Repost(c) => if c < |s.conns| then EdgeNext(s, w) else s
    case Unlock(c) => if c < |s.conns| then EdgeNext(s, w) else s
    case _ => if 0 <= Target(s.workers[w]) < |s.conns| then LoopNext(s, w, ans) else s
  }

  predicate MayEnter(s: State, lock: Lock) {
    || lock.Free?
    || (lock.ByWorker? && lock.w < |s.workers| && s.workers[lock.w].OnSend?)
  }

  function TakenBy(lock: Lock, k: nat): Lock {
    if lock.ByWorker? then Nested(lock.w, k) else BySender(k)
  }

  function Released(lock: Lock): Lock {
    if lock.Nested? then ByWorker(lock.w) else Free
  }

  /** SendInternal. */
  function SenderNext(s: State, k: nat): State
    requires k < |s.senders|
  {
    match s.senders[k]
    case SIdle => s
    case SWait(c, data) =>
      if c >= |s.conns| || !MayEnter(s, s.conns[c].lock) then s
      else if !s.conns[c].valid then s.(senders := s.senders[k := SIdle])
      else With(s.(senders := s.senders[k := SHold(c, data, s.conns[c].queue != [])]), c,
                s.conns[c].(lock := TakenBy(s.conns[c].lock, k)))
    case SHold(c, data, pending) =>
      if c >= |s.conns| then s
      else With(s.(senders := s.senders[k := if pending then SIdle else SPost(c)]), c,
                s.conns[c].(queue := s.conns[c].queue + [data], accepted := s.conns[c].accepted + [data],
                            lock := Released(s.conns[c].lock)))
    case SPost(c) => s.(senders := s.senders[k := SIdle], cmds := s.cmds + multiset{c})
  }

  predicate IsIdle(s: State, w: nat) { w < |s.workers| && s.workers[w].Idle? }

  predicate Enabled(s: State, a: Action) {
    match a
    case Deliver(w) => IsIdle(s, w) && s.out
    case TakeSend(w, c) => IsIdle(s, w) && c in s.cmds
    case Work(w, _) => w < |s.workers|
    case CallSend(k, c, data) =>
      k < |s.senders| && s.senders[k].SIdle? && c < |s.conns| && s.conns[c].valid && data != []
    case SendStep(k) => k < |s.senders|
    case Invalidate(c) => c < |s.conns| && s.conns[c].valid && s.conns[c].lock.Free?
    case Release(c) => c < |s.conns| && !s.conns[c].valid
  }

  function Next(s: State, a: Action): State
    requires Enabled(s, a)
  {
    match a
    case Deliver(w) => At(s, w, OutEvent).(due := false)
    case TakeSend(w, c) => At(s, w, CmdSend(c)).(cmds := s.cmds - multiset{c})
    case Work(w, ans) => WorkerNext(s, w, ans)
    case CallSend(k, c, data) => s.(senders := s.senders[k := SWait(c, data)])
    case SendStep(k) => SenderNext(s, k)
    case Invalidate(c) => With(s, c, s.conns[c].(valid := false))
    case Release(c) => With(s, c, s.conns[c].(queue := []))
  }

  predicate Init(s: State) {
    && (forall c | 0 <= c < |s.conns| :: s.conns[c] == Conn(true, [], Free, [], [], []))
    && s.quSend == [] && !s.out && !s.due && s.cmds == multiset{}
    && (forall w | 0 <= w < |s.workers| :: s.workers[w] == Idle)
    && (forall k | 0 <= k < |s.senders| :: s.senders[k] == SIdle)
  }

  ghost predicate Step(s: State, s': State) { exists a :: Enabled(s, a) && s' == Next(s, a) }

  ghost predicate StepAt(tr: seq<State>, i: nat)
    requires 0 < i < |tr|
  {
    Step(tr[i - 1], tr[i])
  }

  ghost predicate Run(tr: seq<State>) {
    && tr != []
    && Init(tr[0])
    && forall i | 0 < i < |tr| :: StepAt(tr, i)
  }
}

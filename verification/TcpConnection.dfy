/** One connection of the TCP server as a machine whose steps are the single
    memory accesses, lock operations and system calls of the handlers.

    Three kinds of threads act on it, any number of each: dispatcher workers
    (epoll events and commands), callers of SendPackets, and callers of
    PauseReceive. A SendPackets call made from inside an OnSend callback runs
    under the worker's own send lock (`Nested`), because the lock is reentrant. */
module TcpConnection {
  import opened Bytes

  const MAX_CONTINUE_READS := 30
  const MAX_CONTINUE_WRITES := 50

  /** The event bits a worker was handed. `hup` stands for EPOLLHUP or EPOLLRDHUP. */
  datatype Events = Events(inn: bool, out: bool, hup: bool, err: bool)

  const EV_SEND := Events(false, true, false, false)
  const EV_UNPAUSE := Events(true, false, false, false)
  const EV_DISCONNECT := Events(false, false, true, false)
  const EV_CLOSED := Events(false, false, false, false)

  datatype IoLock = IoFree | IoHeld(w: nat)

  datatype SendLock = SendFree | ByWorker(w: nat) | BySender(k: nat) | Nested(w: nat, k: nat)

  /** The registration of the socket with epoll: one-shot, so a delivery disarms it. */
  datatype Arming = Disarmed | Armed(inn: bool, out: bool)

  /** Where a dispatcher worker stands. */
  datatype Worker =
    | Idle
      // OnBeforeProcessIo
    | Enter(ev: Events)                      // about to test validity without a lock
    | WaitIo(ev: Events)                     // about to take csIo and test again
      // HandleReceive, under csIo
    | Recv(ev: Events, i: nat)
    | OnReceive(ev: Events, i: nat)
      // HandleSend, under csIo
    | SendTest(ev: Events)                   // first look at the length, no send lock
    | WaitSend(ev: Events)
    | Drain(ev: Events, i: nat)              // head of the item loop, under csSend
    | Write(ev: Events, i: nat, item: Item)  // head of SendItem's loop
    | Fire(ev: Events, i: nat, item: Item, n: nat)
    | OnSend(ev: Events, i: nat, item: Item, n: nat)
      // AddFreeSocketObj called under csIo (and under csSend when `hold`)
    | Closing(hold: bool, item: Item)
    | Closed(hold: bool)                     // won; about to fire OnClose
    | Releasing(hold: bool)                  // about to release the send queue
      // OnAfterProcessIo
    | Finish(ev: Events)                     // about to read the length, no send lock
    | ReadPaused(out: bool)                  // about to read the pause flag
    | Rearm(out: bool, inn: bool)            // about to call ModFD
    | Unlock
      // commands
    | CmdSend
    | CmdUnpause
    | Unpausing                              // BeforeUnpause, under csIo
    | CmdDisconnect
      // AddFreeSocketObj called without csIo, after BeforeUnpause failed
    | Kill
    | KillIo
    | Killed
    | KillReleasing

  /** Where a caller of SendPackets stands; `bufs` is its payload. */
  datatype Sender =
    | SIdle
    | SWait(bufs: seq<Item>)
    | SCat(bufs: seq<Item>, k: nat, empty: bool)  // `empty`: length was 0 when the lock was taken
    | SPost(bufs: seq<Item>)                      // about to queue DISP_CMD_SEND
    | SUnlock(bufs: seq<Item>)

  /** Where a caller of PauseReceive stands. */
  datatype Pauser =
    | PIdle
    | PTest(pause: bool)
    | PSet(pause: bool)
    | PPost                                       // about to queue DISP_CMD_UNPAUSE

  datatype State = State(
    valid: bool,
    paused: bool,
    queue: seq<Item>,        // sndBuff
    io: IoLock,              // csIo
    send: SendLock,          // csSend
    armed: Arming,
    cmdSend: nat,            // commands waiting in the dispatcher
    cmdUnpause: nat,
    cmdDisconnect: nat,
    workers: seq<Worker>,
    senders: seq<Sender>,
    pausers: seq<Pauser>,
    // history
    accepted: Item,          // bytes appended by SendPackets
    calls: seq<Item>,        // payloads of the finished calls, in lock order
    written: Item,           // bytes the socket took
    notified: Item,          // bytes reported by OnSend
    winners: seq<nat>,       // workers whose AddFreeSocketObj invalidated the object
    closes: nat,             // OnClose events
    late: bool               // some OnReceive or OnSend started after OnClose
  )

  /** What the environment answers: the socket, the listener, or which pending thing to take. */
  datatype Answer = Go | Count(n: nat) | Eof | WouldBlock | Fail | HrOk | HrError

  datatype Action =
    | Deliver(w: nat, ev: Events)
    | TakeSend(w: nat)
    | TakeUnpause(w: nat)
    | TakeDisconnect(w: nat)
    | Work(w: nat, ans: Answer)
    | CallSend(k: nat, bufs: seq<Item>)
    | SendStep(k: nat, next: seq<Item>)
    | CallPause(p: nat, pause: bool)
    | PauseStep(p: nat)
    | CallDisconnect

  // ---------------------------------------------------------------- steps

  predicate Limited(ev: Events) { !ev.hup }

  /** DoProcessIo: error first, then read, write, hang-up. */
  function Begin(ev: Events): Worker {
    if ev.err then Closing(false, []) else if ev.inn then Recv(ev, 0) else AfterRead(ev)
  }

  function AfterRead(ev: Events): Worker {
    if ev.out then SendTest(ev) else AfterWrite(ev)
  }

  function AfterWrite(ev: Events): Worker {
    if ev.hup then Closing(false, []) else Finish(ev)
  }

  predicate NonEmptyItems(q: seq<Item>) { forall i | 0 <= i < |q| :: q[i] != [] }

  /** TItemList::Cat fills the last item and appends further ones. */
  predicate CatResult(q: seq<Item>, data: Item, q': seq<Item>) {
    && NonEmptyItems(q')
    && Flatten(q') == Flatten(q) + data
    && |q| <= |q'|
    && (forall i | 0 <= i < |q| - 1 :: q'[i] == q[i])
    && (q != [] ==> q[|q| - 1] <= q'[|q| - 1])
  }

  function At(s: State, w: nat, pc: Worker): State
    requires w < |s.workers|
  {
    s.(workers := s.workers[w := pc])
  }

  /** The next state of worker `w`, given the environment's answer; equal to `s`
      when that answer does not fit the place where the worker stands or the lock
      it needs is taken. */
  function WorkerNext(s: State, w: nat, ans: Answer): State
    requires w < |s.workers|
  {
    match s.workers[w]
    case Idle => s
    case Enter(_) | WaitIo(_) => EntryNext(s, w)
    case Recv(_, _) | OnReceive(_, _) => ReceiveNext(s, w, ans)
    case SendTest(_) | WaitSend(_) | Drain(_, _) => DrainNext(s, w)
    case Write(_, _, _) | Fire(_, _, _, _) | OnSend(_, _, _, _) => ItemNext(s, w, ans)
    case Closing(_, _) | Closed(_) | Releasing(_) => CloseNext(s, w)
    case Finish(_) | ReadPaused(_) | Rearm(_, _) | Unlock => AfterNext(s, w)
    case CmdSend | CmdUnpause | Unpausing | CmdDisconnect => CommandNext(s, w, ans)
    case Kill | KillIo | Killed | KillReleasing => KillNext(s, w)
  }

  /** OnBeforeProcessIo. */
  function EntryNext(s: State, w: nat): State
    requires w < |s.workers|
  {
    match s.workers[w]
    case Enter(ev) => At(s, w, if s.valid then WaitIo(ev) else Idle)
    case WaitIo(ev) =>
      if s.io != IoFree then s
      else if s.valid then At(s, w, Begin(ev)).(io := IoHeld(w))
      else At(s, w, Idle)
    case _ => s
  }

  /** HandleReceive. */
  function ReceiveNext(s: State, w: nat, ans: Answer): State
    requires w < |s.workers|
  {
    match s.workers[w]
    case Recv(ev, i) =>
      if (Limited(ev) && i >= MAX_CONTINUE_READS) || s.paused then At(s, w, AfterRead(ev))
      else (match ans
            case Count(_) => At(s, w, OnReceive(ev, i)).(late := s.late || s.closes > 0)
            case WouldBlock => At(s, w, AfterRead(ev))
            case Eof => At(s, w, Closing(false, []))
            case Fail => At(s, w, Closing(false, []))
            case _ => s)
    case OnReceive(ev, i) =>
      (match ans
       case HrOk => At(s, w, Recv(ev, i + 1))
       case HrError => At(s, w, Closing(false, []))
       case _ => s)
    case _ => s
  }

  /** HandleSend, up to the items it pops. */
  function DrainNext(s: State, w: nat): State
    requires w < |s.workers|
  {
    match s.workers[w]
    case SendTest(ev) => At(s, w, if s.queue == [] then AfterWrite(ev) else WaitSend(ev))
    case WaitSend(ev) =>
      if s.send == SendFree then At(s, w, Drain(ev, 0)).(send := ByWorker(w)) else s
    case Drain(ev, i) =>
      if (Limited(ev) && i >= MAX_CONTINUE_WRITES) || s.queue == []
      then At(s, w, AfterWrite(ev)).(send := SendFree)
      else At(s, w, Write(ev, i, s.queue[0])).(queue := s.queue[1..])
    case _ => s
  }

  /** SendItem on the popped item, and HandleSend pushing back what is left. */
  function ItemNext(s: State, w: nat, ans: Answer): State
    requires w < |s.workers|
  {
    match s.workers[w]
    case Write(ev, i, item) =>
      if item == [] then At(s, w, Drain(ev, i + 1))
      else (match ans
            case Count(n) =>
              if 1 <= n <= |item|
              then At(s, w, Fire(ev, i, item, n)).(written := s.written + item[..n])
              else s
            case WouldBlock => At(s, w, AfterWrite(ev)).(queue := [item] + s.queue, send := SendFree)
            case Fail => At(s, w, Closing(true, item))
            case _ => s)
    case Fire(ev, i, item, n) =>
      if n > |item| then s
      else At(s, w, OnSend(ev, i, item, n)).(
           notified := s.notified + item[..n], late := s.late || s.closes > 0)
    case OnSend(ev, i, item, n) =>
      if s.send != ByWorker(w) || n > |item| then s else At(s, w, Write(ev, i, item[n..]))
    case _ => s
  }

  /** AddFreeSocketObj from inside a handler. */
  function CloseNext(s: State, w: nat): State
    requires w < |s.workers|
  {
    match s.workers[w]
    case Closing(hold, _) =>
      if !hold && s.send != SendFree then s
      else At(s, w, Closed(hold)).(valid := false, winners := s.winners + [w])
    case Closed(hold) => At(s, w, Releasing(hold)).(closes := s.closes + 1)
    case Releasing(hold) =>
      At(s, w, Finish(EV_CLOSED)).(queue := [], send := if hold then SendFree else s.send)
    case _ => s
  }

  /** OnAfterProcessIo. */
  function AfterNext(s: State, w: nat): State
    requires w < |s.workers|
  {
    match s.workers[w]
    case Finish(_) =>
      if s.valid then At(s, w, ReadPaused(s.queue != [])) else At(s, w, Idle).(io := IoFree)
    case ReadPaused(out) => At(s, w, Rearm(out, !s.paused))
    case Rearm(out, inn) => At(s, w, Unlock).(armed := Armed(inn, out))
    case Unlock => At(s, w, Idle).(io := IoFree)
    case _ => s
  }

  /** HandleCmdSend, HandleCmdUnpause, HandleCmdDisconnect. */
  function CommandNext(s: State, w: nat, ans: Answer): State
    requires w < |s.workers|
  {
    match s.workers[w]
    case CmdSend => At(s, w, if s.valid && s.queue != [] then Enter(EV_SEND) else Idle)
    case CmdUnpause =>
      if !s.valid then At(s, w, Idle)
      else (match ans
            case HrOk => At(s, w, Enter(EV_UNPAUSE))          // CTcpServer::BeforeUnpause
            case Go =>                                        // CTcpPackServerT::BeforeUnpause
              if s.io == IoFree then At(s, w, Unpausing).(io := IoHeld(w)) else s
            case _ => s)
    case Unpausing =>
      (match ans
       case Count(_) => s.(late := s.late || s.closes > 0)    // a buffered packet is delivered
       case HrOk => At(s, w, Enter(EV_UNPAUSE)).(io := IoFree)
       case HrError => At(s, w, Kill).(io := IoFree)
       case _ => s)
    case CmdDisconnect => At(s, w, if s.valid then Enter(EV_DISCONNECT) else Idle)
    case _ => s
  }

  /** AddFreeSocketObj from HandleCmdUnpause, with no lock held. */
  function KillNext(s: State, w: nat): State
    requires w < |s.workers|
  {
    match s.workers[w]
    case Kill =>
      if !s.valid then At(s, w, Idle)
      else if s.io == IoFree then At(s, w, KillIo).(io := IoHeld(w)) else s
    case KillIo =>
      if s.send != SendFree then s
      else if s.valid
      then At(s, w, Killed).(valid := false, winners := s.winners + [w], io := IoFree)
      else At(s, w, Idle).(io := IoFree)
    case Killed => At(s, w, KillReleasing).(closes := s.closes + 1)
    case KillReleasing => At(s, w, Idle).(queue := [])
    case _ => s
  }

  /** The send lock as a sender `k` would find it: free, or held by a worker
      that is inside an OnSend callback, from which `k` is the nested call. */
  predicate SenderMayEnter(s: State) {
    || s.send == SendFree
    || (s.send.ByWorker? && s.send.w < |s.workers| && s.workers[s.send.w].OnSend?)
  }

  function TakenBy(lock: SendLock, k: nat): SendLock {
    if lock.ByWorker? then Nested(lock.w, k) else BySender(k)
  }

  function Released(lock: SendLock): SendLock {
    if lock.Nested? then ByWorker(lock.w) else SendFree
  }

  /** The next state of sender `k`. `next` is the send queue after one Cat. */
  function SenderNext(s: State, k: nat, next: seq<Item>): State
    requires k < |s.senders|
  {
    match s.senders[k]
    case SIdle => s
    case SWait(bufs) =>
      if !SenderMayEnter(s) then s
      else if !s.valid then s.(senders := s.senders[k := SIdle])
      else s.(senders := s.senders[k := SCat(bufs, 0, s.queue == [])], send := TakenBy(s.send, k))
    case SCat(bufs, i, empty) =>
      if i >= |bufs| then
        s.(senders := s.senders[k := if empty && s.queue != [] then SPost(bufs) else SUnlock(bufs)])
      else if bufs[i] == [] then s.(senders := s.senders[k := SCat(bufs, i + 1, empty)])
      else if CatResult(s.queue, bufs[i], next) then
        s.(senders := s.senders[k := SCat(bufs, i + 1, empty)],
           queue := next, accepted := s.accepted + bufs[i])
      else s
    case SPost(bufs) =>
      s.(senders := s.senders[k := SUnlock(bufs)], cmdSend := s.cmdSend + 1)
    case SUnlock(bufs) =>
      s.(senders := s.senders[k := SIdle], send := Released(s.send), calls := s.calls + [Flatten(bufs)])
  }

  function PauserNext(s: State, p: nat): State
    requires p < |s.pausers|
  {
    match s.pausers[p]
    case PIdle => s
    case PTest(b) => s.(pausers := s.pausers[p := if s.paused == b then PIdle else PSet(b)])
    case PSet(b) => s.(pausers := s.pausers[p := if b then PIdle else PPost], paused := b)
    case PPost => s.(pausers := s.pausers[p := PIdle], cmdUnpause := s.cmdUnpause + 1)
  }

  predicate IsIdle(s: State, w: nat) { w < |s.workers| && s.workers[w].Idle? }

  predicate Enabled(s: State, a: Action) {
    match a
    case Deliver(w, ev) =>
      && IsIdle(s, w) && s.armed.Armed?
      && (ev.inn ==> s.armed.inn) && (ev.out ==> s.armed.out)
      && (ev.inn || ev.out || ev.hup || ev.err)
    case TakeSend(w) => IsIdle(s, w) && s.cmdSend > 0
    case TakeUnpause(w) => IsIdle(s, w) && s.cmdUnpause > 0
    case TakeDisconnect(w) => IsIdle(s, w) && s.cmdDisconnect > 0
    case Work(w, _) => w < |s.workers|
    case CallSend(k, _) => k < |s.senders| && s.senders[k].SIdle? && s.valid
    case SendStep(k, _) => k < |s.senders|
    case CallPause(p, _) => p < |s.pausers| && s.pausers[p].PIdle? && s.valid
    case PauseStep(p) => p < |s.pausers|
    case CallDisconnect => s.valid
  }

  function Next(s: State, a: Action): State
    requires Enabled(s, a)
  {
    match a
    case Deliver(w, ev) => At(s, w, Enter(ev)).(armed := Disarmed)
    case TakeSend(w) => At(s, w, CmdSend).(cmdSend := s.cmdSend - 1)
    case TakeUnpause(w) => At(s, w, CmdUnpause).(cmdUnpause := s.cmdUnpause - 1)
    case TakeDisconnect(w) => At(s, w, CmdDisconnect).(cmdDisconnect := s.cmdDisconnect - 1)
    case Work(w, ans) => WorkerNext(s, w, ans)
    case CallSend(k, bufs) => s.(senders := s.senders[k := SWait(bufs)])
    case SendStep(k, next) => SenderNext(s, k, next)
    case CallPause(p, b) => s.(pausers := s.pausers[p := PTest(b)])
    case PauseStep(p) => PauserNext(s, p)
    case CallDisconnect => s.(cmdDisconnect := s.cmdDisconnect + 1)
  }

  /** HandleAccept has just registered the socket: AddFD armed it from the length
      and the pause flag. What OnAccept already sent or paused is arbitrary. */
  predicate Init(s: State) {
    && s.valid
    && NonEmptyItems(s.queue)
    && s.armed == Armed(!s.paused, s.queue != [])
    && s.io == IoFree && s.send == SendFree
    && (forall w | 0 <= w < |s.workers| :: s.workers[w] == Idle)
    && (forall k | 0 <= k < |s.senders| :: s.senders[k] == SIdle)
    && (forall p | 0 <= p < |s.pausers| :: s.pausers[p] == PIdle)
    && s.accepted == Flatten(s.queue) == Flatten(s.calls)
    && s.written == [] && s.notified == []
    && s.winners == [] && s.closes == 0 && !s.late
  }

  /** A run: each state follows from the one before by some enabled action. */
  ghost predicate Run(tr: seq<State>) {
    && tr != []
    && Init(tr[0])
    && forall i | 0 < i < |tr| :: StepAt(tr, i)
  }

  ghost predicate Step(s: State, s': State) { exists a :: Enabled(s, a) && s' == Next(s, a) }

  ghost predicate StepAt(tr: seq<State>, i: nat)
    requires 0 < i < |tr|
  {
    Step(tr[i - 1], tr[i])
  }
}

/** What every step of the TCP connection machine keeps.

    The proof is in rely-guarantee style: `WorkerStep` says, without quantifiers,
    what one worker's step may change; it is checked place by place, and then shown
    to keep the parts of the invariant that speak of the other threads. */
module TcpConnectionInvariant {
  import opened Bytes
  import opened TcpConnection

  // ---------------------------------------------------------------- locks

  predicate HoldsIo(pc: Worker) {
    match pc
    case Recv(_, _) | OnReceive(_, _) | SendTest(_) | WaitSend(_) | Drain(_, _) | Write(_, _, _)
       | Fire(_, _, _, _) | OnSend(_, _, _, _) | Closing(_, _) | Closed(_) | Releasing(_)
       | Finish(_) | ReadPaused(_) | Rearm(_, _) | Unlock | Unpausing | KillIo => true
    case _ => false
  }

  predicate HoldsSend(pc: Worker) {
    match pc
    case Drain(_, _) | Write(_, _, _) | Fire(_, _, _, _) | OnSend(_, _, _, _) => true
    case Closing(hold, _) => hold
    case Closed(hold) => hold
    case Releasing(hold) => hold
    case _ => false
  }

  /** Between OnBeforeProcessIo and OnAfterProcessIo, not closing. */
  predicate Handling(pc: Worker) {
    match pc
    case Recv(_, _) | OnReceive(_, _) | SendTest(_) | WaitSend(_) | Drain(_, _) | Write(_, _, _)
       | Fire(_, _, _, _) | OnSend(_, _, _, _) => true
    case _ => false
  }

  predicate InSend(pc: Sender) { pc.SCat? || pc.SPost? || pc.SUnlock? }

  // ---------------------------------------------------------------- validity and closing

  /** Places a thread reaches only while the object is valid: it holds csIo and
      saw the flag set under it. */
  predicate NeedsValid(pc: Worker) {
    HoldsIo(pc) && !pc.Closed? && !pc.Releasing? && !pc.Finish? && !pc.KillIo?
  }

  /** Won the right to close, OnClose not fired yet. */
  predicate BeforeOnClose(pc: Worker) { pc.Closed? || pc.Killed? }

  predicate AfterInvalid(pc: Worker) {
    pc.Closed? || pc.Releasing? || pc.Killed? || pc.KillReleasing?
  }

  predicate WellFormed(pc: Worker) {
    match pc
    case Fire(_, _, item, n) => 1 <= n <= |item|
    case OnSend(_, _, item, n) => 1 <= n <= |item|
    case Closing(hold, item) => hold || item == []
    case _ => true
  }

  predicate OwnsSend(s: State, w: nat) {
    s.send == ByWorker(w) || (s.send.Nested? && s.send.w == w)
  }

  predicate WorkerOk(s: State, w: nat)
    requires w < |s.workers|
  {
    var pc := s.workers[w];
    && (HoldsIo(pc) <==> s.io == IoHeld(w))
    && (HoldsSend(pc) <==> OwnsSend(s, w))
    && (s.send.Nested? && s.send.w == w ==> pc.OnSend?)
    && (NeedsValid(pc) ==> s.valid)
    && (AfterInvalid(pc) ==> !s.valid)
    && (BeforeOnClose(pc) ==> s.winners == [w])
    && WellFormed(pc)
    && (Handling(pc) ==> !pc.ev.err)
    && (pc.Finish? && s.valid ==> !pc.ev.hup && !pc.ev.err)
  }

  predicate SenderOk(s: State, k: nat)
    requires k < |s.senders|
  {
    var pc := s.senders[k];
    && (InSend(pc) <==> (s.send == BySender(k) || (s.send.Nested? && s.send.k == k)))
    && (InSend(pc) ==> s.valid)
    && (pc.SCat? ==> pc.k <= |pc.bufs|)
    && (pc.SCat? && !pc.empty ==> s.queue != [])
    && (pc.SPost? ==> s.queue != [])
  }

  predicate Closer(s: State) {
    && (s.io.IoHeld? ==> s.io.w < |s.workers|)
    && (s.send.ByWorker? || s.send.Nested? ==> s.send.w < |s.workers|)
    && (s.send.BySender? || s.send.Nested? ==> s.send.k < |s.senders|)
    && (s.valid <==> s.winners == [])
    && |s.winners| <= 1
    && (!s.valid ==> s.winners[0] < |s.workers|)
    && s.closes == (if !s.valid && !BeforeOnClose(s.workers[s.winners[0]]) then 1 else 0)
    && !s.late
  }

  // ---------------------------------------------------------------- bytes

  /** What a worker that popped an item has still to write of it. */
  function Remainder(pc: Worker): Item {
    match pc
    case Write(_, _, item) => item
    case Fire(_, _, item, n) => if n <= |item| then item[n..] else []
    case OnSend(_, _, item, n) => if n <= |item| then item[n..] else []
    case Closing(_, item) => item
    case _ => []
  }

  /** What a worker has written and not yet reported. */
  function Unreported(pc: Worker): Item {
    if pc.Fire? && pc.n <= |pc.item| then pc.item[..pc.n] else []
  }

  predicate WorkerOwns(s: State) {
    (s.send.ByWorker? || s.send.Nested?) && s.send.w < |s.workers|
  }

  /** Bytes popped by the owner of the send lock and not yet written. */
  function Held(s: State): Item {
    if WorkerOwns(s) then Remainder(s.workers[s.send.w]) else []
  }

  function HeldUnreported(s: State): Item {
    if WorkerOwns(s) then Unreported(s.workers[s.send.w]) else []
  }

  /** The part of a running SendPackets call that is already in the queue. */
  function Partial(pc: Sender): Item {
    match pc
    case SCat(bufs, i, _) => if i <= |bufs| then Flatten(bufs[..i]) else []
    case SPost(bufs) => Flatten(bufs)
    case SUnlock(bufs) => Flatten(bufs)
    case _ => []
  }

  function CurrentCall(s: State): Item {
    if (s.send.BySender? || s.send.Nested?) && s.send.k < |s.senders|
    then Partial(s.senders[s.send.k]) else []
  }

  predicate Content(s: State) {
    && NonEmptyItems(s.queue)
    && s.accepted == Flatten(s.calls) + CurrentCall(s)
    && s.written == s.notified + HeldUnreported(s)
    && (s.valid ==> s.accepted == s.written + (Held(s) + Flatten(s.queue)))
    && s.written <= s.accepted
  }

  // ---------------------------------------------------------------- wakeups

  predicate Pending(s: State) { s.queue != [] || Held(s) != [] }

  /** A worker that, if the object stays valid, will still read the length before it
      re-arms (or has read a non-zero one), or is about to invalidate the object. */
  predicate WillSend(pc: Worker) {
    match pc
    case Enter(_) | WaitIo(_) | Finish(_) | Closing(_, _) | CmdSend | CmdUnpause | Unpausing
       | CmdDisconnect | Kill | KillIo => true
    case ReadPaused(out) => out
    case Rearm(out, _) => out
    case _ => Handling(pc)
  }

  /** The same for the pause flag. A popped DISP_CMD_SEND may still be dropped. */
  predicate WillRead(pc: Worker) {
    match pc
    case Enter(_) | WaitIo(_) | Finish(_) | Closing(_, _) | ReadPaused(_) | CmdUnpause | Unpausing
       | CmdDisconnect | Kill | KillIo => true
    case Rearm(_, inn) => inn
    case _ => Handling(pc)
  }

  /** A SendPackets call that found the queue empty and has not queued its command yet. */
  predicate WillPost(pc: Sender) { (pc.SCat? && pc.empty) || pc.SPost? }

  ghost predicate SomeWorkerSends(s: State) { exists w | 0 <= w < |s.workers| :: WillSend(s.workers[w]) }
  ghost predicate SomeSenderPosts(s: State) { exists k | 0 <= k < |s.senders| :: WillPost(s.senders[k]) }
  ghost predicate SomeWorkerReads(s: State) { exists w | 0 <= w < |s.workers| :: WillRead(s.workers[w]) }
  ghost predicate SomePauserPosts(s: State) { exists p | 0 <= p < |s.pausers| :: s.pausers[p].PPost? }

  /** Something other than the registration will send (will read). */
  ghost predicate SendOwed(s: State) { s.cmdSend > 0 || SomeWorkerSends(s) || SomeSenderPosts(s) }
  ghost predicate ReadOwed(s: State) { s.cmdUnpause > 0 || SomeWorkerReads(s) || SomePauserPosts(s) }

  /** A worker about to re-arm without EPOLLOUT (or EPOLLIN): the present
      registration is no promise then. */
  predicate DropsOut(pc: Worker) { (pc.ReadPaused? && !pc.out) || (pc.Rearm? && !pc.out) }
  predicate DropsIn(pc: Worker) { pc.Rearm? && !pc.inn }

  ghost predicate OutKept(s: State) {
    s.armed.Armed? && s.armed.out && forall w | 0 <= w < |s.workers| :: !DropsOut(s.workers[w])
  }
  ghost predicate InKept(s: State) {
    s.armed.Armed? && s.armed.inn && forall w | 0 <= w < |s.workers| :: !DropsIn(s.workers[w])
  }

  ghost predicate SendAwake(s: State) { s.valid && Pending(s) ==> SendOwed(s) || OutKept(s) }
  ghost predicate ReadAwake(s: State) { s.valid && !s.paused ==> ReadOwed(s) || InKept(s) }

  ghost predicate WorkersOk(s: State) { forall w | 0 <= w < |s.workers| :: WorkerOk(s, w) }
  ghost predicate SendersOk(s: State) { forall k | 0 <= k < |s.senders| :: SenderOk(s, k) }

  ghost predicate Inv(s: State) {
    WorkersOk(s) && SendersOk(s) && Closer(s) && Content(s) && SendAwake(s) && ReadAwake(s)
  }

  lemma InitInv(s: State)
    requires Init(s)
    ensures Inv(s)
  {
  }

  // ---------------------------------------------------------------- one worker step

  /** What a step of worker `w` may do to the shared state. */
  predicate WorkerStep(s: State, w: nat, s': State)
    requires w < |s.workers|
  {
    && |s'.workers| == |s.workers|
    && s'.workers == s.workers[w := s'.workers[w]]
    && s'.senders == s.senders && s'.pausers == s.pausers
    && s'.cmdSend == s.cmdSend && s'.cmdUnpause == s.cmdUnpause
    && s'.accepted == s.accepted && s'.calls == s.calls && s'.paused == s.paused
    && WorkerOk(s', w)
    && LockStep(s, w, s')
    && ValidStep(s, w, s')
  }

  predicate LockStep(s: State, w: nat, s': State) {
    && (s'.io == s.io || ((s.io.IoFree? || s.io == IoHeld(w)) && (s'.io.IoFree? || s'.io == IoHeld(w))))
    && (s'.send == s.send
        || ((s.send.SendFree? || s.send == ByWorker(w)) && (s'.send.SendFree? || s'.send == ByWorker(w))))
  }

  predicate ValidStep(s: State, w: nat, s': State)
    requires w < |s.workers| == |s'.workers|
  {
    var pc, pc' := s.workers[w], s'.workers[w];
    && !s'.late
    && (s'.valid ==> s.valid)
    && (s.valid && !s'.valid ==>
          && s.io == IoHeld(w) && (s.send.SendFree? || s.send == ByWorker(w))
          && s'.winners == [w] && s'.closes == s.closes && BeforeOnClose(pc'))
    && (s.valid == s'.valid ==>
          && s'.winners == s.winners
          && (if BeforeOnClose(pc) && !BeforeOnClose(pc') then s'.closes == s.closes + 1
              else s'.closes == s.closes && BeforeOnClose(pc) == BeforeOnClose(pc')))
  }

  /** What a step of `w` does to the bytes: while the object stays valid none is lost
      or reordered, and what is not in the hands of `w` is not touched. */
  predicate ByteStep(s: State, w: nat, s': State)
    requires w < |s.workers| == |s'.workers|
  {
    var pc, pc' := s.workers[w], s'.workers[w];
    && NonEmptyItems(s'.queue)
    && s.written <= s'.written
    && (s'.written != s.written ==> s'.valid)
    && (s'.valid ==> s'.written + (Remainder(pc') + Flatten(s'.queue)) == s.written + (Remainder(pc) + Flatten(s.queue)))
    && (s'.valid && s.send != ByWorker(w) ==> s'.queue == s.queue && s'.written == s.written)
    && (s.written == s.notified + Unreported(pc) ==> s'.written == s'.notified + Unreported(pc'))
    && (!OwnsSend(s, w) ==> s'.notified == s.notified && s'.written == s.written)
    && (Remainder(pc) != [] || Unreported(pc) != [] ==> OwnsSend(s, w))
    && (Remainder(pc') != [] || Unreported(pc') != [] ==> OwnsSend(s', w))
  }

  /** How a step of `w` may stop being a promise to send or to read. */
  predicate WakeStep(s: State, w: nat, s': State)
    requires w < |s.workers| == |s'.workers|
  {
    var pc, pc' := s.workers[w], s'.workers[w];
    && (s'.armed != s.armed ==> pc.Rearm? && s'.armed == Armed(pc.inn, pc.out))
    && (s'.valid && WillSend(pc) && !WillSend(pc') ==> s'.queue == [] || (pc.Rearm? && pc.out && pc'.Unlock?))
    && (s'.valid && !WillSend(pc) ==> s'.queue == s.queue)
    && (DropsOut(pc') && !WillSend(pc) ==> DropsOut(pc))
    && (s'.valid && WillRead(pc) && !WillRead(pc') ==> s'.paused || (pc.Rearm? && pc.inn && pc'.Unlock?))
    && (DropsIn(pc') && !WillRead(pc) ==> DropsIn(pc))
    && (pc.Rearm? ==> pc'.Unlock? && s'.armed == Armed(pc.inn, pc.out))
  }

  predicate Facts(s: State, w: nat, s': State)
    requires w < |s.workers|
  {
    WorkerStep(s, w, s') && ByteStep(s, w, s') && WakeStep(s, w, s')
  }

  predicate Local(s: State, w: nat)
    requires w < |s.workers|
  {
    WorkerOk(s, w) && Closer(s) && NonEmptyItems(s.queue)
  }

  lemma EntryFacts(s: State, w: nat)
    requires w < |s.workers| && Local(s, w)
    requires s.workers[w].Enter? || s.workers[w].WaitIo?
    ensures Facts(s, w, EntryNext(s, w))
  {
  }

  lemma ReceiveStep(s: State, w: nat, ans: Answer)
    requires w < |s.workers| && Local(s, w)
    requires s.workers[w].Recv? || s.workers[w].OnReceive?
    ensures WorkerStep(s, w, ReceiveNext(s, w, ans))
  {
  }

  lemma ReceiveBytes(s: State, w: nat, ans: Answer)
    requires w < |s.workers| && Local(s, w)
    requires s.workers[w].Recv? || s.workers[w].OnReceive?
    ensures ByteStep(s, w, ReceiveNext(s, w, ans))
  {
  }

  lemma ReceiveWake(s: State, w: nat, ans: Answer)
    requires w < |s.workers| && Local(s, w)
    requires s.workers[w].Recv? || s.workers[w].OnReceive?
    ensures WakeStep(s, w, ReceiveNext(s, w, ans))
  {
  }

  lemma ReceiveFacts(s: State, w: nat, ans: Answer)
    requires w < |s.workers| && Local(s, w)
    requires s.workers[w].Recv? || s.workers[w].OnReceive?
    ensures Facts(s, w, ReceiveNext(s, w, ans))
  {
    ReceiveStep(s, w, ans); ReceiveBytes(s, w, ans); ReceiveWake(s, w, ans);
  }

  lemma SendTestStep(s: State, w: nat)
    requires w < |s.workers| && Local(s, w)
    requires s.workers[w].SendTest? || s.workers[w].WaitSend?
    ensures WorkerStep(s, w, DrainNext(s, w))
  {
  }

  lemma SendTestBytes(s: State, w: nat)
    requires w < |s.workers| && Local(s, w)
    requires s.workers[w].SendTest? || s.workers[w].WaitSend?
    ensures ByteStep(s, w, DrainNext(s, w))
  {
  }

  lemma SendTestWake(s: State, w: nat)
    requires w < |s.workers| && Local(s, w)
    requires s.workers[w].SendTest? || s.workers[w].WaitSend?
    ensures WakeStep(s, w, DrainNext(s, w))
  {
  }

  lemma SendTestFacts(s: State, w: nat)
    requires w < |s.workers| && Local(s, w)
    requires s.workers[w].SendTest? || s.workers[w].WaitSend?
    ensures Facts(s, w, DrainNext(s, w))
  {
    SendTestStep(s, w); SendTestBytes(s, w); SendTestWake(s, w);
  }

  lemma DrainStep(s: State, w: nat)
    requires w < |s.workers| && Local(s, w)
    requires s.workers[w].Drain?
    ensures WorkerStep(s, w, DrainNext(s, w))
  {
  }

  lemma DrainBytes(s: State, w: nat)
    requires w < |s.workers| && Local(s, w)
    requires s.workers[w].Drain?
    ensures ByteStep(s, w, DrainNext(s, w))
  {
  }

  lemma DrainWake(s: State, w: nat)
    requires w < |s.workers| && Local(s, w)
    requires s.workers[w].Drain?
    ensures WakeStep(s, w, DrainNext(s, w))
  {
  }

  lemma DrainFacts(s: State, w: nat)
    requires w < |s.workers| && Local(s, w)
    requires s.workers[w].Drain?
    ensures Facts(s, w, DrainNext(s, w))
  {
    DrainStep(s, w); DrainBytes(s, w); DrainWake(s, w);
  }

  lemma WriteStep(s: State, w: nat, ans: Answer)
    requires w < |s.workers| && Local(s, w)
    requires s.workers[w].Write?
    ensures WorkerStep(s, w, ItemNext(s, w, ans))
  {
  }

  lemma WroteSome(s: State, w: nat, ev: Events, i: nat, item: Item, n: nat, s': State)
    requires w < |s.workers| && Local(s, w) && s.workers[w] == Write(ev, i, item) && 1 <= n <= |item|
    requires s' == At(s, w, Fire(ev, i, item, n)).(written := s.written + item[..n])
    ensures ByteStep(s, w, s')
  {
    assert (s.written + item[..n]) + (item[n..] + Flatten(s.queue)) == s.written + (item + Flatten(s.queue));
  }

  lemma WroteNothing(s: State, w: nat, ev: Events, i: nat, item: Item, s': State)
    requires w < |s.workers| && Local(s, w) && s.workers[w] == Write(ev, i, item) && item != []
    requires s' == At(s, w, AfterWrite(ev)).(queue := [item] + s.queue, send := SendFree)
    ensures ByteStep(s, w, s')
  {
    FlattenCons(item, s.queue);
    assert [] + (item + Flatten(s.queue)) == item + Flatten(s.queue);
  }

  lemma WriteEnds(s: State, w: nat, ans: Answer)
    requires w < |s.workers| && Local(s, w)
    requires s.workers[w].Write? && (s.workers[w].item == [] || (!ans.Count? && !ans.WouldBlock?))
    ensures ByteStep(s, w, ItemNext(s, w, ans))
  {
  }

  lemma WriteBytes(s: State, w: nat, ans: Answer)
    requires w < |s.workers| && Local(s, w)
    requires s.workers[w].Write?
    ensures ByteStep(s, w, ItemNext(s, w, ans))
  {
    var Write(ev, i, item) := s.workers[w];
    if item == [] {
      WriteEnds(s, w, ans);
    } else {
      match ans
      case Count(n) => if 1 <= n <= |item| { WroteSome(s, w, ev, i, item, n, ItemNext(s, w, ans)); }
      case WouldBlock => WroteNothing(s, w, ev, i, item, ItemNext(s, w, ans));
      case _ => WriteEnds(s, w, ans);
    }
  }

  lemma WriteWake(s: State, w: nat, ans: Answer)
    requires w < |s.workers| && Local(s, w)
    requires s.workers[w].Write?
    ensures WakeStep(s, w, ItemNext(s, w, ans))
  {
  }

  lemma WriteFacts(s: State, w: nat, ans: Answer)
    requires w < |s.workers| && Local(s, w)
    requires s.workers[w].Write?
    ensures Facts(s, w, ItemNext(s, w, ans))
  {
    WriteStep(s, w, ans); WriteBytes(s, w, ans); WriteWake(s, w, ans);
  }

  lemma OnSendFacts(s: State, w: nat, ans: Answer)
    requires w < |s.workers| && Local(s, w)
    requires s.workers[w].Fire? || s.workers[w].OnSend?
    ensures Facts(s, w, ItemNext(s, w, ans))
  {
  }

  lemma CloseStep(s: State, w: nat)
    requires w < |s.workers| && Local(s, w)
    requires s.workers[w].Closing? || s.workers[w].Closed? || s.workers[w].Releasing?
    ensures WorkerStep(s, w, CloseNext(s, w))
  {
  }

  lemma CloseBytes(s: State, w: nat)
    requires w < |s.workers| && Local(s, w)
    requires s.workers[w].Closing? || s.workers[w].Closed? || s.workers[w].Releasing?
    ensures ByteStep(s, w, CloseNext(s, w))
  {
  }

  lemma CloseWake(s: State, w: nat)
    requires w < |s.workers| && Local(s, w)
    requires s.workers[w].Closing? || s.workers[w].Closed? || s.workers[w].Releasing?
    ensures WakeStep(s, w, CloseNext(s, w))
  {
  }

  lemma CloseFacts(s: State, w: nat)
    requires w < |s.workers| && Local(s, w)
    requires s.workers[w].Closing? || s.workers[w].Closed? || s.workers[w].Releasing?
    ensures Facts(s, w, CloseNext(s, w))
  {
    CloseStep(s, w); CloseBytes(s, w); CloseWake(s, w);
  }

  lemma AfterStep(s: State, w: nat)
    requires w < |s.workers| && Local(s, w)
    requires s.workers[w].Finish? || s.workers[w].ReadPaused? || s.workers[w].Rearm? || s.workers[w].Unlock?
    ensures WorkerStep(s, w, AfterNext(s, w))
  {
  }

  lemma AfterBytes(s: State, w: nat)
    requires w < |s.workers| && Local(s, w)
    requires s.workers[w].Finish? || s.workers[w].ReadPaused? || s.workers[w].Rearm? || s.workers[w].Unlock?
    ensures ByteStep(s, w, AfterNext(s, w))
  {
  }

  lemma AfterWake(s: State, w: nat)
    requires w < |s.workers| && Local(s, w)
    requires s.workers[w].Finish? || s.workers[w].ReadPaused? || s.workers[w].Rearm? || s.workers[w].Unlock?
    ensures WakeStep(s, w, AfterNext(s, w))
  {
  }

  lemma AfterFacts(s: State, w: nat)
    requires w < |s.workers| && Local(s, w)
    requires s.workers[w].Finish? || s.workers[w].ReadPaused? || s.workers[w].Rearm? || s.workers[w].Unlock?
    ensures Facts(s, w, AfterNext(s, w))
  {
    AfterStep(s, w); AfterBytes(s, w); AfterWake(s, w);
  }

  lemma CommandFacts(s: State, w: nat, ans: Answer)
    requires w < |s.workers| && Local(s, w)
    requires s.workers[w].CmdSend? || s.workers[w].CmdDisconnect?
    ensures Facts(s, w, CommandNext(s, w, ans))
  {
  }

  lemma UnpauseStep(s: State, w: nat, ans: Answer)
    requires w < |s.workers| && Local(s, w)
    requires s.workers[w].CmdUnpause? || s.workers[w].Unpausing?
    ensures WorkerStep(s, w, CommandNext(s, w, ans))
  {
  }

  lemma UnpauseBytes(s: State, w: nat, ans: Answer)
    requires w < |s.workers| && Local(s, w)
    requires s.workers[w].CmdUnpause? || s.workers[w].Unpausing?
    ensures ByteStep(s, w, CommandNext(s, w, ans))
  {
  }

  lemma UnpauseWake(s: State, w: nat, ans: Answer)
    requires w < |s.workers| && Local(s, w)
    requires s.workers[w].CmdUnpause? || s.workers[w].Unpausing?
    ensures WakeStep(s, w, CommandNext(s, w, ans))
  {
  }

  lemma UnpauseFacts(s: State, w: nat, ans: Answer)
    requires w < |s.workers| && Local(s, w)
    requires s.workers[w].CmdUnpause? || s.workers[w].Unpausing?
    ensures Facts(s, w, CommandNext(s, w, ans))
  {
    UnpauseStep(s, w, ans); UnpauseBytes(s, w, ans); UnpauseWake(s, w, ans);
  }

  lemma KillStep(s: State, w: nat)
    requires w < |s.workers| && Local(s, w)
    requires s.workers[w].Kill? || s.workers[w].KillIo?
    ensures WorkerStep(s, w, KillNext(s, w))
  {
  }

  lemma KillBytes(s: State, w: nat)
    requires w < |s.workers| && Local(s, w)
    requires s.workers[w].Kill? || s.workers[w].KillIo?
    ensures ByteStep(s, w, KillNext(s, w))
  {
  }

  lemma KillWake(s: State, w: nat)
    requires w < |s.workers| && Local(s, w)
    requires s.workers[w].Kill? || s.workers[w].KillIo?
    ensures WakeStep(s, w, KillNext(s, w))
  {
  }

  lemma KillFacts(s: State, w: nat)
    requires w < |s.workers| && Local(s, w)
    requires s.workers[w].Kill? || s.workers[w].KillIo?
    ensures Facts(s, w, KillNext(s, w))
  {
    KillStep(s, w); KillBytes(s, w); KillWake(s, w);
  }

  lemma KilledFacts(s: State, w: nat)
    requires w < |s.workers| && Local(s, w)
    requires s.workers[w].Killed? || s.workers[w].KillReleasing?
    ensures Facts(s, w, KillNext(s, w))
  {
  }

  lemma WorkFacts(s: State, w: nat, ans: Answer)
    requires w < |s.workers| && Local(s, w) && !s.workers[w].Idle?
    ensures Facts(s, w, WorkerNext(s, w, ans))
  {
    match s.workers[w]
    case Idle =>
    case Enter(_) | WaitIo(_) => EntryFacts(s, w);
    case Recv(_, _) | OnReceive(_, _) => ReceiveFacts(s, w, ans);
    case SendTest(_) | WaitSend(_) => SendTestFacts(s, w);
    case Drain(_, _) => DrainFacts(s, w);
    case Write(_, _, _) => WriteFacts(s, w, ans);
    case Fire(_, _, _, _) | OnSend(_, _, _, _) => OnSendFacts(s, w, ans);
    case Closing(_, _) | Closed(_) | Releasing(_) => CloseFacts(s, w);
    case Finish(_) | ReadPaused(_) | Rearm(_, _) | Unlock => AfterFacts(s, w);
    case CmdSend | CmdDisconnect => CommandFacts(s, w, ans);
    case CmdUnpause | Unpausing => UnpauseFacts(s, w, ans);
    case Kill | KillIo => KillFacts(s, w);
    case Killed | KillReleasing => KilledFacts(s, w);
  }

  // ---------------------------------------------------------------- ... keeps what others rely on

  lemma OtherWorkersKept(s: State, w: nat, s': State)
    requires Inv(s) && w < |s.workers| && WorkerStep(s, w, s')
    ensures WorkersOk(s')
  {
    forall v | 0 <= v < |s'.workers| ensures WorkerOk(s', v) {
      assert WorkerOk(s, v) && WorkerOk(s, w);
    }
  }

  lemma SendersKept(s: State, w: nat, s': State)
    requires Inv(s) && w < |s.workers| && WorkerStep(s, w, s') && ByteStep(s, w, s')
    ensures SendersOk(s')
  {
    forall k | 0 <= k < |s'.senders| ensures SenderOk(s', k) {
      assert SenderOk(s, k) && WorkerOk(s, w);
    }
  }

  lemma CloserKept(s: State, w: nat, s': State)
    requires Inv(s) && w < |s.workers| && WorkerStep(s, w, s')
    ensures Closer(s')
  {
    assert WorkerOk(s, w);
  }

  lemma ContentKept(s: State, w: nat, s': State)
    requires Inv(s) && w < |s.workers| && WorkerStep(s, w, s') && ByteStep(s, w, s')
    ensures Content(s')
  {
    assert WorkerOk(s, w) && WorkerOk(s', w);
    if OwnsSend(s, w) || OwnsSend(s', w) {
      OwnedHeld(s, w);
      OwnedHeld(s', w);
    } else {
      assert s'.send == s.send;
      assert Held(s') == Held(s) && HeldUnreported(s') == HeldUnreported(s);
    }
  }

  lemma OwnedHeld(s: State, w: nat)
    requires w < |s.workers|
    requires OwnsSend(s, w) || s.send.SendFree?
    requires Remainder(s.workers[w]) != [] || Unreported(s.workers[w]) != [] ==> OwnsSend(s, w)
    ensures Held(s) == Remainder(s.workers[w]) && HeldUnreported(s) == Unreported(s.workers[w])
  {
  }

  // ---------------------------------------------------------------- ... and loses no wakeup

  /** A popped item is in the hands of a worker that will still read the length. */
  lemma HeldIsOwed(s: State)
    requires WorkersOk(s) && s.valid && Held(s) != []
    ensures SomeWorkerSends(s)
  {
    assert WorkerOk(s, s.send.w);
    assert WillSend(s.workers[s.send.w]);
  }

  lemma SendAwakeKept(s: State, w: nat, s': State)
    requires Inv(s) && w < |s.workers| && Facts(s, w, s') && WorkersOk(s')
    ensures SendAwake(s')
  {
    var pc, pc' := s.workers[w], s'.workers[w];
    if s'.valid && Pending(s') {
      if Held(s') != [] {
        HeldIsOwed(s');
      } else if WillSend(pc') {
        assert SomeWorkerSends(s');
      } else if WillSend(pc) {
        forall v | 0 <= v < |s'.workers| ensures !DropsOut(s'.workers[v]) {
          assert WorkerOk(s', v) && WorkerOk(s', w);
        }
        assert OutKept(s');
      } else {
        SendStaysOwed(s, w, s');
      }
    }
  }

  lemma SendStaysOwed(s: State, w: nat, s': State)
    requires w < |s.workers| && WorkerStep(s, w, s') && WakeStep(s, w, s') && !WillSend(s.workers[w])
    requires SendOwed(s) || OutKept(s)
    ensures SendOwed(s') || OutKept(s')
  {
    if SomeWorkerSends(s) {
      var v :| 0 <= v < |s.workers| && WillSend(s.workers[v]);
      assert WillSend(s'.workers[v]);
    } else if !SendOwed(s) {
      assert !DropsOut(s.workers[w]);
      assert s'.armed == s.armed;
      assert forall v | 0 <= v < |s'.workers| :: !DropsOut(s.workers[v]);
    }
  }

  lemma ReadAwakeKept(s: State, w: nat, s': State)
    requires Inv(s) && w < |s.workers| && Facts(s, w, s') && WorkersOk(s')
    ensures ReadAwake(s')
  {
    var pc, pc' := s.workers[w], s'.workers[w];
    if s'.valid && !s'.paused {
      if WillRead(pc') {
        assert SomeWorkerReads(s');
      } else if WillRead(pc) {
        forall v | 0 <= v < |s'.workers| ensures !DropsIn(s'.workers[v]) {
          assert WorkerOk(s', v) && WorkerOk(s', w);
        }
        assert InKept(s');
      } else {
        ReadStaysOwed(s, w, s');
      }
    }
  }

  lemma ReadStaysOwed(s: State, w: nat, s': State)
    requires w < |s.workers| && WorkerStep(s, w, s') && WakeStep(s, w, s') && !WillRead(s.workers[w])
    requires ReadOwed(s) || InKept(s)
    ensures ReadOwed(s') || InKept(s')
  {
    if SomeWorkerReads(s) {
      var v :| 0 <= v < |s.workers| && WillRead(s.workers[v]);
      assert WillRead(s'.workers[v]);
    } else if !ReadOwed(s) {
      assert !DropsIn(s.workers[w]);
      assert s'.armed == s.armed;
      assert forall v | 0 <= v < |s'.workers| :: !DropsIn(s.workers[v]);
    }
  }

  lemma WorkKept(s: State, w: nat, ans: Answer)
    requires Inv(s) && w < |s.workers|
    ensures Inv(WorkerNext(s, w, ans))
  {
    if !s.workers[w].Idle? {
      var s' := WorkerNext(s, w, ans);
      assert WorkerOk(s, w);
      WorkFacts(s, w, ans);
      OtherWorkersKept(s, w, s');
      SendersKept(s, w, s');
      CloserKept(s, w, s');
      ContentKept(s, w, s');
      SendAwakeKept(s, w, s');
      ReadAwakeKept(s, w, s');
    }
  }
}

/** What the handlers of a connection do and do not do, told from the places its workers
    pass in a run. */
module TcpHandlers {
  import opened Bytes
  import opened TcpConnection
  import opened TcpConnectionInvariant
  import opened TcpConnectionTheorems

  // ---------------------------------------------------------------- the moves of a worker

  /** The socket or the listener ends the connection. */
  predicate IsFatal(pc: Worker, ans: Answer) {
    || (pc.Recv? && (ans.Eof? || ans.Fail?))
    || (pc.OnReceive? && ans.HrError?)
    || (pc.Write? && pc.item != [] && ans.Fail?)
  }

  /** The listener refuses a packet that was delivered for an unpause command. */
  predicate Refuses(pc: Worker, ans: Answer) { pc.Unpausing? && ans.HrError? }

  /** HandleReceive has read enough: paused, at its limit, or nothing more to read. */
  predicate ReadEnds(s: State, pc: Worker, ans: Answer) {
    pc.Recv? && (s.paused || (!pc.ev.hup && pc.i >= 30) || ans.WouldBlock?)
  }

  /** HandleSend has written enough: nothing queued, at its limit, or the socket full. */
  predicate WriteEnds(s: State, pc: Worker, ans: Answer) {
    || (pc.SendTest? && s.queue == [])
    || (pc.Drain? && (s.queue == [] || (!pc.ev.hup && pc.i >= 50)))
    || (pc.Write? && pc.item != [] && ans.WouldBlock?)
  }

  /** End of file, a failed read or write, a refusal by the listener, an event of error, or
      one of hang-up whose reads and writes are done. */
  predicate HasCause(s: State, pc: Worker, ans: Answer) {
    || IsFatal(pc, ans)
    || (pc.WaitIo? && pc.ev.err)
    || (pc.WaitIo? && pc.ev.hup && !pc.ev.inn && !pc.ev.out)
    || (ReadEnds(s, pc, ans) && pc.ev.hup && !pc.ev.out)
    || (WriteEnds(s, pc, ans) && pc.ev.hup)
  }

  /** How a worker comes to a place in a command, HandleReceive, HandleSend or
      AddFreeSocketObj. */
  predicate ComesRightly(s: State, pc: Worker, ans: Answer, pc': Worker) {
    match pc'
    case Enter(ev) =>
      || pc.Idle?
      || (pc == CmdSend && ev == EV_SEND && s.valid && s.queue != [])
      || (pc == CmdUnpause && ev == EV_UNPAUSE && s.valid && ans == HrOk)
      || (pc == Unpausing && ev == EV_UNPAUSE && ans == HrOk)
      || (pc == CmdDisconnect && ev == EV_DISCONNECT && s.valid)
    case WaitIo(ev) => pc == Enter(ev) && s.valid
    case Unpausing => pc == CmdUnpause && s.valid && s.io == IoFree
    case Kill => Refuses(pc, ans)
    case KillIo => pc == Kill && s.valid && s.io == IoFree
    case Recv(ev, i) =>
      || (i == 0 && pc == WaitIo(ev) && ev.inn && !ev.err && s.valid && s.io == IoFree)
      || (i > 0 && pc == OnReceive(ev, i - 1) && ans == HrOk)
    case OnReceive(ev, i) => pc == Recv(ev, i) && !s.paused && (ev.hup || i < 30) && ans.Count?
    case SendTest(ev) =>
      ev.out && ((pc == WaitIo(ev) && !ev.inn && !ev.err && s.valid) || (ReadEnds(s, pc, ans) && pc.ev == ev))
    case WaitSend(ev) => pc == SendTest(ev) && s.queue != []
    case Drain(ev, i) =>
      (i == 0 && pc == WaitSend(ev) && s.send == SendFree) || (i > 0 && pc == Write(ev, i - 1, []))
    case Write(ev, i, item) =>
      || (pc == Drain(ev, i) && (ev.hup || i < 50) && s.queue != [] && item == s.queue[0])
      || (pc.OnSend? && pc.ev == ev && pc.i == i && pc.n <= |pc.item| && item == pc.item[pc.n..])
    case Fire(ev, i, item, n) => pc == Write(ev, i, item) && ans == Count(n) && 1 <= n <= |item|
    case OnSend(ev, i, item, n) => pc == Fire(ev, i, item, n)
    case Closing(_, _) => HasCause(s, pc, ans)
    case Finish(ev) =>
      || pc.Releasing?
      || (pc == WaitIo(ev) && !(ev.inn || ev.out || ev.hup || ev.err))
      || (ReadEnds(s, pc, ans) && pc.ev == ev && !ev.hup && !ev.out)
      || (WriteEnds(s, pc, ans) && pc.ev == ev && !ev.hup)
    case _ => true
  }

  lemma EntryComes(s: State, w: nat, ans: Answer)
    requires w < |s.workers| && (s.workers[w].Enter? || s.workers[w].WaitIo?)
    ensures Comes(s, w, ans, EntryNext(s, w))
  {
  }

  /** The worker stays, or comes rightly to where it is then. */
  predicate Comes(s: State, w: nat, ans: Answer, s': State)
    requires w < |s.workers|
  {
    |s'.workers| == |s.workers| && (s'.workers[w] == s.workers[w] || ComesRightly(s, s.workers[w], ans, s'.workers[w]))
  }

  lemma ReceiveComes(s: State, w: nat, ans: Answer)
    requires w < |s.workers| && (s.workers[w].Recv? || s.workers[w].OnReceive?)
    ensures Comes(s, w, ans, ReceiveNext(s, w, ans))
  {
    match s.workers[w]
    case Recv(_, _) =>
    case _ =>
  }

  lemma LockComes(s: State, w: nat, ans: Answer)
    requires w < |s.workers| && (s.workers[w].SendTest? || s.workers[w].WaitSend?)
    ensures Comes(s, w, ans, DrainNext(s, w))
  {
    match s.workers[w]
    case SendTest(_) =>
    case _ =>
  }

  lemma PopComes(s: State, w: nat, ans: Answer)
    requires w < |s.workers| && s.workers[w].Drain? && !WriteEnds(s, s.workers[w], ans)
    ensures Comes(s, w, ans, DrainNext(s, w))
  {
  }

  lemma LeaveComes(s: State, w: nat, ans: Answer)
    requires w < |s.workers| && s.workers[w].Drain? && WriteEnds(s, s.workers[w], ans)
    ensures Comes(s, w, ans, DrainNext(s, w))
  {
  }

  lemma WriteComes(s: State, w: nat, ans: Answer)
    requires w < |s.workers| && s.workers[w].Write?
    ensures Comes(s, w, ans, ItemNext(s, w, ans))
  {
  }

  lemma ItemComes(s: State, w: nat, ans: Answer)
    requires w < |s.workers| && (s.workers[w].Fire? || s.workers[w].OnSend?)
    ensures Comes(s, w, ans, ItemNext(s, w, ans))
  {
    match s.workers[w]
    case Fire(_, _, _, _) =>
    case _ =>
  }

  lemma CloseComes(s: State, w: nat, ans: Answer)
    requires w < |s.workers| && (s.workers[w].Closing? || s.workers[w].Closed? || s.workers[w].Releasing?)
    ensures Comes(s, w, ans, CloseNext(s, w))
  {
  }

  lemma AfterComes(s: State, w: nat, ans: Answer)
    requires w < |s.workers| && (s.workers[w].Finish? || s.workers[w].ReadPaused? || s.workers[w].Rearm? || s.workers[w].Unlock?)
    ensures Comes(s, w, ans, AfterNext(s, w))
  {
    match s.workers[w]
    case Finish(_) =>
    case ReadPaused(_) =>
    case _ =>
  }

  lemma CommandComes(s: State, w: nat, ans: Answer)
    requires w < |s.workers|
    requires s.workers[w].CmdSend? || s.workers[w].CmdUnpause? || s.workers[w].Unpausing? || s.workers[w].CmdDisconnect?
    ensures Comes(s, w, ans, CommandNext(s, w, ans))
  {
    match s.workers[w]
    case CmdSend =>
    case CmdUnpause =>
    case Unpausing =>
    case _ =>
  }

  lemma KillComes(s: State, w: nat, ans: Answer)
    requires w < |s.workers| && (s.workers[w].Kill? || s.workers[w].KillIo? || s.workers[w].Killed? || s.workers[w].KillReleasing?)
    ensures Comes(s, w, ans, KillNext(s, w))
  {
    match s.workers[w]
    case Kill =>
    case KillIo =>
    case _ =>
  }

  lemma WorkComes(s: State, w: nat, ans: Answer)
    requires w < |s.workers|
    ensures Comes(s, w, ans, WorkerNext(s, w, ans))
  {
    match s.workers[w]
    case Idle =>
    case Enter(_) | WaitIo(_) => EntryComes(s, w, ans);
    case Recv(_, _) | OnReceive(_, _) => ReceiveComes(s, w, ans);
    case SendTest(_) | WaitSend(_) => LockComes(s, w, ans);
    case Drain(_, _) => if WriteEnds(s, s.workers[w], ans) { LeaveComes(s, w, ans); } else { PopComes(s, w, ans); }
    case Write(_, _, _) => WriteComes(s, w, ans);
    case Fire(_, _, _, _) | OnSend(_, _, _, _) => ItemComes(s, w, ans);
    case Closing(_, _) | Closed(_) | Releasing(_) => CloseComes(s, w, ans);
    case Finish(_) | ReadPaused(_) | Rearm(_, _) | Unlock => AfterComes(s, w, ans);
    case CmdSend | CmdUnpause | Unpausing | CmdDisconnect => CommandComes(s, w, ans);
    case Kill | KillIo | Killed | KillReleasing => KillComes(s, w, ans);
  }

  /** The move of worker `w` in the step to state i, if it moves, and the answer that led to it. */
  lemma RunMoves(tr: seq<State>, i: nat, w: nat) returns (ans: Answer)
    requires Run(tr) && 0 < i < |tr| && w < |tr[i - 1].workers|
    ensures Comes(tr[i - 1], w, ans, tr[i])
  {
    RunKeepsInv(tr, i - 1);
    assert StepAt(tr, i);
    ans := StepMoves(tr[i - 1], tr[i], w);
  }

  lemma StepMoves(s: State, s': State, w: nat) returns (ans: Answer)
    requires Inv(s) && Step(s, s') && w < |s.workers|
    ensures Comes(s, w, ans, s')
  {
    var a :| Enabled(s, a) && s' == Next(s, a);
    ans := if a.Work? then a.ans else HrOk;
    ActionMoves(s, a, w, ans);
  }

  lemma ActionMoves(s: State, a: Action, w: nat, ans: Answer)
    requires Inv(s) && Enabled(s, a) && w < |s.workers| && (a.Work? ==> ans == a.ans)
    ensures Comes(s, w, ans, Next(s, a))
  {
    if a.Work? {
      if a.w == w { WorkComes(s, w, ans); } else { OtherStays(s, a.w, ans, w); }
    } else if a.Deliver? || a.TakeSend? || a.TakeUnpause? || a.TakeDisconnect? {
      Woken(s, a, w, ans);
    } else if a.SendStep? {
      assert Next(s, a).workers == s.workers;
    }
  }

  lemma OtherStays(s: State, v: nat, ans: Answer, w: nat)
    requires Inv(s) && v < |s.workers| && w < |s.workers| && w != v
    ensures var s' := WorkerNext(s, v, ans); |s'.workers| == |s.workers| && s'.workers[w] == s.workers[w]
  {
    assert WorkerOk(s, v);
    if !s.workers[v].Idle? { WorkFacts(s, v, ans); }
  }

  lemma Woken(s: State, a: Action, w: nat, ans: Answer)
    requires Enabled(s, a) && (a.Deliver? || a.TakeSend? || a.TakeUnpause? || a.TakeDisconnect?) && w < |s.workers|
    ensures Comes(s, w, ans, Next(s, a))
  {
  }

  // ---------------------------------------------------------------- pausing

  /** The worker calls OnReceive between the two states. */
  predicate StartsReceive(s: State, s': State, w: nat) {
    w < |s.workers| && w < |s'.workers| && !s.workers[w].OnReceive? && s'.workers[w].OnReceive?
  }

  /** OnReceive is never called while the pause flag is set... */
  lemma NotReadWhilePaused(tr: seq<State>, i: nat, w: nat)
    requires Run(tr) && i + 1 < |tr| && StartsReceive(tr[i], tr[i + 1], w)
    ensures !tr[i].paused
  {
    var _ := RunMoves(tr, i + 1, w);
  }

  /** ...so while it stays set, a worker that is not in OnReceive does not come to it. */
  lemma {:induction false} StaysUnread(tr: seq<State>, i: nat, j: nat, w: nat)
    requires Run(tr) && i <= j < |tr| && (forall k | i <= k < j :: tr[k].paused)
    requires w < |tr[i].workers| && !tr[i].workers[w].OnReceive?
    ensures w < |tr[j].workers| && !tr[j].workers[w].OnReceive?
    decreases j
  {
    if i < j {
      StaysUnread(tr, i, j - 1, w);
      var _ := RunMoves(tr, j, w);
    }
  }

  // ---------------------------------------------------------------- limits of one visit

  /** How often the worker has called OnReceive since it entered HandleReceive. */
  function Reads(tr: seq<State>, i: nat, w: nat): nat
    requires i < |tr|
  {
    if w >= |tr[i].workers| || !Reading(tr[i].workers[w]) || i == 0 then 0
    else Reads(tr, i - 1, w) + if StartsReceive(tr[i - 1], tr[i], w) then 1 else 0
  }

  /** In HandleReceive it calls OnReceive 30 times at most, if the peer has not hung up. */
  lemma {:induction false} ReadsAreLimited(tr: seq<State>, i: nat, w: nat)
    requires Run(tr) && i < |tr| && w < |tr[i].workers|
    ensures tr[i].workers[w].Recv? ==> Reads(tr, i, w) == tr[i].workers[w].i
    ensures tr[i].workers[w].OnReceive? ==> Reads(tr, i, w) == tr[i].workers[w].i + 1
    ensures tr[i].workers[w].OnReceive? && !tr[i].workers[w].ev.hup ==> Reads(tr, i, w) <= 30
  {
    if i > 0 {
      SameWorkers(tr, i);
      ReadsAreLimited(tr, i - 1, w);
      var _ := RunMoves(tr, i, w);
      if tr[i].workers[w].OnReceive? { LimitKept(tr, i, w); }
    }
  }

  lemma {:induction false} LimitKept(tr: seq<State>, i: nat, w: nat)
    requires Run(tr) && i < |tr| && w < |tr[i].workers|
    ensures tr[i].workers[w].OnReceive? && !tr[i].workers[w].ev.hup ==> tr[i].workers[w].i < 30
  {
    if i > 0 {
      SameWorkers(tr, i);
      LimitKept(tr, i - 1, w);
      var _ := RunMoves(tr, i, w);
    }
  }

  lemma SameWorkers(tr: seq<State>, i: nat)
    requires Run(tr) && 0 < i < |tr|
    ensures |tr[i].workers| == |tr[i - 1].workers|
  {
    if |tr[i - 1].workers| > 0 {
      var _ := RunMoves(tr, i, 0);
    } else {
      assert StepAt(tr, i);
    }
  }

  predicate Reading(pc: Worker) { pc.Recv? || pc.OnReceive? }

  predicate Sends(pc: Worker) { pc.Drain? || pc.Write? || pc.Fire? || pc.OnSend? }

  /** The worker pops an item between the two states. */
  predicate Pops(s: State, s': State, w: nat) {
    w < |s.workers| && w < |s'.workers| && s.workers[w].Drain? && s'.workers[w].Write?
  }

  /** How many items it has popped since it took the send lock. */
  function Items(tr: seq<State>, i: nat, w: nat): nat
    requires i < |tr|
  {
    if w >= |tr[i].workers| || !Sends(tr[i].workers[w]) || i == 0 then 0
    else Items(tr, i - 1, w) + if Pops(tr[i - 1], tr[i], w) then 1 else 0
  }

  /** In HandleSend it pops 50 items at most, if the peer has not hung up. */
  lemma {:induction false} ItemsAreLimited(tr: seq<State>, i: nat, w: nat)
    requires Run(tr) && i < |tr| && w < |tr[i].workers| && Sends(tr[i].workers[w])
    ensures Items(tr, i, w) == tr[i].workers[w].i + if tr[i].workers[w].Drain? then 0 else 1
    ensures !tr[i].workers[w].ev.hup ==> Items(tr, i, w) <= 50
  {
    if i > 0 {
      SameWorkers(tr, i);
      var _ := RunMoves(tr, i, w);
      if Sends(tr[i - 1].workers[w]) { ItemsAreLimited(tr, i - 1, w); }
    }
  }

  predicate LeavesReading(s: State, w: nat, ans: Answer)
    requires w < |s.workers| && Reading(s.workers[w])
  {
    var ws := WorkerNext(s, w, ans).workers; w < |ws| && !Reading(ws[w])
  }

  predicate LeavesSending(s: State, w: nat, ans: Answer)
    requires w < |s.workers| && Sends(s.workers[w])
  {
    var ws := WorkerNext(s, w, ans).workers; w < |ws| && !Sends(ws[w])
  }

  /** A worker that reads goes on until it is paused, at its limit, or has nothing more to
      read, or the connection is to be closed... */
  lemma ReadsOn(s: State, w: nat, ans: Answer)
    requires w < |s.workers| && Reading(s.workers[w]) && LeavesReading(s, w, ans)
    ensures ReadEnds(s, s.workers[w], ans) || IsFatal(s.workers[w], ans)
  {
    if s.workers[w].Recv? {
    } else {
      match ans
      case HrOk =>
      case HrError =>
      case _ =>
    }
  }

  /** ...and one that writes until the queue is empty, it is at its limit, or the socket is
      full, or the connection is to be closed. */
  lemma SendsOn(s: State, w: nat, ans: Answer)
    requires Inv(s) && w < |s.workers| && Sends(s.workers[w]) && LeavesSending(s, w, ans)
    ensures WriteEnds(s, s.workers[w], ans) || IsFatal(s.workers[w], ans)
  {
    assert WorkerOk(s, w);
    if s.workers[w].Drain? {
    } else if s.workers[w].Write? {
      WriteComes(s, w, ans);
    }
  }

  // ---------------------------------------------------------------- closing

  predicate ComesToClose(s: State, w: nat, ans: Answer)
    requires w < |s.workers|
  {
    var ws := WorkerNext(s, w, ans).workers; w < |ws| && ws[w].Closing?
  }

  /** A worker calls AddFreeSocketObj in a handler only for a cause. */
  lemma ClosesForCause(s: State, w: nat, ans: Answer)
    requires w < |s.workers| && !s.workers[w].Closing? && ComesToClose(s, w, ans)
    ensures HasCause(s, s.workers[w], ans)
  {
    WorkComes(s, w, ans);
    CauseOf(s, w, ans, WorkerNext(s, w, ans));
  }

  lemma CauseOf(s: State, w: nat, ans: Answer, s': State)
    requires w < |s.workers| && !s.workers[w].Closing? && Comes(s, w, ans, s') && s'.workers[w].Closing?
    ensures HasCause(s, s.workers[w], ans)
  {
  }

  predicate Ends(pc: Worker) { pc.Closing? || pc.Kill? || pc.KillIo? }

  /** And for such a cause it always does: when the worker is idle again, the connection is
      closed. */
  lemma FatalCloses(tr: seq<State>, i: nat, j: nat, w: nat, ans: Answer)
    requires Run(tr) && i < j < |tr| && w < |tr[i].workers| && tr[i + 1] == WorkerNext(tr[i], w, ans)
    requires IsFatal(tr[i].workers[w], ans) || Refuses(tr[i].workers[w], ans)
    requires tr[i].workers[w].Recv? ==> !tr[i].paused && (tr[i].workers[w].ev.hup || tr[i].workers[w].i < 30)
    requires w < |tr[j].workers| && tr[j].workers[w].Idle?
    ensures !tr[j].valid
  {
    assert w < |tr[i + 1].workers| && Ends(tr[i + 1].workers[w]);
    StaysClosing(tr, i + 1, j, w);
  }

  lemma {:induction false} StaysClosing(tr: seq<State>, i: nat, j: nat, w: nat)
    requires Run(tr) && i <= j < |tr| && w < |tr[i].workers| && Ends(tr[i].workers[w])
    ensures w < |tr[j].workers| && (Ends(tr[j].workers[w]) || !tr[j].valid)
    decreases j
  {
    if i < j {
      StaysClosing(tr, i, j - 1, w);
      SameWorkers(tr, j);
      RunKeepsInv(tr, j - 1);
      assert StepAt(tr, j);
      if tr[j - 1].valid { StepClosing(tr[j - 1], tr[j], w); } else { CloserStays(tr[j - 1], tr[j]); }
    }
  }

  lemma StepClosing(s: State, s': State, w: nat)
    requires Inv(s) && Step(s, s') && w < |s.workers| && Ends(s.workers[w]) && w < |s'.workers|
    ensures Ends(s'.workers[w]) || !s'.valid
  {
    var a :| Enabled(s, a) && s' == Next(s, a);
    ActionClosing(s, a, w);
  }

  lemma ActionClosing(s: State, a: Action, w: nat)
    requires Inv(s) && Enabled(s, a) && w < |s.workers| && Ends(s.workers[w])
    ensures var s' := Next(s, a); w < |s'.workers| && (Ends(s'.workers[w]) || !s'.valid)
  {
    if a.Work? { if a.w == w { OwnClosing(s, w, a.ans); } else { OtherStays(s, a.w, a.ans, w); } }
  }

  lemma OwnClosing(s: State, w: nat, ans: Answer)
    requires w < |s.workers| && Ends(s.workers[w])
    ensures var s' := WorkerNext(s, w, ans); w < |s'.workers| && (Ends(s'.workers[w]) || !s'.valid)
  {
  }

  // ---------------------------------------------------------------- callers of SendPackets

  /** How a caller comes to a place, and what it did on the way. */
  predicate CallerComes(s: State, pc: Sender, s': State, pc': Sender) {
    match pc'
    case SIdle =>
      || (pc.SWait? && !s.valid && s' == s.(senders := s'.senders))
      || (pc.SUnlock? && s'.calls == s.calls + [Flatten(pc.bufs)])
    case SWait(_) => pc.SIdle? && s.valid
    case SCat(bufs, i, empty) =>
      || (i == 0 && pc == SWait(bufs) && s.valid && (empty <==> s.queue == []))
      || (0 < i <= |bufs| && pc == SCat(bufs, i - 1, empty) && s'.accepted == s.accepted + bufs[i - 1])
    case SPost(bufs) => pc == SCat(bufs, |bufs|, true) && s.queue != []
    case SUnlock(bufs) =>
      || (pc == SPost(bufs) && s'.cmdSend == s.cmdSend + 1)
      || (pc.SCat? && pc == SCat(bufs, |bufs|, pc.empty) && !(pc.empty && s.queue != []))
  }

  /** A SendPackets on a valid connection appends its buffers one by one, and posts a command
      if the queue was empty when it took the lock and no longer is; only on an invalid one
      it does nothing. */
  lemma SendComes(s: State, k: nat, next: seq<Item>)
    requires Inv(s) && k < |s.senders|
    ensures var s' := SenderNext(s, k, next);
      |s'.senders| == |s.senders| && (s'.senders[k] == s.senders[k] || CallerComes(s, s.senders[k], s', s'.senders[k]))
  {
    assert SenderOk(s, k);
    match s.senders[k]
    case SWait(_) =>
    case SCat(bufs, i, _) => if i < |bufs| { assert bufs[i] == [] ==> s.accepted + bufs[i] == s.accepted; }
    case _ =>
  }

  // ---------------------------------------------------------------- callers of PauseReceive

  predicate Pausing(pc: Pauser, b: bool) { pc == PTest(b) || pc == PSet(b) }

  /** How a caller comes to a place, and what it did on the way: only one that has cleared the
      flag posts a command. */
  predicate PauserComes(s: State, pc: Pauser, s': State, pc': Pauser) {
    match pc'
    case PIdle =>
      && s'.cmdUnpause == s.cmdUnpause + (if pc.PPost? then 1 else 0)
      && (pc.PPost? || (pc.PTest? && s.paused == pc.pause) || (pc == PSet(true) && s'.paused))
    case PTest(_) => pc.PIdle? && s.valid
    case PSet(b) => pc == PTest(b) && s.paused != b
    case PPost => pc == PSet(false) && !s'.paused
  }

  lemma PauseComes(s: State, p: nat)
    requires p < |s.pausers|
    ensures var s' := PauserNext(s, p);
      |s'.pausers| == |s.pausers| && (s'.pausers[p] == s.pausers[p] || PauserComes(s, s.pausers[p], s', s'.pausers[p]))
  {
    match s.pausers[p]
    case PTest(_) =>
    case PSet(_) =>
    case _ =>
  }

  /** Between two states of a run, a caller that has not set the flag yet stays where it is,
      or goes on to set it, or finds it set. */
  lemma PauserMoves(s: State, s': State, p: nat, b: bool)
    requires Inv(s) && Step(s, s') && p < |s.pausers| && Pausing(s.pausers[p], b)
    ensures p < |s'.pausers| && (Pausing(s'.pausers[p], b) || s.paused == b || s'.paused == b)
  {
    var a :| Enabled(s, a) && s' == Next(s, a);
    if a.PauseStep? { if a.p == p { PauserGoesOn(s, p, b); } } else { PausersStay(s, a); }
  }

  lemma PauserGoesOn(s: State, p: nat, b: bool)
    requires p < |s.pausers| && Pausing(s.pausers[p], b)
    ensures var s' := PauserNext(s, p); p < |s'.pausers| && (Pausing(s'.pausers[p], b) || s.paused == b || s'.paused == b)
  {
  }

  lemma PausersStay(s: State, a: Action)
    requires Inv(s) && Enabled(s, a) && !a.PauseStep?
    ensures var ps := Next(s, a).pausers; |ps| == |s.pausers| && forall p | 0 <= p < |ps| && !s.pausers[p].PIdle? :: ps[p] == s.pausers[p]
  {
    if a.Work? && !s.workers[a.w].Idle? {
      assert WorkerOk(s, a.w);
      WorkFacts(s, a.w, a.ans);
    }
  }

  /** A PauseReceive that has returned took effect: since it was called, the flag has had the
      value asked for. */
  lemma {:induction false} PauseTakesEffect(tr: seq<State>, i: nat, j: nat, p: nat, b: bool) returns (k: nat)
    requires Run(tr) && i <= j < |tr| && p < |tr[i].pausers| && Pausing(tr[i].pausers[p], b)
    requires p < |tr[j].pausers| && tr[j].pausers[p].PIdle?
    ensures i <= k <= j && tr[k].paused == b
    decreases j - i
  {
    RunKeepsInv(tr, i);
    assert StepAt(tr, i + 1);
    PauserMoves(tr[i], tr[i + 1], p, b);
    if tr[i].paused == b {
      k := i;
    } else if tr[i + 1].paused == b {
      k := i + 1;
    } else {
      k := PauseTakesEffect(tr, i + 1, j, p, b);
    }
  }
}

/** Nobody waits for ever: the connection's two locks cannot deadlock, every thread can
    finish what it does, and what is outstanding does lead to sending and to reading. */
module TcpProgress {
  import opened Bytes
  import opened Sums
  import opened TcpConnection
  import opened TcpConnectionInvariant
  import opened TcpConnectionTheorems

  ghost predicate Runs(s: State, acts: seq<Action>, s': State)
    decreases acts
  {
    if acts == [] then s == s'
    else Enabled(s, acts[0]) && Runs(Next(s, acts[0]), acts[1..], s')
  }

  lemma {:induction false} OneMore(s: State, acts: seq<Action>, mid: State, a: Action) returns (acts': seq<Action>, s': State)
    requires Runs(s, acts, mid) && Enabled(mid, a)
    ensures s' == Next(mid, a) && acts' == acts + [a] && Runs(s, acts', s')
    decreases acts
  {
    acts', s' := acts + [a], Next(mid, a);
    if acts == [] {
      assert acts' == [a] && [a][1..] == [];
      assert Runs(Next(s, a), [], s');
    } else {
      var more, _ := OneMore(Next(s, acts[0]), acts[1..], mid, a);
      assert acts'[1..] == more;
    }
  }

  // ---------------------------------------------------------------- how far a thread is from idle

  /** An upper bound on a worker's steps to the end of its visit, if the socket blocks. */
  function WorkerRank(pc: Worker): nat {
    match pc
    case Idle => 0
    case Unlock => 1
    case Rearm(_, _) => 2
    case ReadPaused(_) => 3
    case Finish(_) => 4
    case Releasing(_) => 5
    case Closed(_) => 6
    case Closing(_, _) => 7
    case Write(_, _, item) => if item == [] then 10 else 8
    case Drain(_, _) => 9
    case WaitSend(_) => 10
    case SendTest(_) => 11
    case OnSend(_, _, _, _) => 12
    case Fire(_, _, _, _) => 13
    case Recv(_, _) => 13
    case OnReceive(_, _) => 14
    case WaitIo(_) => 15
    case Enter(_) => 16
    case CmdSend | CmdDisconnect => 17
    case Unpausing => 18
    case CmdUnpause => 19
    case KillReleasing => 1
    case Killed => 2
    case KillIo => 3
    case Kill => 4
  }

  function SenderRank(pc: Sender): nat {
    match pc
    case SIdle => 0
    case SUnlock(_) => 1
    case SPost(_) => 2
    case SCat(bufs, i, _) => 3 + if i <= |bufs| then |bufs| - i else 0
    case SWait(bufs) => 4 + |bufs|
  }

  function PauserRank(pc: Pauser): nat {
    match pc
    case PIdle => 0
    case PPost => 1
    case PSet(_) => 2
    case PTest(_) => 3
  }

  function Busy(s: State): nat { Sum(s.workers, WorkerRank) + Sum(s.senders, SenderRank) + Sum(s.pausers, PauserRank) }

  /** No thread is in the middle of anything. */
  ghost predicate AllIdle(s: State) {
    && (forall w | 0 <= w < |s.workers| :: s.workers[w].Idle?)
    && (forall k | 0 <= k < |s.senders| :: s.senders[k].SIdle?)
    && (forall p | 0 <= p < |s.pausers| :: s.pausers[p].PIdle?)
  }

  // ---------------------------------------------------------------- nobody is stuck

  /** Waits for a lock, which is not free for it. */
  predicate Blocked(s: State, w: nat)
    requires w < |s.workers|
  {
    var pc := s.workers[w];
    || ((pc.WaitIo? || (pc.Kill? && s.valid)) && s.io != IoFree)
    || ((pc.WaitSend? || (pc.Closing? && !pc.hold) || pc.KillIo?) && s.send != SendFree)
    || (pc.OnSend? && s.send != ByWorker(w))
  }

  /** The environment's answer with which a worker gets to the end: the socket blocks, the
      listener agrees. */
  function Ending(pc: Worker): Answer {
    match pc
    case Recv(_, _) | Write(_, _, _) => WouldBlock
    case _ => HrOk
  }

  predicate Nearer(s: State, w: nat, s': State)
    requires w < |s.workers|
  {
    |s'.workers| == |s.workers| && WorkerRank(s'.workers[w]) < WorkerRank(s.workers[w])
  }

  lemma EntryMoves(s: State, w: nat)
    requires w < |s.workers| && WorkerOk(s, w) && NonEmptyItems(s.queue) && !Blocked(s, w) && (s.workers[w].Enter? || s.workers[w].WaitIo?)
    ensures Nearer(s, w, EntryNext(s, w))
  {
    match s.workers[w]
    case Enter(_) =>
    case WaitIo(_) =>
    case _ =>
  }

  lemma ReceiveMoves(s: State, w: nat)
    requires w < |s.workers| && WorkerOk(s, w) && NonEmptyItems(s.queue) && !Blocked(s, w) && (s.workers[w].Recv? || s.workers[w].OnReceive?)
    ensures Nearer(s, w, ReceiveNext(s, w, Ending(s.workers[w])))
  {
    match s.workers[w]
    case Recv(_, _) =>
    case OnReceive(_, _) =>
    case _ =>
  }

  lemma DrainMoves(s: State, w: nat)
    requires w < |s.workers| && WorkerOk(s, w) && NonEmptyItems(s.queue) && !Blocked(s, w) && (s.workers[w].SendTest? || s.workers[w].WaitSend? || s.workers[w].Drain?)
    ensures Nearer(s, w, DrainNext(s, w))
  {
    match s.workers[w]
    case SendTest(_) =>
    case WaitSend(_) =>
    case Drain(_, _) =>
    case _ =>
  }

  lemma ItemMoves(s: State, w: nat)
    requires w < |s.workers| && WorkerOk(s, w) && NonEmptyItems(s.queue) && !Blocked(s, w) && (s.workers[w].Write? || s.workers[w].Fire? || s.workers[w].OnSend?)
    ensures Nearer(s, w, ItemNext(s, w, Ending(s.workers[w])))
  {
    match s.workers[w]
    case Write(_, _, _) =>
    case Fire(_, _, _, _) =>
    case OnSend(_, _, _, _) =>
    case _ =>
  }

  lemma CloseMoves(s: State, w: nat)
    requires w < |s.workers| && WorkerOk(s, w) && NonEmptyItems(s.queue) && !Blocked(s, w) && (s.workers[w].Closing? || s.workers[w].Closed? || s.workers[w].Releasing?)
    ensures Nearer(s, w, CloseNext(s, w))
  {
    match s.workers[w]
    case Closing(_, _) =>
    case _ =>
  }

  lemma AfterMoves(s: State, w: nat)
    requires w < |s.workers| && WorkerOk(s, w) && NonEmptyItems(s.queue) && !Blocked(s, w) && (s.workers[w].Finish? || s.workers[w].ReadPaused? || s.workers[w].Rearm? || s.workers[w].Unlock?)
    ensures Nearer(s, w, AfterNext(s, w))
  {
    match s.workers[w]
    case Finish(_) =>
    case ReadPaused(_) =>
    case _ =>
  }

  lemma CommandMoves(s: State, w: nat)
    requires w < |s.workers| && WorkerOk(s, w) && NonEmptyItems(s.queue) && !Blocked(s, w) && (s.workers[w].CmdSend? || s.workers[w].CmdUnpause? || s.workers[w].Unpausing? || s.workers[w].CmdDisconnect?)
    ensures Nearer(s, w, CommandNext(s, w, Ending(s.workers[w])))
  {
    match s.workers[w]
    case CmdSend =>
    case CmdUnpause =>
    case Unpausing =>
    case _ =>
  }

  lemma KillMoves(s: State, w: nat)
    requires w < |s.workers| && WorkerOk(s, w) && NonEmptyItems(s.queue) && !Blocked(s, w) && (s.workers[w].Kill? || s.workers[w].KillIo? || s.workers[w].Killed? || s.workers[w].KillReleasing?)
    ensures Nearer(s, w, KillNext(s, w))
  {
    match s.workers[w]
    case Kill =>
    case KillIo =>
    case _ =>
  }

  lemma WorkerMoves(s: State, w: nat)
    requires w < |s.workers| && WorkerOk(s, w) && NonEmptyItems(s.queue) && !s.workers[w].Idle? && !Blocked(s, w)
    ensures Nearer(s, w, WorkerNext(s, w, Ending(s.workers[w])))
  {
    match s.workers[w]
    case Enter(_) | WaitIo(_) => EntryMoves(s, w);
    case Recv(_, _) | OnReceive(_, _) => ReceiveMoves(s, w);
    case SendTest(_) | WaitSend(_) | Drain(_, _) => DrainMoves(s, w);
    case Write(_, _, _) | Fire(_, _, _, _) | OnSend(_, _, _, _) => ItemMoves(s, w);
    case Closing(_, _) | Closed(_) | Releasing(_) => CloseMoves(s, w);
    case Finish(_) | ReadPaused(_) | Rearm(_, _) | Unlock => AfterMoves(s, w);
    case CmdSend | CmdUnpause | Unpausing | CmdDisconnect => CommandMoves(s, w);
    case Kill | KillIo | Killed | KillReleasing => KillMoves(s, w);
  }

  /** The queue after one more Cat. */
  function Catted(s: State, k: nat): seq<Item>
    requires k < |s.senders|
  {
    match s.senders[k]
    case SCat(bufs, i, _) => if i < |bufs| then s.queue + [bufs[i]] else s.queue
    case _ => s.queue
  }

  lemma SenderMoves(s: State, k: nat)
    requires k < |s.senders| && SenderOk(s, k) && NonEmptyItems(s.queue) && !s.senders[k].SIdle?
    requires s.senders[k].SWait? ==> SenderMayEnter(s)
    ensures var s' := SenderNext(s, k, Catted(s, k));
      |s'.senders| == |s.senders| && SenderRank(s'.senders[k]) < SenderRank(s.senders[k])
  {
    if s.senders[k].SCat? && s.senders[k].k < |s.senders[k].bufs| {
      FlattenSnoc(s.queue, s.senders[k].bufs[s.senders[k].k]);
    }
  }

  /** A step of a thread that can move, with the answer that brings it nearer to its end. */
  predicate Useful(s: State, a: Action) {
    match a
    case Work(w, ans) => w < |s.workers| && !s.workers[w].Idle? && !Blocked(s, w) && ans == Ending(s.workers[w])
    case SendStep(k, next) =>
      k < |s.senders| && !s.senders[k].SIdle? && next == Catted(s, k) && (s.senders[k].SWait? ==> SenderMayEnter(s))
    case PauseStep(p) => p < |s.pausers| && !s.pausers[p].PIdle?
    case _ => false
  }

  /** Whoever waits waits for a thread that can move, or for one that waits itself for one
      that can: there is no circle. */
  lemma SomeoneMoves(s: State) returns (a: Action)
    requires Inv(s) && !AllIdle(s)
    ensures Useful(s, a)
  {
    if p :| 0 <= p < |s.pausers| && !s.pausers[p].PIdle? {
      a := PauseStep(p);
    } else if s.send.BySender? || s.send.Nested? {
      assert SenderOk(s, s.send.k);
      a := SendStep(s.send.k, Catted(s, s.send.k));
    } else if s.send.ByWorker? {
      assert WorkerOk(s, s.send.w);
      a := Work(s.send.w, Ending(s.workers[s.send.w]));
    } else if s.io != IoFree {
      assert WorkerOk(s, s.io.w);
      a := Work(s.io.w, Ending(s.workers[s.io.w]));
    } else if w :| 0 <= w < |s.workers| && !s.workers[w].Idle? {
      assert WorkerOk(s, w);
      a := Work(w, Ending(s.workers[w]));
    } else {
      var k :| 0 <= k < |s.senders| && !s.senders[k].SIdle?;
      a := SendStep(k, Catted(s, k));
    }
  }

  lemma UsefulWork(s: State, w: nat)
    requires Inv(s) && w < |s.workers| && Useful(s, Work(w, Ending(s.workers[w])))
    ensures Busy(Next(s, Work(w, Ending(s.workers[w])))) < Busy(s)
  {
    var s' := WorkerNext(s, w, Ending(s.workers[w]));
    assert WorkerOk(s, w);
    WorkerMoves(s, w);
    WorkFacts(s, w, Ending(s.workers[w]));
    SumUpdate(s.workers, w, s'.workers[w], WorkerRank);
  }

  lemma UsefulSend(s: State, k: nat)
    requires Inv(s) && k < |s.senders| && Useful(s, SendStep(k, Catted(s, k)))
    ensures Busy(Next(s, SendStep(k, Catted(s, k)))) < Busy(s)
  {
    var s' := SenderNext(s, k, Catted(s, k));
    assert SenderOk(s, k);
    SenderMoves(s, k);
    SenderFacts(s, k, Catted(s, k));
    SumUpdate(s.senders, k, s'.senders[k], SenderRank);
  }

  lemma UsefulPause(s: State, p: nat)
    requires Useful(s, PauseStep(p))
    ensures Busy(Next(s, PauseStep(p))) < Busy(s)
  {
    SumUpdate(s.pausers, p, PauserNext(s, p).pausers[p], PauserRank);
    if s.pausers[p].PTest? { } else if s.pausers[p].PSet? { }
  }

  lemma UsefulKept(s: State, a: Action)
    requires Inv(s) && Useful(s, a)
    ensures Enabled(s, a) && Inv(Next(s, a)) && Busy(Next(s, a)) < Busy(s)
  {
    NextKept(s, a);
    match a
    case Work(w, _) => UsefulWork(s, w);
    case SendStep(k, _) => UsefulSend(s, k);
    case PauseStep(p) => UsefulPause(s, p);
  }

  // ---------------------------------------------------------------- every thread can finish

  /** On its way to AddFreeSocketObj: for an error or a hang-up, or because it was told to. */
  predicate WillClose(pc: Worker) {
    match pc
    case Enter(ev) => ev.hup || ev.err
    case WaitIo(ev) => ev.hup || ev.err
    case Closing(_, _) | Kill | KillIo | CmdDisconnect => true
    case Recv(ev, _) => ev.hup || ev.err
    case OnReceive(ev, _) => ev.hup || ev.err
    case SendTest(ev) => ev.hup || ev.err
    case WaitSend(ev) => ev.hup || ev.err
    case Drain(ev, _) => ev.hup || ev.err
    case Write(ev, _, _) => ev.hup || ev.err
    case Fire(ev, _, _, _) => ev.hup || ev.err
    case OnSend(ev, _, _, _) => ev.hup || ev.err
    case _ => false
  }

  ghost predicate NobodyCloses(s: State) {
    s.valid && forall w | 0 <= w < |s.workers| :: !WillClose(s.workers[w])
  }

  /** No PauseReceive(TRUE) is in progress. */
  ghost predicate NobodyPauses(s: State) {
    !s.paused && forall p | 0 <= p < |s.pausers| :: !(s.pausers[p].PTest? && s.pausers[p].pause) && !(s.pausers[p].PSet? && s.pausers[p].pause)
  }

  /** What stays as it is while the threads finish. */
  ghost predicate Unharmed(s: State, s': State) {
    && |s'.workers| == |s.workers| && s.cmdUnpause <= s'.cmdUnpause
    && (NobodyCloses(s) ==> NobodyCloses(s')) && (NobodyPauses(s) ==> NobodyPauses(s'))
  }

  lemma WorkUnharmed(s: State, w: nat)
    requires Inv(s) && w < |s.workers| && Useful(s, Work(w, Ending(s.workers[w])))
    ensures Unharmed(s, WorkerNext(s, w, Ending(s.workers[w])))
  {
    var s' := WorkerNext(s, w, Ending(s.workers[w]));
    assert WorkerOk(s, w);
    WorkFacts(s, w, Ending(s.workers[w]));
    if NobodyCloses(s) {
      assert !WillClose(s.workers[w]);
      WorkStaysOpen(s, w);
    }
  }

  predicate StaysOpen(s: State, w: nat, s': State) { s'.valid && w < |s'.workers| && !WillClose(s'.workers[w]) }

  lemma FrontStaysOpen(s: State, w: nat)
    requires w < |s.workers| && WorkerOk(s, w) && s.valid && !WillClose(s.workers[w])
    requires s.workers[w].Enter? || s.workers[w].WaitIo? || s.workers[w].Recv? || s.workers[w].OnReceive?
    ensures StaysOpen(s, w, WorkerNext(s, w, Ending(s.workers[w])))
  {
    match s.workers[w]
    case Enter(_) =>
    case WaitIo(_) =>
    case Recv(_, _) =>
    case _ =>
  }

  lemma SendStaysOpen(s: State, w: nat)
    requires w < |s.workers| && WorkerOk(s, w) && s.valid && !WillClose(s.workers[w]) && Handling(s.workers[w])
    requires !s.workers[w].Recv? && !s.workers[w].OnReceive?
    ensures StaysOpen(s, w, WorkerNext(s, w, Ending(s.workers[w])))
  {
    match s.workers[w]
    case SendTest(_) =>
    case Drain(_, _) =>
    case Write(_, _, _) =>
    case _ =>
  }

  lemma WorkStaysOpen(s: State, w: nat)
    requires w < |s.workers| && WorkerOk(s, w) && s.valid && !WillClose(s.workers[w])
    ensures StaysOpen(s, w, WorkerNext(s, w, Ending(s.workers[w])))
  {
    match s.workers[w]
    case Enter(_) | WaitIo(_) | Recv(_, _) | OnReceive(_, _) => FrontStaysOpen(s, w);
    case SendTest(_) | WaitSend(_) | Drain(_, _) | Write(_, _, _) | Fire(_, _, _, _) | OnSend(_, _, _, _) => SendStaysOpen(s, w);
    case CmdSend | CmdUnpause =>
    case Finish(_) =>
    case _ =>
  }

  lemma UsefulUnharmed(s: State, a: Action)
    requires Inv(s) && Useful(s, a)
    ensures Enabled(s, a) && Unharmed(s, Next(s, a))
  {
    match a
    case Work(w, _) => WorkUnharmed(s, w);
    case SendStep(k, next) => assert SenderOk(s, k); SenderFacts(s, k, next);
    case PauseStep(p) =>
  }

  /** From every reachable state all threads can finish, if the socket blocks and the
      listener agrees: and the connection stays open and unpaused, if nobody was closing or
      pausing it. */
  lemma {:induction false} CanFinish(s0: State, acts0: seq<Action>, s: State) returns (acts: seq<Action>, s': State)
    requires Runs(s0, acts0, s) && Inv(s)
    ensures Runs(s0, acts, s') && Inv(s') && AllIdle(s') && Unharmed(s, s')
    decreases Busy(s)
  {
    acts, s' := acts0, s;
    if !AllIdle(s) {
      var a := SomeoneMoves(s);
      UsefulKept(s, a);
      UsefulUnharmed(s, a);
      acts, s' := OneMore(s0, acts, s', a);
      acts, s' := CanFinish(s0, acts, s');
    }
  }

  // ---------------------------------------------------------------- what is pending can be sent

  lemma {:induction false} RunInv(s: State, acts: seq<Action>, s': State)
    requires Inv(s) && Runs(s, acts, s')
    ensures Inv(s')
    decreases acts
  {
    if acts != [] {
      NextKept(s, acts[0]);
      RunInv(Next(s, acts[0]), acts[1..], s');
    }
  }

  /** What a worker alone may change when it sends. */
  predicate OnlySends(s: State, w: nat, s': State)
    requires w < |s.workers|
  {
    s' == s.(workers := s'.workers, queue := s'.queue, send := s'.send, io := s'.io, armed := s'.armed,
             written := s'.written, notified := s'.notified, late := s'.late)
    && |s'.workers| == |s.workers| && s'.workers == s.workers[w := s'.workers[w]]
  }

  /** The front item is written... */
  lemma ItemWritten(s0: State, acts0: seq<Action>, s: State, w: nat, ev: Events, i: nat) returns (acts: seq<Action>, s': State)
    requires Runs(s0, acts0, s) && w < |s.workers| && s.workers[w] == Drain(ev, i)
    requires i < MAX_CONTINUE_WRITES && s.queue != [] && s.queue[0] != []
    ensures Runs(s0, acts, s')
    ensures s' == s.(workers := s.workers[w := Fire(ev, i, s.queue[0], |s.queue[0]|)], queue := s.queue[1..], written := s'.written)
  {
    var item := s.queue[0];
    acts, s' := OneMore(s0, acts0, s, Work(w, HrOk));
    assert s' == s.(workers := s.workers[w := Write(ev, i, item)], queue := s.queue[1..]);
    acts, s' := OneMore(s0, acts, s', Work(w, Count(|item|)));
  }

  /** ...and reported. */
  lemma ItemReported(s0: State, acts0: seq<Action>, s: State, w: nat, ev: Events, i: nat, item: Item)
      returns (acts: seq<Action>, s': State)
    requires Runs(s0, acts0, s) && w < |s.workers| && s.workers[w] == Fire(ev, i, item, |item|) && s.send == ByWorker(w)
    ensures Runs(s0, acts, s')
    ensures s' == s.(workers := s.workers[w := Write(ev, i, [])], notified := s'.notified, late := s'.late)
  {
    assert item[|item|..] == [];
    acts, s' := OneMore(s0, acts0, s, Work(w, HrOk));
    assert s' == s.(workers := s.workers[w := OnSend(ev, i, item, |item|)], notified := s'.notified, late := s'.late);
    acts, s' := OneMore(s0, acts, s', Work(w, HrOk));
  }

  lemma NextItem(s0: State, acts0: seq<Action>, s: State, w: nat, ev: Events, i: nat) returns (acts: seq<Action>, s': State)
    requires Runs(s0, acts0, s) && w < |s.workers| && s.workers[w] == Write(ev, i, [])
    ensures Runs(s0, acts, s') && s' == s.(workers := s.workers[w := Drain(ev, i + 1)])
  {
    acts, s' := OneMore(s0, acts0, s, Work(w, HrOk));
  }

  lemma ItemSent(s0: State, acts0: seq<Action>, s: State, w: nat, ev: Events, i: nat) returns (acts: seq<Action>, s': State)
    requires Runs(s0, acts0, s) && w < |s.workers| && s.workers[w] == Drain(ev, i) && s.send == ByWorker(w)
    requires i < MAX_CONTINUE_WRITES && s.queue != [] && s.queue[0] != []
    ensures Runs(s0, acts, s') && OnlySends(s, w, s')
    ensures s'.workers[w] == Drain(ev, i + 1) && s'.queue == s.queue[1..] && s'.send == s.send && s'.io == s.io
  {
    acts, s' := ItemWritten(s0, acts0, s, w, ev, i);
    acts, s' := ItemReported(s0, acts, s', w, ev, i, s.queue[0]);
    acts, s' := NextItem(s0, acts, s', w, ev, i);
  }

  /** Worker `w` writes all it finds, item by item, until the queue is empty or it has
      written its number of items. */
  lemma {:induction false} DrainsSome(s0: State, acts0: seq<Action>, s: State, w: nat, ev: Events, i: nat)
      returns (acts: seq<Action>, s': State)
    requires Runs(s0, acts0, s) && NonEmptyItems(s.queue) && w < |s.workers| && s.workers[w] == Drain(ev, i) && Limited(ev)
    requires s.send == ByWorker(w)
    ensures Runs(s0, acts, s') && OnlySends(s, w, s')
    ensures s'.workers[w] == AfterWrite(ev) && s'.send == SendFree && s'.io == s.io
    ensures |s'.queue| <= |s.queue| && (i < MAX_CONTINUE_WRITES && s.queue != [] ==> |s'.queue| < |s.queue|)
    decreases |s.queue|
  {
    acts, s' := acts0, s;
    if i < MAX_CONTINUE_WRITES && s.queue != [] {
      acts, s' := ItemSent(s0, acts, s', w, ev, i);
      acts, s' := DrainsSome(s0, acts, s', w, ev, i + 1);
    } else {
      acts, s' := OneMore(s0, acts, s', Work(w, HrOk));
    }
  }

  lemma EntersToSend(s0: State, acts0: seq<Action>, s: State, w: nat) returns (acts: seq<Action>, s': State)
    requires Runs(s0, acts0, s) && s.valid && s.queue != [] && s.io == IoFree && s.send == SendFree
    requires w < |s.workers| && s.workers[w] == Enter(EV_SEND)
    ensures Runs(s0, acts, s')
    ensures s' == s.(workers := s.workers[w := Drain(EV_SEND, 0)], io := IoHeld(w), send := ByWorker(w))
  {
    acts, s' := OneMore(s0, acts0, s, Work(w, HrOk));
    acts, s' := OneMore(s0, acts, s', Work(w, HrOk));
    assert s' == s.(workers := s.workers[w := SendTest(EV_SEND)], io := IoHeld(w));
    acts, s' := OneMore(s0, acts, s', Work(w, HrOk));
    acts, s' := OneMore(s0, acts, s', Work(w, HrOk));
  }

  lemma Rearms(s0: State, acts0: seq<Action>, s: State, w: nat) returns (acts: seq<Action>, s': State)
    requires Runs(s0, acts0, s) && s.valid && w < |s.workers| && s.workers[w] == Finish(EV_SEND)
    ensures Runs(s0, acts, s') && s' == s.(workers := s.workers[w := Rearm(s.queue != [], !s.paused)])
  {
    acts, s' := OneMore(s0, acts0, s, Work(w, HrOk));
    acts, s' := OneMore(s0, acts, s', Work(w, HrOk));
  }

  lemma Leaves(s0: State, acts0: seq<Action>, s: State, w: nat) returns (acts: seq<Action>, s': State)
    requires Runs(s0, acts0, s) && s.valid && w < |s.workers| && s.workers[w] == Finish(EV_SEND)
    ensures Runs(s0, acts, s')
    ensures s' == s.(workers := s.workers[w := Idle], io := IoFree, armed := Armed(!s.paused, s.queue != []))
  {
    acts, s' := Rearms(s0, acts0, s, w);
    acts, s' := OneMore(s0, acts, s', Work(w, HrOk));
    acts, s' := OneMore(s0, acts, s', Work(w, HrOk));
  }

  /** One visit by a worker that is about to enter, all others idle. */
  lemma SendVisit(s0: State, acts0: seq<Action>, s: State, w: nat) returns (acts: seq<Action>, s': State)
    requires Runs(s0, acts0, s) && s.valid && s.queue != [] && NonEmptyItems(s.queue) && s.io == IoFree && s.send == SendFree
    requires w < |s.workers| && s.workers[w] == Enter(EV_SEND)
    ensures Runs(s0, acts, s') && OnlySends(s, w, s') && s'.workers[w] == Idle && |s'.queue| < |s.queue|
  {
    acts, s' := EntersToSend(s0, acts0, s, w);
    acts, s' := DrainsSome(s0, acts, s', w, EV_SEND, 0);
    acts, s' := Leaves(s0, acts, s', w);
    assert s'.workers == s.workers[w := Idle];
  }

  /** Nobody but one, outside its handler, is in the middle of anything. */
  lemma LocksFree(s: State, w: nat)
    requires Inv(s) && w < |s.workers| && !HoldsIo(s.workers[w]) && !HoldsSend(s.workers[w])
    requires AllIdle(s.(workers := s.workers[w := Idle]))
    ensures s.io == IoFree && s.send == SendFree
  {
    var t := s.workers[w := Idle];
    assert forall v | 0 <= v < |s.workers| && v != w :: s.workers[v] == t[v];
    var h := if s.io.IoHeld? then s.io.w else 0;
    assert WorkerOk(s, h);
    var g := if s.send.ByWorker? || s.send.Nested? then s.send.w else 0;
    assert WorkerOk(s, g);
    var k := if s.send.BySender? || s.send.Nested? then s.send.k else 0;
    assert k < |s.senders| ==> SenderOk(s, k);
  }

  /** With all threads idle and bytes waiting, the registration or a command brings a worker
      to them. */
  lemma SomeoneComes(s0: State, acts0: seq<Action>, s: State) returns (acts: seq<Action>, s': State)
    requires Runs(s0, acts0, s) && Inv(s) && s.valid && AllIdle(s) && s.queue != [] && |s.workers| > 0
    ensures Runs(s0, acts, s') && s'.valid && s'.queue == s.queue && s'.accepted == s.accepted && s'.senders == s.senders && s'.pausers == s.pausers
    ensures s'.workers == s.workers[0 := Enter(EV_SEND)]
  {
    if s.cmdSend > 0 {
      acts, s' := OneMore(s0, acts0, s, TakeSend(0));
      acts, s' := OneMore(s0, acts, s', Work(0, HrOk));
    } else {
      assert OutKept(s);
      acts, s' := OneMore(s0, acts0, s, Deliver(0, EV_SEND));
    }
  }

  lemma {:induction false} CanSend(s0: State, acts0: seq<Action>, s: State) returns (acts: seq<Action>, s': State)
    requires Inv(s0) && Runs(s0, acts0, s) && Inv(s) && s.valid && AllIdle(s) && |s.workers| > 0
    ensures Runs(s0, acts, s') && Inv(s') && s'.valid && AllIdle(s') && s'.queue == [] && s'.accepted == s.accepted
    decreases |s.queue|
  {
    acts, s' := acts0, s;
    if s.queue != [] {
      acts, s' := SomeoneComes(s0, acts, s');
      RunInv(s0, acts, s');
      assert s'.workers[0 := Idle] == s.workers;
      LocksFree(s', 0);
      acts, s' := SendVisit(s0, acts, s', 0);
      RunInv(s0, acts, s');
      assert s'.workers == s.workers;
      acts, s' := CanSend(s0, acts, s');
    }
  }

  /** From every reachable state of a connection that nobody is closing, everything accepted
      can still be written. */
  lemma AllCanBeSent(tr: seq<State>, i: nat) returns (acts: seq<Action>, s': State)
    requires Run(tr) && i < |tr| && NobodyCloses(tr[i]) && |tr[i].workers| > 0
    ensures Runs(tr[i], acts, s') && s'.valid && s'.queue == [] && s'.written == s'.accepted && tr[i].accepted <= s'.accepted
  {
    RunKeepsInv(tr, i);
    acts, s' := CanFinish(tr[i], [], tr[i]);
    acts, s' := CanSend(tr[i], acts, s');
    NothingHeld(s');
    AcceptedGrows(tr[i], acts, s');
  }

  lemma NothingHeld(s: State)
    requires Inv(s) && AllIdle(s) && s.valid && s.queue == []
    ensures s.written == s.accepted
  {
    var g := if s.send.ByWorker? || s.send.Nested? then s.send.w else 0;
    assert g < |s.workers| ==> WorkerOk(s, g);
    assert Held(s) == [] && Flatten(s.queue) == [];
  }

  lemma {:induction false} AcceptedGrows(s: State, acts: seq<Action>, s': State)
    requires Inv(s) && Runs(s, acts, s')
    ensures s.accepted <= s'.accepted
    decreases acts
  {
    if acts != [] {
      NextKept(s, acts[0]);
      StepAccepts(s, acts[0]);
      AcceptedGrows(Next(s, acts[0]), acts[1..], s');
    }
  }

  lemma StepAccepts(s: State, a: Action)
    requires Inv(s) && Enabled(s, a)
    ensures s.accepted <= Next(s, a).accepted
  {
    if a.Work? && !s.workers[a.w].Idle? {
      assert WorkerOk(s, a.w);
      WorkFacts(s, a.w, a.ans);
    }
  }

  // ---------------------------------------------------------------- what has arrived can be read

  /** From every reachable state of an open connection that is not paused and that nobody is
      closing or pausing, a worker can come to call OnReceive. */
  lemma CanBeRead(tr: seq<State>, i: nat) returns (acts: seq<Action>, s': State)
    requires Run(tr) && i < |tr| && NobodyCloses(tr[i]) && NobodyPauses(tr[i]) && |tr[i].workers| > 0
    ensures Runs(tr[i], acts, s') && s'.valid && s'.workers != [] && s'.workers[0].OnReceive?
  {
    RunKeepsInv(tr, i);
    acts, s' := CanFinish(tr[i], [], tr[i]);
    assert s'.workers[0 := Idle] == s'.workers;
    LocksFree(s', 0);
    acts, s' := ReaderComes(tr[i], acts, s');
    acts, s' := OneMore(tr[i], acts, s', Work(0, HrOk));
    acts, s' := OneMore(tr[i], acts, s', Work(0, HrOk));
    acts, s' := OneMore(tr[i], acts, s', Work(0, Count(1)));
  }

  lemma ReaderComes(s0: State, acts0: seq<Action>, s: State) returns (acts: seq<Action>, s': State)
    requires Runs(s0, acts0, s) && Inv(s) && s.valid && !s.paused && AllIdle(s) && |s.workers| > 0
    ensures Runs(s0, acts, s') && s'.valid && !s'.paused && s'.io == s.io && s'.workers == s.workers[0 := Enter(EV_UNPAUSE)]
  {
    if s.cmdUnpause > 0 {
      acts, s' := OneMore(s0, acts0, s, TakeUnpause(0));
      acts, s' := OneMore(s0, acts, s', Work(0, HrOk));
    } else {
      assert InKept(s);
      acts, s' := OneMore(s0, acts0, s, Deliver(0, EV_UNPAUSE));
    }
  }

  /** Nor is an unpause command lost to the locks: from every reachable state with one queued,
      a worker can come to hand out, under csIo, the packets that were kept back. */
  lemma UnpauseIsServed(tr: seq<State>, i: nat) returns (acts: seq<Action>, s': State)
    requires Run(tr) && i < |tr| && NobodyCloses(tr[i]) && |tr[i].workers| > 0 && tr[i].cmdUnpause > 0
    ensures Runs(tr[i], acts, s') && s'.valid && s'.workers != [] && s'.workers[0].Unpausing? && s'.io == IoHeld(0)
  {
    RunKeepsInv(tr, i);
    acts, s' := CanFinish(tr[i], [], tr[i]);
    assert s'.workers[0 := Idle] == s'.workers;
    LocksFree(s', 0);
    acts, s' := Unpauses(tr[i], acts, s');
  }

  lemma Unpauses(s0: State, acts0: seq<Action>, s: State) returns (acts: seq<Action>, s': State)
    requires Runs(s0, acts0, s) && s.valid && s.cmdUnpause > 0 && s.io == IoFree && |s.workers| > 0 && s.workers[0].Idle?
    ensures Runs(s0, acts, s') && s'.valid && s'.workers != [] && s'.workers[0].Unpausing? && s'.io == IoHeld(0)
  {
    acts, s' := OneMore(s0, acts0, s, TakeUnpause(0));
    acts, s' := OneMore(s0, acts, s', Work(0, Go));
  }

  // ---------------------------------------------------------------- and anything more

  /** A SendPackets of one buffer, alone. */
  lemma OneSend(s0: State, acts0: seq<Action>, s: State, k: nat, data: Item) returns (acts: seq<Action>, s': State)
    requires Runs(s0, acts0, s) && Inv(s) && s.valid && AllIdle(s) && s.send == SendFree && k < |s.senders| && data != []
    ensures Runs(s0, acts, s') && s'.valid && AllIdle(s') && s'.accepted == s.accepted + data && |s'.workers| == |s.workers|
  {
    acts, s' := SendBegun(s0, acts0, s, k, data);
    acts, s' := SendEnded(s0, acts, s', k, data);
  }

  lemma SendLocked(s0: State, acts0: seq<Action>, s: State, k: nat, data: Item) returns (acts: seq<Action>, s': State)
    requires Runs(s0, acts0, s) && s.valid && s.send == SendFree && k < |s.senders| && s.senders[k].SIdle?
    ensures Runs(s0, acts, s')
    ensures s' == s.(senders := s.senders[k := SCat([data], 0, s.queue == [])], send := BySender(k))
  {
    acts, s' := OneMore(s0, acts0, s, CallSend(k, [data]));
    acts, s' := OneMore(s0, acts, s', SendStep(k, []));
  }

  lemma SendBegun(s0: State, acts0: seq<Action>, s: State, k: nat, data: Item) returns (acts: seq<Action>, s': State)
    requires Runs(s0, acts0, s) && NonEmptyItems(s.queue) && s.valid && s.send == SendFree
    requires k < |s.senders| && s.senders[k].SIdle? && data != []
    ensures Runs(s0, acts, s')
    ensures s' == s.(senders := s.senders[k := SCat([data], 1, s.queue == [])], queue := s.queue + [data],
                     accepted := s.accepted + data, send := BySender(k))
  {
    acts, s' := SendLocked(s0, acts0, s, k, data);
    FlattenSnoc(s.queue, data);
    acts, s' := OneMore(s0, acts, s', SendStep(k, s.queue + [data]));
  }

  lemma SendEnded(s0: State, acts0: seq<Action>, s: State, k: nat, data: Item) returns (acts: seq<Action>, s': State)
    requires Runs(s0, acts0, s) && k < |s.senders| && s.senders[k].SCat? && s.senders[k] == SCat([data], 1, s.senders[k].empty)
    ensures Runs(s0, acts, s') && s'.valid == s.valid && s'.workers == s.workers && s'.pausers == s.pausers
    ensures s'.senders == s.senders[k := SIdle] && s'.accepted == s.accepted
  {
    acts, s' := OneMore(s0, acts0, s, SendStep(k, []));
    if s'.senders[k].SPost? { acts, s' := OneMore(s0, acts, s', SendStep(k, [])); }
    acts, s' := OneMore(s0, acts, s', SendStep(k, []));
  }

  /** From every reachable state of a connection that nobody is closing, any further bytes
      can be accepted, and written behind all that was accepted before. */
  lemma AnythingCanBeSent(tr: seq<State>, i: nat, data: Item) returns (acts: seq<Action>, s': State, before: Item)
    requires Run(tr) && i < |tr| && NobodyCloses(tr[i]) && |tr[i].workers| > 0 && |tr[i].senders| > 0 && data != []
    ensures Runs(tr[i], acts, s') && s'.valid && tr[i].accepted <= before && s'.written == before + data
  {
    RunKeepsInv(tr, i);
    acts, s' := CanFinish(tr[i], [], tr[i]);
    SendersStay(tr[i], acts, s');
    AcceptedGrows(tr[i], acts, s');
    assert s'.workers[0 := Idle] == s'.workers;
    LocksFree(s', 0);
    before := s'.accepted;
    acts, s' := OneSend(tr[i], acts, s', 0, data);
    RunInv(tr[i], acts, s');
    acts, s' := CanSend(tr[i], acts, s');
    NothingHeld(s');
  }

  lemma {:induction false} SendersStay(s: State, acts: seq<Action>, s': State)
    requires Inv(s) && Runs(s, acts, s')
    ensures |s'.senders| == |s.senders|
    decreases acts
  {
    if acts != [] {
      NextKept(s, acts[0]);
      SameSenders(s, acts[0]);
      SendersStay(Next(s, acts[0]), acts[1..], s');
    }
  }

  lemma SameSenders(s: State, a: Action)
    requires Inv(s) && Enabled(s, a)
    ensures |Next(s, a).senders| == |s.senders|
  {
    if a.Work? && !s.workers[a.w].Idle? {
      assert WorkerOk(s, a.w);
      WorkFacts(s, a.w, a.ans);
    }
  }
}

/** Nobody waits for ever on the UDP send side: the connections' locks cannot deadlock, and
    from every reachable state whatever was accepted, and any further datagram, can be sent. */
module UdpSendProgress {
  import opened Bytes
  import opened Sums
  import opened UdpSend
  import opened UdpSendTheorems

  ghost predicate Runs(s: State, acts: seq<Action>, s': State)
    decreases acts
  {
    if acts == [] then s == s'
    else Enabled(s, acts[0]) && Runs(Next(s, acts[0]), acts[1..], s')
  }

  lemma {:induction false} OneMore(s: State, acts: seq<Action>, mid: State, a: Action) returns (acts': seq<Action>, s': State)
    requires Runs(s, acts, mid) && Enabled(mid, a)
    ensures s' == Next(mid, a) && acts' == acts + [a] && Runs(s, acts', s')
    decreases acts
  {
    acts', s' := acts + [a], Next(mid, a);
    if acts == [] {
      assert acts' == [a] && [a][1..] == [];
      assert Runs(Next(s, a), [], s');
    } else {
      var more, _ := OneMore(Next(s, acts[0]), acts[1..], mid, a);
      assert acts'[1..] == more;
    }
  }

  lemma {:induction false} RunInv(s: State, acts: seq<Action>, s': State)
    requires Inv(s) && Runs(s, acts, s')
    ensures Inv(s')
    decreases acts
  {
    if acts != [] {
      NextKept(s, acts[0]);
      RunInv(Next(s, acts[0]), acts[1..], s');
    }
  }

  // ---------------------------------------------------------------- nobody is stuck

  /** An upper bound on a worker's steps until it is idle, if the socket blocks. An id on
      quSend costs two. */
  function WorkerRank(pc: Worker): nat {
    match pc
    case Idle => 0
    case Draining | Unlock(_) => 1
    case DrainPost(_) | OutEvent | Arm(_) | Repost(_) => 2
    case PushId(_) => 5
    case SendItem(_, _, _) => 6
    case Loop(_, _) => 7
    case OnSend(_, _) | WaitSend(_) => 8
    case Report(_, _, _) | CmdSend(_) => 9
  }

  function SenderRank(pc: Sender): nat {
    match pc
    case SIdle => 0
    case SPost(_) => 1
    case SHold(_, _, _) => 2
    case SWait(_, _) => 3
  }

  function Busy(s: State): nat { Sum(s.workers, WorkerRank) + Sum(s.senders, SenderRank) + 2 * |s.quSend| }

  ghost predicate AllIdle(s: State) {
    && (forall w | 0 <= w < |s.workers| :: s.workers[w].Idle?)
    && (forall k | 0 <= k < |s.senders| :: s.senders[k].SIdle?)
  }

  /** Waits for a lock, which is not free for it. */
  predicate Blocked(s: State, w: nat)
    requires w < |s.workers|
  {
    var pc := s.workers[w];
    && 0 <= Target(pc) < |s.conns|
    && ((pc.WaitSend? && s.conns[pc.c].lock != Free) || (pc.OnSend? && s.conns[pc.c].lock != ByWorker(w)))
  }

  predicate Useful(s: State, a: Action) {
    match a
    case Work(w, ans) => w < |s.workers| && !s.workers[w].Idle? && !Blocked(s, w) && ans == WouldBlock
    case SendStep(k) =>
      && k < |s.senders| && !s.senders[k].SIdle?
      && (s.senders[k].SWait? ==> s.senders[k].c < |s.conns| && MayEnter(s, s.conns[s.senders[k].c].lock))
    case _ => false
  }

  /** Whoever waits for a connection's lock waits for a thread that can move, or for one that
      waits itself for one that can. */
  lemma SomeoneMoves(s: State) returns (a: Action)
    requires Inv(s) && !AllIdle(s)
    ensures Useful(s, a)
  {
    if w :| 0 <= w < |s.workers| && !s.workers[w].Idle? {
      assert WorkerOk(s, w);
      if Blocked(s, w) { a := HolderMoves(s, s.workers[w].c); } else { a := Work(w, WouldBlock); }
    } else {
      var k :| 0 <= k < |s.senders| && !s.senders[k].SIdle?;
      assert SenderOk(s, k);
      var c := s.senders[k].c;
      if s.senders[k].SWait? && !MayEnter(s, s.conns[c].lock) { a := HolderMoves(s, c); } else { a := SendStep(k); }
    }
  }

  lemma HolderMoves(s: State, c: nat) returns (a: Action)
    requires Inv(s) && c < |s.conns| && s.conns[c].lock != Free
    ensures Useful(s, a)
  {
    assert LockOk(s, c);
    match s.conns[c].lock
    case ByWorker(w) => a := Work(w, WouldBlock);
    case BySender(k) => a := SendStep(k);
    case Nested(_, k) => a := SendStep(k);
  }

  predicate Nearer(s: State, w: nat, s': State)
    requires w < |s.workers|
  {
    && |s'.workers| == |s.workers| && s'.workers == s.workers[w := s'.workers[w]] && s'.senders == s.senders
    && WorkerRank(s'.workers[w]) + 2 * |s'.quSend| < WorkerRank(s.workers[w]) + 2 * |s.quSend|
    && SameConns(s, s')
  }

  /** The connections are as valid as before, and have accepted at least the same. */
  predicate SameConns(s: State, s': State) {
    && |s'.conns| == |s.conns|
    && forall c | 0 <= c < |s.conns| :: s'.conns[c].valid == s.conns[c].valid && s.conns[c].accepted <= s'.conns[c].accepted
  }

  lemma DrainNearer(s: State, w: nat)
    requires w < |s.workers| && (s.workers[w].OutEvent? || s.workers[w].Draining? || s.workers[w].DrainPost?)
    ensures Nearer(s, w, DrainNext(s, w))
  {
  }

  lemma EdgeNearer(s: State, w: nat)
    requires w < |s.workers| && 0 <= Target(s.workers[w]) < |s.conns| && !Blocked(s, w)
    requires s.workers[w].CmdSend? || s.workers[w].WaitSend? || s.workers[w].Repost? || s.workers[w].Unlock?
    ensures Nearer(s, w, EdgeNext(s, w))
  {
    match s.workers[w]
    case CmdSend(_) =>
    case WaitSend(_) =>
    case _ =>
  }

  lemma LoopNearer(s: State, w: nat)
    requires w < |s.workers| && 0 <= Target(s.workers[w]) < |s.conns| && !Blocked(s, w) && Holds(s.workers[w])
    requires !s.workers[w].Repost? && !s.workers[w].Unlock?
    ensures Nearer(s, w, LoopNext(s, w, WouldBlock))
  {
    match s.workers[w]
    case Loop(_, _) =>
    case SendItem(_, _, _) =>
    case _ =>
  }

  lemma WorkNearer(s: State, w: nat)
    requires Inv(s) && Useful(s, Work(w, WouldBlock))
    ensures Nearer(s, w, WorkerNext(s, w, WouldBlock))
  {
    assert WorkerOk(s, w);
    match s.workers[w]
    case OutEvent | Draining | DrainPost(_) => DrainNearer(s, w);
    case CmdSend(_) | WaitSend(_) | Repost(_) | Unlock(_) => EdgeNearer(s, w);
    case _ => LoopNearer(s, w);
  }

  lemma SendNearer(s: State, k: nat)
    requires Inv(s) && Useful(s, SendStep(k))
    ensures var s' := SenderNext(s, k);
      && |s'.senders| == |s.senders| && s'.senders == s.senders[k := s'.senders[k]]
      && s'.workers == s.workers && s'.quSend == s.quSend && SameConns(s, s')
      && SenderRank(s'.senders[k]) < SenderRank(s.senders[k])
  {
    assert SenderOk(s, k);
    match s.senders[k]
    case SWait(_, _) =>
    case SHold(_, _, _) =>
    case _ =>
  }

  lemma UsefulKept(s: State, a: Action)
    requires Inv(s) && Useful(s, a)
    ensures Enabled(s, a) && Inv(Next(s, a)) && Busy(Next(s, a)) < Busy(s)
    ensures SameConns(s, Next(s, a)) && |Next(s, a).workers| == |s.workers| && |Next(s, a).senders| == |s.senders|
  {
    NextKept(s, a);
    match a
    case Work(w, ans) =>
      WorkNearer(s, w);
      SumUpdate(s.workers, w, WorkerNext(s, w, ans).workers[w], WorkerRank);
    case SendStep(k) =>
      SendNearer(s, k);
      SumUpdate(s.senders, k, SenderNext(s, k).senders[k], SenderRank);
  }

  /** From every state that keeps the invariant, all threads can finish. */
  lemma {:induction false} CanFinish(s0: State, acts0: seq<Action>, s: State) returns (acts: seq<Action>, s': State)
    requires Runs(s0, acts0, s) && Inv(s)
    ensures Runs(s0, acts, s') && Inv(s') && AllIdle(s') && SameConns(s, s')
    ensures |s'.workers| == |s.workers| && |s'.senders| == |s.senders|
    decreases Busy(s)
  {
    acts, s' := acts0, s;
    if !AllIdle(s) {
      var a := SomeoneMoves(s);
      UsefulKept(s, a);
      acts, s' := OneMore(s0, acts, s', a);
      acts, s' := CanFinish(s0, acts, s');
    }
  }

  // ---------------------------------------------------------------- what is pending can be sent

  /** A worker empties quSend into commands. */
  lemma {:induction false} Drained(s0: State, acts0: seq<Action>, s: State, w: nat) returns (acts: seq<Action>, s': State)
    requires Runs(s0, acts0, s) && w < |s.workers| && s.workers[w].Draining?
    ensures Runs(s0, acts, s') && s' == s.(workers := s.workers[w := Idle], quSend := [], cmds := s'.cmds)
    ensures forall c | c in s.quSend || c in s.cmds :: c in s'.cmds
    decreases |s.quSend|
  {
    acts, s' := OneMore(s0, acts0, s, Work(w, Go));
    if s.quSend != [] {
      assert s' == s.(workers := s.workers[w := DrainPost(s.quSend[0])], quSend := s.quSend[1..]);
      var c0 := s.quSend[0];
      acts, s' := OneMore(s0, acts, s', Work(w, Go));
      assert s' == s.(workers := s.workers[w := Draining], quSend := s.quSend[1..], cmds := s.cmds + multiset{c0});
      acts, s' := Drained(s0, acts, s', w);
    }
  }

  /** With all threads idle, a command for a connection with datagrams is queued, or comes to
      be queued when EPOLLOUT is reported. */
  lemma CommandComes(s0: State, acts0: seq<Action>, s: State, c: nat) returns (acts: seq<Action>, s': State)
    requires Runs(s0, acts0, s) && Inv(s) && AllIdle(s) && |s.workers| > 0
    requires c < |s.conns| && s.conns[c].valid && s.conns[c].queue != []
    ensures Runs(s0, acts, s') && c in s'.cmds && AllIdle(s') && s'.conns == s.conns && s'.workers == s.workers && s'.senders == s.senders
  {
    acts, s' := acts0, s;
    assert Awake(s, c);
    assert c in s.cmds || c in s.quSend;
    if c !in s.cmds {
      acts, s' := OneMore(s0, acts, s', Deliver(0));
      acts, s' := OneMore(s0, acts, s', Work(0, Go));
      assert s' == s.(workers := s.workers[0 := Draining], out := false, due := false);
      acts, s' := Drained(s0, acts, s', 0);
      assert s'.workers == s.workers;
    }
  }

  /** What worker `w` may change when it sends for `c`. */
  predicate OnlySends(s: State, w: nat, c: nat, s': State)
    requires w < |s.workers| && c < |s.conns|
  {
    && |s'.workers| == |s.workers| && s'.workers == s.workers[w := s'.workers[w]] && s'.senders == s.senders
    && |s'.conns| == |s.conns| && s'.conns == s.conns[c := s'.conns[c]]
    && s'.conns[c].valid == s.conns[c].valid && s'.conns[c].accepted == s.conns[c].accepted
  }

  /** The front datagram is sent... */
  lemma FrontSent(s0: State, acts0: seq<Action>, s: State, w: nat, c: nat, i: nat) returns (acts: seq<Action>, s': State)
    requires Runs(s0, acts0, s) && w < |s.workers| && c < |s.conns| && s.workers[w] == Loop(c, i)
    requires i < MAX_CONTINUE_WRITES && s.conns[c].queue != []
    ensures Runs(s0, acts, s') && OnlySends(s, w, c, s') && s'.workers[w] == Report(c, i, s.conns[c].queue[0])
    ensures s'.conns[c].queue == s.conns[c].queue[1..] && s'.conns[c].lock == s.conns[c].lock
  {
    acts, s' := OneMore(s0, acts0, s, Work(w, Go));
    acts, s' := OneMore(s0, acts, s', Work(w, Sent));
  }

  /** ...and reported. */
  lemma FrontReported(s0: State, acts0: seq<Action>, s: State, w: nat, c: nat, i: nat, item: Item)
      returns (acts: seq<Action>, s': State)
    requires Runs(s0, acts0, s) && w < |s.workers| && c < |s.conns| && s.workers[w] == Report(c, i, item)
    requires s.conns[c].lock == ByWorker(w)
    ensures Runs(s0, acts, s') && OnlySends(s, w, c, s') && s'.workers[w] == Loop(c, i + 1)
    ensures s'.conns[c].queue == s.conns[c].queue && s'.conns[c].lock == s.conns[c].lock
  {
    acts, s' := OneMore(s0, acts0, s, Work(w, Go));
    acts, s' := OneMore(s0, acts, s', Work(w, Go));
  }

  /** Worker `w` sends what it finds, until the queue is empty or it has sent its number. */
  lemma {:induction false} LoopsOut(s0: State, acts0: seq<Action>, s: State, w: nat, c: nat, i: nat)
      returns (acts: seq<Action>, s': State)
    requires Runs(s0, acts0, s) && w < |s.workers| && c < |s.conns| && s.workers[w] == Loop(c, i)
    requires s.conns[c].lock == ByWorker(w)
    ensures Runs(s0, acts, s') && OnlySends(s, w, c, s') && s'.workers[w] == Unlock(c)
    ensures |s'.conns[c].queue| <= |s.conns[c].queue|
    ensures i < MAX_CONTINUE_WRITES && s.conns[c].queue != [] ==> |s'.conns[c].queue| < |s.conns[c].queue|
    decreases |s.conns[c].queue|
  {
    if s.conns[c].queue == [] {
      acts, s' := OneMore(s0, acts0, s, Work(w, Go));
    } else if i >= MAX_CONTINUE_WRITES {
      acts, s' := OneMore(s0, acts0, s, Work(w, Go));
      acts, s' := OneMore(s0, acts, s', Work(w, Go));
    } else {
      acts, s' := FrontSent(s0, acts0, s, w, c, i);
      acts, s' := FrontReported(s0, acts, s', w, c, i, s.conns[c].queue[0]);
      acts, s' := LoopsOut(s0, acts, s', w, c, i + 1);
    }
  }

  lemma EntersLoop(s0: State, acts0: seq<Action>, s: State, c: nat) returns (acts: seq<Action>, s': State)
    requires Runs(s0, acts0, s) && AllIdle(s) && |s.workers| > 0 && c in s.cmds
    requires c < |s.conns| && s.conns[c].valid && s.conns[c].queue != [] && s.conns[c].lock == Free
    ensures Runs(s0, acts, s') && OnlySends(s, 0, c, s') && s'.workers[0] == Loop(c, 0)
    ensures s'.conns[c].queue == s.conns[c].queue && s'.conns[c].lock == ByWorker(0)
  {
    acts, s' := OneMore(s0, acts0, s, TakeSend(0, c));
    acts, s' := OneMore(s0, acts, s', Work(0, Go));
    assert s' == s.(workers := s.workers[0 := WaitSend(c)], cmds := s'.cmds);
    acts, s' := OneMore(s0, acts, s', Work(0, Go));
  }

  lemma NobodyHolds(s: State, c: nat)
    requires Inv(s) && AllIdle(s) && c < |s.conns|
    ensures s.conns[c].lock == Free
  {
    assert LockOk(s, c);
  }

  lemma OneVisit(s0: State, acts0: seq<Action>, s: State, c: nat) returns (acts: seq<Action>, s': State)
    requires Runs(s0, acts0, s) && AllIdle(s) && |s.workers| > 0 && c in s.cmds
    requires c < |s.conns| && s.conns[c].valid && s.conns[c].queue != [] && s.conns[c].lock == Free
    ensures Runs(s0, acts, s') && AllIdle(s') && OnlySends(s, 0, c, s') && |s'.conns[c].queue| < |s.conns[c].queue|
  {
    acts, s' := EntersLoop(s0, acts0, s, c);
    acts, s' := LoopsOut(s0, acts, s', 0, c, 0);
    acts, s' := OneMore(s0, acts, s', Work(0, Go));
  }

  lemma {:induction false} CanSend(s0: State, acts0: seq<Action>, s: State, c: nat) returns (acts: seq<Action>, s': State)
    requires Inv(s0) && Runs(s0, acts0, s) && Inv(s) && AllIdle(s) && |s.workers| > 0 && c < |s.conns| && s.conns[c].valid
    ensures Runs(s0, acts, s') && Inv(s') && AllIdle(s') && c < |s'.conns| && s'.conns[c].valid
    ensures s'.conns[c].queue == [] && s'.conns[c].accepted == s.conns[c].accepted
    decreases |s.conns[c].queue|
  {
    acts, s' := acts0, s;
    if s.conns[c].queue != [] {
      acts, s' := CommandComes(s0, acts, s', c);
      RunInv(s0, acts, s');
      NobodyHolds(s', c);
      acts, s' := OneVisit(s0, acts, s', c);
      RunInv(s0, acts, s');
      acts, s' := CanSend(s0, acts, s', c);
    }
  }

  lemma NothingLeft(s: State, c: nat)
    requires Inv(s) && AllIdle(s) && c < |s.conns| && s.conns[c].valid && s.conns[c].queue == []
    ensures s.conns[c].sent == s.conns[c].accepted
  {
    NobodyHolds(s, c);
    assert BytesOk(s, c);
  }

  /** From every reachable state, all that a valid connection has accepted can still be sent. */
  lemma AllCanBeSent(tr: seq<State>, i: nat, c: nat) returns (acts: seq<Action>, s': State)
    requires Run(tr) && i < |tr| && |tr[i].workers| > 0 && c < |tr[i].conns| && tr[i].conns[c].valid
    ensures Runs(tr[i], acts, s') && c < |s'.conns| && s'.conns[c].valid
    ensures s'.conns[c].sent == s'.conns[c].accepted && tr[i].conns[c].accepted <= s'.conns[c].accepted
  {
    RunKeepsInv(tr, i);
    acts, s' := CanFinish(tr[i], [], tr[i]);
    acts, s' := CanSend(tr[i], acts, s', c);
    NothingLeft(s', c);
  }

  /** A Send, alone: it takes the lock... */
  lemma Locked(s0: State, acts0: seq<Action>, s: State, k: nat, c: nat, data: Item) returns (acts: seq<Action>, s': State)
    requires Runs(s0, acts0, s) && k < |s.senders| && s.senders[k].SIdle? && data != []
    requires c < |s.conns| && s.conns[c].valid && s.conns[c].lock == Free
    ensures Runs(s0, acts, s') && |s'.conns| == |s.conns|
    ensures s' == s.(senders := s.senders[k := SHold(c, data, s.conns[c].queue != [])], conns := s'.conns)
    ensures s'.conns[c] == s.conns[c].(lock := BySender(k))
  {
    acts, s' := OneMore(s0, acts0, s, CallSend(k, c, data));
    acts, s' := OneMore(s0, acts, s', SendStep(k));
  }

  /** ...and appends the datagram. */
  lemma Accepted(s0: State, acts0: seq<Action>, s: State, k: nat, c: nat, data: Item) returns (acts: seq<Action>, s': State)
    requires Runs(s0, acts0, s) && AllIdle(s) && k < |s.senders| && data != []
    requires c < |s.conns| && s.conns[c].valid && s.conns[c].lock == Free
    ensures Runs(s0, acts, s') && AllIdle(s') && |s'.workers| == |s.workers| && c < |s'.conns| && s'.conns[c].valid
    ensures s'.conns[c].accepted == s.conns[c].accepted + [data]
  {
    acts, s' := Locked(s0, acts0, s, k, c, data);
    acts, s' := OneMore(s0, acts, s', SendStep(k));
    if s'.senders[k].SPost? { acts, s' := OneMore(s0, acts, s', SendStep(k)); }
  }

  /** And any further datagram can still be sent, behind all that was accepted before. */
  lemma AnythingCanBeSent(tr: seq<State>, i: nat, c: nat, data: Item) returns (acts: seq<Action>, s': State, before: seq<Item>)
    requires Run(tr) && i < |tr| && |tr[i].workers| > 0 && |tr[i].senders| > 0 && c < |tr[i].conns| && tr[i].conns[c].valid
    requires data != []
    ensures Runs(tr[i], acts, s') && c < |s'.conns| && s'.conns[c].valid
    ensures tr[i].conns[c].accepted <= before && s'.conns[c].sent == before + [data]
  {
    RunKeepsInv(tr, i);
    acts, s' := CanFinish(tr[i], [], tr[i]);
    before := s'.conns[c].accepted;
    NobodyHolds(s', c);
    acts, s' := Accepted(tr[i], acts, s', 0, c, data);
    RunInv(tr[i], acts, s');
    acts, s' := CanSend(tr[i], acts, s', c);
    NothingLeft(s', c);
  }
}

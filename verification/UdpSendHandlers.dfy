/** What the UDP server's send handlers do and do not do, told from the places that workers
    and callers of Send pass. */
module UdpSendHandlers {
  import opened Bytes
  import opened UdpSend
  import opened UdpSendTheorems

  predicate Ready(s: State, c: nat) { c < |s.conns| && s.conns[c].valid && s.conns[c].queue != [] }

  /** How a worker comes to a place, and what it did on the way. */
  predicate ComesRightly(s: State, pc: Worker, ans: Answer, s': State, pc': Worker) {
    match pc'
    case Idle =>
      || (pc.Draining? && s.quSend == [])
      || ((pc.CmdSend? || pc.WaitSend?) && !Ready(s, pc.c))
      || pc.Unlock?
    case OutEvent => pc.Idle? && s.out
    case Draining =>
      (pc.OutEvent? && !s'.out) || (pc.DrainPost? && s'.cmds == s.cmds + multiset{pc.c})
    case DrainPost(c) => pc.Draining? && s.quSend != [] && s.quSend == [c] + s'.quSend
    case CmdSend(c) => pc.Idle? && s.cmds == s'.cmds + multiset{c}
    case WaitSend(c) => pc == CmdSend(c) && Ready(s, c)
    case Loop(c, i) =>
      || (i == 0 && pc == WaitSend(c) && Ready(s, c) && s.conns[c].lock == Free)
      || (i > 0 && pc == OnSend(c, i - 1))
    case SendItem(c, i, item) => pc == Loop(c, i) && i < 50 && c < |s.conns| && s.conns[c].queue != [] && item == s.conns[c].queue[0]
    case Report(c, i, item) => pc == SendItem(c, i, item) && ans == Sent
    case OnSend(c, i) => pc.Report? && pc.c == c && pc.i == i
    case PushId(c) => pc.SendItem? && pc.c == c && ans == WouldBlock
    case Arm(c) => pc == PushId(c) && s'.quSend == s.quSend + [c]
    case Repost(c) => pc.Loop? && pc.c == c && pc.i >= 50 && c < |s.conns| && s.conns[c].queue != []
    case Unlock(c) =>
      || (pc == Arm(c) && s'.out && s'.due)
      || (pc == Repost(c) && s'.cmds == s.cmds + multiset{c})
      || (pc.Loop? && pc.c == c && c < |s.conns| && s.conns[c].queue == [])
  }

  predicate Comes(s: State, w: nat, ans: Answer, s': State)
    requires w < |s.workers|
  {
    |s'.workers| == |s.workers| && (s'.workers[w] == s.workers[w] || ComesRightly(s, s.workers[w], ans, s', s'.workers[w]))
  }

  lemma DrainComes(s: State, w: nat, ans: Answer)
    requires w < |s.workers| && (s.workers[w].OutEvent? || s.workers[w].Draining? || s.workers[w].DrainPost?)
    ensures Comes(s, w, ans, DrainNext(s, w))
  {
    match s.workers[w]
    case Draining => assert s.quSend != [] ==> s.quSend == [s.quSend[0]] + s.quSend[1..];
    case _ =>
  }

  lemma EdgeComes(s: State, w: nat, ans: Answer)
    requires w < |s.workers| && 0 <= Target(s.workers[w]) < |s.conns|
    requires s.workers[w].CmdSend? || s.workers[w].WaitSend? || s.workers[w].Repost? || s.workers[w].Unlock?
    ensures Comes(s, w, ans, EdgeNext(s, w))
  {
    match s.workers[w]
    case CmdSend(_) =>
    case WaitSend(_) =>
    case _ =>
  }

  lemma LoopComes(s: State, w: nat, ans: Answer)
    requires w < |s.workers| && 0 <= Target(s.workers[w]) < |s.conns|
    ensures Comes(s, w, ans, LoopNext(s, w, ans))
  {
    match s.workers[w]
    case Loop(_, _) =>
    case SendItem(_, _, _) =>
    case _ =>
  }

  /** Every step of a worker comes to its place from a right one, on a right answer. */
  lemma WorkComes(s: State, w: nat, ans: Answer)
    requires w < |s.workers|
    ensures Comes(s, w, ans, WorkerNext(s, w, ans))
  {
    if Target(s.workers[w]) < |s.conns| {
      match s.workers[w]
      case Idle =>
      case OutEvent | Draining | DrainPost(_) => DrainComes(s, w, ans);
      case CmdSend(_) | WaitSend(_) | Repost(_) | Unlock(_) => EdgeComes(s, w, ans);
      case _ => LoopComes(s, w, ans);
    }
  }

  lemma OtherStays(s: State, v: nat, ans: Answer, w: nat)
    requires Inv(s) && v < |s.workers| && w < |s.workers| && w != v
    ensures var s' := WorkerNext(s, v, ans); |s'.workers| == |s.workers| && s'.workers[w] == s.workers[w]
  {
    assert WorkerOk(s, v);
    if Target(s.workers[v]) >= 0 { assert LockOk(s, Target(s.workers[v])); }
    if !s.workers[v].Idle? { WorkFacts(s, v, ans); }
  }

  lemma ActionMoves(s: State, a: Action, w: nat, ans: Answer)
    requires Inv(s) && Enabled(s, a) && w < |s.workers| && (a.Work? ==> ans == a.ans)
    ensures Comes(s, w, ans, Next(s, a))
  {
    if a.Work? {
      if a.w == w { WorkComes(s, w, ans); } else { OtherStays(s, a.w, ans, w); }
    } else if a.SendStep? {
      assert Next(s, a).workers == s.workers;
    }
  }

  lemma StepMoves(s: State, s': State, w: nat) returns (ans: Answer)
    requires Inv(s) && Step(s, s') && w < |s.workers|
    ensures Comes(s, w, ans, s')
  {
    var a :| Enabled(s, a) && s' == Next(s, a);
    ans := if a.Work? then a.ans else Go;
    ActionMoves(s, a, w, ans);
  }

  lemma RunMoves(tr: seq<State>, i: nat, w: nat) returns (ans: Answer)
    requires Run(tr) && 0 < i < |tr| && w < |tr[i - 1].workers|
    ensures Comes(tr[i - 1], w, ans, tr[i])
  {
    RunKeepsInv(tr, i - 1);
    assert StepAt(tr, i);
    ans := StepMoves(tr[i - 1], tr[i], w);
  }

  lemma SameWorkers(tr: seq<State>, i: nat)
    requires Run(tr) && 0 < i < |tr|
    ensures |tr[i].workers| == |tr[i - 1].workers|
  {
    if |tr[i - 1].workers| > 0 {
      var _ := RunMoves(tr, i, 0);
    } else {
      assert StepAt(tr, i);
    }
  }

  // ---------------------------------------------------------------- the limit of one visit

  predicate Sends(pc: Worker) { pc.Loop? || pc.SendItem? || pc.Report? || pc.OnSend? }

  /** The worker pops a datagram between the two states. */
  predicate Pops(s: State, s': State, w: nat) {
    w < |s.workers| && w < |s'.workers| && s.workers[w].Loop? && s'.workers[w].SendItem?
  }

  /** How many datagrams it has popped since it entered the loop of DoSend. */
  function Datagrams(tr: seq<State>, i: nat, w: nat): nat
    requires i < |tr|
  {
    if w >= |tr[i].workers| || !Sends(tr[i].workers[w]) || i == 0 then 0
    else Datagrams(tr, i - 1, w) + if Pops(tr[i - 1], tr[i], w) then 1 else 0
  }

  /** One visit of DoSend pops 50 datagrams at most. */
  lemma {:induction false} DatagramsAreLimited(tr: seq<State>, i: nat, w: nat)
    requires Run(tr) && i < |tr| && w < |tr[i].workers| && Sends(tr[i].workers[w])
    ensures Datagrams(tr, i, w) == tr[i].workers[w].i + if tr[i].workers[w].Loop? then 0 else 1
    ensures Datagrams(tr, i, w) <= 50
  {
    if i > 0 {
      SameWorkers(tr, i);
      var _ := RunMoves(tr, i, w);
      if Sends(tr[i - 1].workers[w]) { DatagramsAreLimited(tr, i - 1, w); }
    }
  }

  // ---------------------------------------------------------------- callers

  /** How a caller of Send comes to a place, and what it did on the way. */
  predicate CallerComes(s: State, pc: Sender, s': State, pc': Sender) {
    match pc'
    case SIdle =>
      || (pc.SWait? && pc.c < |s.conns| && !s.conns[pc.c].valid && s'.conns == s.conns)
      || (pc.SHold? && pc.pending && Appends(s, pc.c, pc.data, s'))
      || (pc.SPost? && s'.cmds == s.cmds + multiset{pc.c})
    case SWait(c, _) => pc.SIdle? && c < |s.conns| && s.conns[c].valid
    case SHold(c, data, pending) =>
      pc == SWait(c, data) && c < |s.conns| && s.conns[c].valid && (pending <==> s.conns[c].queue != [])
    case SPost(c) => pc.SHold? && pc.c == c && !pc.pending && Appends(s, c, pc.data, s')
  }

  /** The datagram goes to the end of the queue, whole. */
  predicate Appends(s: State, c: nat, data: Item, s': State) {
    && c < |s.conns| == |s'.conns|
    && s'.conns[c].queue == s.conns[c].queue + [data] && s'.conns[c].accepted == s.conns[c].accepted + [data]
  }

  /** A Send on a valid connection appends its datagram, and posts a command if the queue
      was empty when it took the lock; only on an invalid one it does nothing. */
  lemma SendComes(s: State, k: nat)
    requires Inv(s) && k < |s.senders|
    ensures var s' := SenderNext(s, k);
      |s'.senders| == |s.senders| && (s'.senders[k] == s.senders[k] || CallerComes(s, s.senders[k], s', s'.senders[k]))
  {
    assert SenderOk(s, k);
    match s.senders[k]
    case SWait(_, _) =>
    case SHold(_, _, _) =>
    case _ =>
  }
}

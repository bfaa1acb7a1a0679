/** What every step of the UDP send machine keeps, and what follows for every run. */
module UdpSendTheorems {
  import opened Bytes
  import opened UdpSend

  // ---------------------------------------------------------------- the invariant

  predicate Holds(pc: Worker) {
    pc.Loop? || pc.SendItem? || pc.Report? || pc.OnSend? || pc.PushId? || pc.Arm? || pc.Repost? || pc.Unlock?
  }

  predicate OwnedByWorker(lock: Lock, w: nat) {
    lock == ByWorker(w) || (lock.Nested? && lock.w == w)
  }

  predicate OwnedBySender(lock: Lock, k: nat) {
    lock == BySender(k) || (lock.Nested? && lock.k == k)
  }

  /** The datagram a worker popped and has not sent or pushed back. */
  function HeldBy(pc: Worker): seq<Item> { if pc.SendItem? then [pc.item] else [] }
  function UnreportedBy(pc: Worker): seq<Item> { if pc.Report? then [pc.item] else [] }

  predicate LockedByWorker(s: State, lock: Lock) {
    (lock.ByWorker? || lock.Nested?) && lock.w < |s.workers|
  }

  function Held(s: State, c: nat): seq<Item>
    requires c < |s.conns|
  {
    var lock := s.conns[c].lock;
    if LockedByWorker(s, lock) then HeldBy(s.workers[lock.w]) else []
  }

  function Unreported(s: State, c: nat): seq<Item>
    requires c < |s.conns|
  {
    var lock := s.conns[c].lock;
    if LockedByWorker(s, lock) then UnreportedBy(s.workers[lock.w]) else []
  }

  predicate LockOk(s: State, c: nat)
    requires c < |s.conns|
  {
    var lock := s.conns[c].lock;
    && (lock.ByWorker? || lock.Nested? ==>
          lock.w < |s.workers| && Holds(s.workers[lock.w]) && Target(s.workers[lock.w]) == c)
    && (lock.Nested? ==> s.workers[lock.w].OnSend?)
    && (lock.BySender? || lock.Nested? ==>
          lock.k < |s.senders| && s.senders[lock.k].SHold? && s.senders[lock.k].c == c)
  }

  predicate BytesOk(s: State, c: nat)
    requires c < |s.conns|
  {
    var conn := s.conns[c];
    && (conn.valid ==> conn.accepted == conn.sent + (Held(s, c) + conn.queue))
    && conn.sent == conn.reported + Unreported(s, c)
    && conn.sent <= conn.accepted
  }

  predicate WorkerOk(s: State, w: nat)
    requires w < |s.workers|
  {
    var pc := s.workers[w];
    && Target(pc) < |s.conns|
    && (Holds(pc) ==> OwnedByWorker(s.conns[Target(pc)].lock, w) && s.conns[Target(pc)].valid)
  }

  predicate SenderOk(s: State, k: nat)
    requires k < |s.senders|
  {
    var pc := s.senders[k];
    && (!pc.SIdle? ==> pc.c < |s.conns|)
    && (pc.SHold? ==> OwnedBySender(s.conns[pc.c].lock, k) && s.conns[pc.c].valid)
    && (pc.SHold? && pc.pending ==> s.conns[pc.c].queue != [])
  }

  /** A worker that will still send for `c`, queue its command, or push its id. */
  predicate WillSend(pc: Worker, c: nat) {
    Target(pc) == c && !pc.Arm? && !pc.Unlock?
  }

  predicate WillPost(pc: Sender, c: nat) {
    (pc.SHold? && pc.c == c && !pc.pending) || pc == SPost(c)
  }

  /** A worker that will still empty quSend, or is about to register with EPOLLOUT. */
  predicate WillDrain(pc: Worker) { pc.OutEvent? || pc.Draining? || pc.DrainPost? || pc.Arm? }

  ghost predicate SomeWorkerSends(s: State, c: nat) { exists w | 0 <= w < |s.workers| :: WillSend(s.workers[w], c) }
  ghost predicate SomeSenderPosts(s: State, c: nat) { exists k | 0 <= k < |s.senders| :: WillPost(s.senders[k], c) }
  ghost predicate SomeWorkerDrains(s: State) { exists w | 0 <= w < |s.workers| :: WillDrain(s.workers[w]) }

  ghost predicate Owed(s: State, c: nat) {
    c in s.cmds || c in s.quSend || SomeWorkerSends(s, c) || SomeSenderPosts(s, c)
  }

  predicate Pending(s: State, c: nat)
    requires c < |s.conns|
  {
    s.conns[c].queue != [] || Held(s, c) != []
  }

  ghost predicate Awake(s: State, c: nat)
    requires c < |s.conns|
  {
    s.conns[c].valid && Pending(s, c) ==> Owed(s, c)
  }

  ghost predicate DrainAwake(s: State) { s.quSend != [] ==> s.due || SomeWorkerDrains(s) }

  predicate Ids(s: State) {
    && (forall i | 0 <= i < |s.quSend| :: s.quSend[i] < |s.conns|)
    && (forall c | c in s.cmds :: c < |s.conns|)
    && (s.due ==> s.out)
  }

  ghost predicate Inv(s: State) {
    && (forall w | 0 <= w < |s.workers| :: WorkerOk(s, w))
    && (forall k | 0 <= k < |s.senders| :: SenderOk(s, k))
    && (forall c | 0 <= c < |s.conns| :: LockOk(s, c) && BytesOk(s, c))
    && (forall c | 0 <= c < |s.conns| :: Awake(s, c))
    && DrainAwake(s) && Ids(s)
  }

  // ---------------------------------------------------------------- one worker step

  /** What a step of worker `w`, busy with connection `c`, may do. */
  predicate WorkerStep(s: State, w: nat, s': State)
    requires w < |s.workers|
  {
    && |s'.workers| == |s.workers| && s'.workers == s.workers[w := s'.workers[w]]
    && s'.senders == s.senders && |s'.conns| == |s.conns|
    && WorkerOk(s', w)
    && s.cmds <= s'.cmds
    && (forall d | d in s'.cmds :: d in s.cmds || d == Target(s.workers[w]))
    && (s'.quSend == s.quSend
        || (Target(s.workers[w]) >= 0 && s'.quSend == s.quSend + [Target(s.workers[w])] && s'.workers[w].Arm?)
        || (s.quSend != [] && s'.quSend == s.quSend[1..] && s'.workers[w] == DrainPost(s.quSend[0])))
    && (s'.due ==> s'.out)
    && (s.due && !s'.due ==> WillDrain(s'.workers[w]))
    && (WillDrain(s.workers[w]) && !WillDrain(s'.workers[w]) ==> s'.due || s'.quSend == [])
  }

  predicate ConnStep(s: State, w: nat, s': State)
    requires w < |s.workers| == |s'.workers|
  {
    var pc, pc' := s.workers[w], s'.workers[w];
    var c := Target(pc);
    if c < 0 then s'.conns == s.conns && !Holds(pc')
    else
      && c < |s.conns| == |s'.conns|
      && s'.conns == s.conns[c := s'.conns[c]]
      && (Holds(pc') ==> Target(pc') == c)
      && OneConnStep(s, w, s', s.conns[c], s'.conns[c])
      && (s'.conns[c].valid && WillSend(pc, c) && !WillSend(pc', c) ==>
            s'.conns[c].queue == [] || c in s'.cmds || c in s'.quSend)
      && (!WillSend(pc, c) ==> s'.conns[c].queue == s.conns[c].queue)
  }

  predicate OneConnStep(s: State, w: nat, s': State, conn: Conn, conn': Conn)
    requires w < |s.workers| == |s'.workers|
  {
    var pc, pc' := s.workers[w], s'.workers[w];
    && conn'.valid == conn.valid && conn'.accepted == conn.accepted
    && (conn'.lock == conn.lock
        || (conn.lock.Free? && conn'.lock == ByWorker(w)) || (conn.lock == ByWorker(w) && conn'.lock.Free?))
    && (conn'.lock == ByWorker(w) ==> Holds(pc'))
    && (OwnedByWorker(conn'.lock, w) && conn'.lock.Nested? ==> pc'.OnSend?)
    && (conn.lock != ByWorker(w) ==>
          conn'.queue == conn.queue && conn'.sent == conn.sent && conn'.reported == conn.reported
          && pc'.Report? == pc.Report? && pc'.SendItem? == pc.SendItem?
          && (Holds(pc) ==> pc' == pc))
    && conn'.sent + (HeldBy(pc') + conn'.queue) == conn.sent + (HeldBy(pc) + conn.queue)
    && (conn.sent == conn.reported + UnreportedBy(pc) ==> conn'.sent == conn'.reported + UnreportedBy(pc'))
    && conn.sent <= conn'.sent
  }

  predicate Local(s: State, w: nat)
    requires w < |s.workers|
  {
    && WorkerOk(s, w) && Ids(s)
    && (Target(s.workers[w]) >= 0 ==> LockOk(s, Target(s.workers[w])))
  }

  lemma DrainFacts(s: State, w: nat)
    requires w < |s.workers| && Local(s, w)
    requires s.workers[w].OutEvent? || s.workers[w].Draining? || s.workers[w].DrainPost?
    ensures WorkerStep(s, w, DrainNext(s, w)) && ConnStep(s, w, DrainNext(s, w))
  {
  }

  lemma EdgeFacts(s: State, w: nat)
    requires w < |s.workers| && Local(s, w)
    requires s.workers[w].CmdSend? || s.workers[w].WaitSend? || s.workers[w].Repost? || s.workers[w].Unlock?
    ensures WorkerStep(s, w, EdgeNext(s, w)) && ConnStep(s, w, EdgeNext(s, w))
  {
    match s.workers[w]
    case CmdSend(_) => TestFacts(s, w);
    case Repost(_) => RepostFacts(s, w);
    case WaitSend(_) => EnterFacts(s, w);
    case _ => UnlockFacts(s, w);
  }

  lemma TestFacts(s: State, w: nat)
    requires w < |s.workers| && Local(s, w) && s.workers[w].CmdSend?
    ensures WorkerStep(s, w, EdgeNext(s, w)) && ConnStep(s, w, EdgeNext(s, w))
  {
  }

  lemma RepostFacts(s: State, w: nat)
    requires w < |s.workers| && Local(s, w) && s.workers[w].Repost?
    ensures WorkerStep(s, w, EdgeNext(s, w)) && ConnStep(s, w, EdgeNext(s, w))
  {
  }

  lemma EnterFacts(s: State, w: nat)
    requires w < |s.workers| && Local(s, w) && s.workers[w].WaitSend?
    ensures WorkerStep(s, w, EdgeNext(s, w)) && ConnStep(s, w, EdgeNext(s, w))
  {
  }

  lemma UnlockFacts(s: State, w: nat)
    requires w < |s.workers| && Local(s, w) && s.workers[w].Unlock?
    ensures WorkerStep(s, w, EdgeNext(s, w)) && ConnStep(s, w, EdgeNext(s, w))
  {
  }

  lemma LoopFacts(s: State, w: nat, ans: Answer)
    requires w < |s.workers| && Local(s, w) && s.workers[w].Loop?
    ensures WorkerStep(s, w, LoopNext(s, w, ans)) && ConnStep(s, w, LoopNext(s, w, ans))
  {
  }

  lemma ItemFacts(s: State, w: nat, ans: Answer)
    requires w < |s.workers| && Local(s, w) && s.workers[w].SendItem?
    ensures WorkerStep(s, w, LoopNext(s, w, ans)) && ConnStep(s, w, LoopNext(s, w, ans))
  {
  }

  lemma ReportFacts(s: State, w: nat, ans: Answer)
    requires w < |s.workers| && Local(s, w) && (s.workers[w].Report? || s.workers[w].OnSend?)
    ensures WorkerStep(s, w, LoopNext(s, w, ans)) && ConnStep(s, w, LoopNext(s, w, ans))
  {
  }

  lemma BlockedFacts(s: State, w: nat, ans: Answer)
    requires w < |s.workers| && Local(s, w) && (s.workers[w].PushId? || s.workers[w].Arm?)
    ensures WorkerStep(s, w, LoopNext(s, w, ans)) && ConnStep(s, w, LoopNext(s, w, ans))
  {
  }

  lemma WorkFacts(s: State, w: nat, ans: Answer)
    requires w < |s.workers| && Local(s, w) && !s.workers[w].Idle?
    ensures WorkerStep(s, w, WorkerNext(s, w, ans)) && ConnStep(s, w, WorkerNext(s, w, ans))
  {
    match s.workers[w]
    case Idle =>
    case OutEvent | Draining | DrainPost(_) => DrainFacts(s, w);
    case Loop(_, _) => LoopFacts(s, w, ans);
    case SendItem(_, _, _) => ItemFacts(s, w, ans);
    case Report(_, _, _) | OnSend(_, _) => ReportFacts(s, w, ans);
    case PushId(_) | Arm(_) => BlockedFacts(s, w, ans);
    case _ => EdgeFacts(s, w);
  }

  // ---------------------------------------------------------------- ... keeps the rest

  lemma ThreadsKept(s: State, w: nat, s': State)
    requires Inv(s) && w < |s.workers| && WorkerStep(s, w, s') && ConnStep(s, w, s')
    ensures forall v | 0 <= v < |s'.workers| :: WorkerOk(s', v)
    ensures forall k | 0 <= k < |s'.senders| :: SenderOk(s', k)
  {
    assert WorkerOk(s, w);
    forall v | 0 <= v < |s'.workers| ensures WorkerOk(s', v) { assert WorkerOk(s, v); }
    forall k | 0 <= k < |s'.senders| ensures SenderOk(s', k) { assert SenderOk(s, k); }
  }

  lemma LocksKept(s: State, w: nat, s': State, c: nat)
    requires Inv(s) && w < |s.workers| && WorkerStep(s, w, s') && ConnStep(s, w, s') && c < |s.conns|
    ensures LockOk(s', c)
  {
    assert WorkerOk(s, w) && LockOk(s, c);
  }

  lemma BytesKept(s: State, w: nat, s': State, c: nat)
    requires Inv(s) && w < |s.workers| && WorkerStep(s, w, s') && ConnStep(s, w, s') && c < |s.conns|
    ensures BytesOk(s', c)
  {
    assert WorkerOk(s, w) && LockOk(s, c) && BytesOk(s, c);
    if c == Target(s.workers[w]) {
      var conn, conn' := s.conns[c], s'.conns[c];
      if conn.lock == ByWorker(w) || conn'.lock == ByWorker(w) {
        assert Held(s, c) == HeldBy(s.workers[w]) && Unreported(s, c) == UnreportedBy(s.workers[w]);
        assert Held(s', c) == HeldBy(s'.workers[w]) && Unreported(s', c) == UnreportedBy(s'.workers[w]);
      }
    }
  }

  /** A popped datagram is in the hands of a worker that is still inside DoSend. */
  lemma HeldIsOwed(s: State, c: nat)
    requires c < |s.conns| && LockOk(s, c) && Held(s, c) != []
    ensures SomeWorkerSends(s, c)
  {
    assert WillSend(s.workers[s.conns[c].lock.w], c);
  }

  lemma OwedKept(s: State, w: nat, s': State, c: nat)
    requires Inv(s) && w < |s.workers| && WorkerStep(s, w, s') && ConnStep(s, w, s') && c < |s.conns|
    requires LockOk(s', c)
    ensures Awake(s', c)
  {
    assert WorkerOk(s, w) && LockOk(s, c) && Awake(s, c);
    var pc, pc' := s.workers[w], s'.workers[w];
    if s'.conns[c].valid && Pending(s', c) {
      if Held(s', c) != [] {
        HeldIsOwed(s', c);
      } else if WillSend(pc', c) {
        assert SomeWorkerSends(s', c);
      } else if !WillSend(pc, c) {
        if SomeWorkerSends(s, c) {
          var v :| 0 <= v < |s.workers| && WillSend(s.workers[v], c);
          assert WillSend(s'.workers[v], c);
        } else if c in s.quSend {
          assert c in s'.quSend || (s.quSend != [] && c == s.quSend[0]) by { StaysQueued(s.quSend, c); }
        }
      }
    }
  }

  lemma StaysQueued(q: seq<nat>, c: nat)
    requires c in q
    ensures c == q[0] || c in q[1..]
  {
  }

  lemma DrainKept(s: State, w: nat, s': State)
    requires Inv(s) && w < |s.workers| && WorkerStep(s, w, s')
    ensures DrainAwake(s') && Ids(s')
  {
    assert WorkerOk(s, w) && WorkerOk(s', w);
    if s'.quSend != [] && !s'.due {
      if WillDrain(s'.workers[w]) {
        assert SomeWorkerDrains(s');
      } else {
        assert !WillDrain(s.workers[w]) && s.quSend != [];
        var v :| 0 <= v < |s.workers| && WillDrain(s.workers[v]);
        assert WillDrain(s'.workers[v]);
      }
    }
  }

  lemma WorkKept(s: State, w: nat, ans: Answer)
    requires Inv(s) && w < |s.workers|
    ensures Inv(WorkerNext(s, w, ans))
  {
    if !s.workers[w].Idle? {
      var s' := WorkerNext(s, w, ans);
      assert WorkerOk(s, w);
      if Target(s.workers[w]) >= 0 { assert LockOk(s, Target(s.workers[w])); }
      WorkFacts(s, w, ans);
      ThreadsKept(s, w, s');
      forall c | 0 <= c < |s'.conns| ensures LockOk(s', c) && BytesOk(s', c) && Awake(s', c) {
        LocksKept(s, w, s', c);
        BytesKept(s, w, s', c);
        OwedKept(s, w, s', c);
      }
      DrainKept(s, w, s');
    }
  }

  // ---------------------------------------------------------------- senders

  predicate SenderStep(s: State, k: nat, c: nat, s': State)
    requires k < |s.senders| && c < |s.conns|
  {
    var pc := s.senders[k];
    && !pc.SIdle? && pc.c == c
    && |s'.senders| == |s.senders| && s'.senders == s.senders[k := s'.senders[k]]
    && s'.workers == s.workers && s'.quSend == s.quSend && s'.due == s.due && s'.out == s.out
    && |s'.conns| == |s.conns| && s'.conns == s.conns[c := s'.conns[c]]
    && (s'.cmds == s.cmds || s'.cmds == s.cmds + multiset{c})
    && (!s'.senders[k].SIdle? ==> s'.senders[k].c == c)
    && (WillPost(pc, c) ==> WillPost(s'.senders[k], c) || c in s'.cmds)
    && var conn, conn' := s.conns[c], s'.conns[c];
      && conn'.valid == conn.valid && conn'.sent == conn.sent && conn'.reported == conn.reported
      && (s'.senders[k].SHold? <==> OwnedBySender(conn'.lock, k))
      && (s'.senders[k].SHold? ==> conn.valid && !pc.SHold? && (s'.senders[k].pending <==> conn.queue != []))
      && (conn'.lock == conn.lock
          || (conn.lock.Free? && conn'.lock == BySender(k)) || (conn.lock == BySender(k) && conn'.lock.Free?)
          || (conn.lock.ByWorker? && conn'.lock == Nested(conn.lock.w, k)
              && conn.lock.w < |s.workers| && s.workers[conn.lock.w].OnSend?)
          || (conn.lock.Nested? && conn.lock.k == k && conn'.lock == ByWorker(conn.lock.w)))
      && (if pc.SHold? then conn'.queue == conn.queue + [pc.data] && conn'.accepted == conn.accepted + [pc.data]
          else conn'.queue == conn.queue && conn'.accepted == conn.accepted)
      && (pc.SHold? ==> OwnedBySender(conn.lock, k) && (pc.pending || WillPost(s'.senders[k], c)))
  }

  lemma SenderFacts(s: State, k: nat)
    requires Inv(s) && k < |s.senders| && !s.senders[k].SIdle?
    ensures s.senders[k].c < |s.conns|
    ensures SenderStep(s, k, s.senders[k].c, SenderNext(s, k))
  {
    assert SenderOk(s, k);
    var c := s.senders[k].c;
    assert LockOk(s, c);
  }

  lemma SenderConn(s: State, k: nat, c: nat, s': State, d: nat)
    requires Inv(s) && k < |s.senders| && c < |s.conns| && SenderStep(s, k, c, s') && d < |s.conns|
    ensures LockOk(s', d) && BytesOk(s', d)
  {
    assert SenderOk(s, k) && LockOk(s, d) && BytesOk(s, d) && LockOk(s, c);
    assert Held(s', d) == Held(s, d) && Unreported(s', d) == Unreported(s, d);
    if d == c && s.senders[k].SHold? {
      Associates(s.conns[c].sent, Held(s, c), s.conns[c].queue, [s.senders[k].data]);
    }
  }

  lemma Associates(a: seq<Item>, b: seq<Item>, c: seq<Item>, d: seq<Item>)
    ensures a + (b + c) + d == a + (b + (c + d))
  {
  }

  lemma SenderAwake(s: State, k: nat, c: nat, s': State, d: nat)
    requires Inv(s) && k < |s.senders| && c < |s.conns| && SenderStep(s, k, c, s') && d < |s.conns|
    requires LockOk(s', d)
    ensures Awake(s', d)
  {
    assert SenderOk(s, k) && LockOk(s, d) && Awake(s, d);
    assert SomeWorkerSends(s, d) ==> SomeWorkerSends(s', d);
    if s'.conns[d].valid && Pending(s', d) {
      if Held(s', d) != [] {
        HeldIsOwed(s', d);
      } else if WillPost(s'.senders[k], d) {
        assert SomeSenderPosts(s', d);
      } else if SomeSenderPosts(s, d) {
        var j :| 0 <= j < |s.senders| && WillPost(s.senders[j], d);
        assert j != k ==> WillPost(s'.senders[j], d);
      }
    }
  }

  lemma SenderKept(s: State, k: nat)
    requires Inv(s) && k < |s.senders|
    ensures Inv(SenderNext(s, k))
  {
    if !s.senders[k].SIdle? {
      var s', c := SenderNext(s, k), s.senders[k].c;
      SenderFacts(s, k);
      assert SenderOk(s, k) && LockOk(s, c);
      forall d | 0 <= d < |s'.conns| ensures LockOk(s', d) && BytesOk(s', d) && Awake(s', d) {
        SenderConn(s, k, c, s', d);
        SenderAwake(s, k, c, s', d);
      }
      forall v | 0 <= v < |s'.workers| ensures WorkerOk(s', v) { assert WorkerOk(s, v); }
      forall j | 0 <= j < |s'.senders| ensures SenderOk(s', j) { assert SenderOk(s, j); }
      assert SomeWorkerDrains(s) ==> SomeWorkerDrains(s');
    }
  }

  // ---------------------------------------------------------------- the other actions

  lemma TakenKept(s: State, a: Action)
    requires Inv(s) && Enabled(s, a) && (a.Deliver? || a.TakeSend?)
    ensures Inv(Next(s, a))
  {
    var s' := Next(s, a);
    var w := a.w;
    assert WorkerOk(s, w);
    forall v | 0 <= v < |s'.workers| ensures WorkerOk(s', v) { assert WorkerOk(s, v); }
    forall j | 0 <= j < |s'.senders| ensures SenderOk(s', j) { assert SenderOk(s, j); }
    forall c | 0 <= c < |s'.conns| ensures LockOk(s', c) && BytesOk(s', c) && Awake(s', c) {
      assert LockOk(s, c) && BytesOk(s, c) && Awake(s, c);
      assert Held(s', c) == Held(s, c) && Unreported(s', c) == Unreported(s, c);
      if SomeWorkerSends(s, c) {
        var v :| 0 <= v < |s.workers| && WillSend(s.workers[v], c);
        assert WillSend(s'.workers[v], c);
      }
      assert SomeSenderPosts(s, c) ==> SomeSenderPosts(s', c);
      if a == TakeSend(w, c) { assert WillSend(s'.workers[w], c); }
    }
    if a.Deliver? {
      assert WillDrain(s'.workers[w]);
    } else if SomeWorkerDrains(s) {
      var v :| 0 <= v < |s.workers| && WillDrain(s.workers[v]);
      assert WillDrain(s'.workers[v]);
    }
  }

  lemma OtherConns(s: State, a: Action)
    requires Inv(s) && Enabled(s, a) && (a.CallSend? || a.Invalidate? || a.Release?)
    ensures var s' := Next(s, a); forall c | 0 <= c < |s'.conns| :: LockOk(s', c) && BytesOk(s', c) && Awake(s', c)
  {
    var s' := Next(s, a);
    assert LockOk(s, a.c) && BytesOk(s, a.c);
    forall c | 0 <= c < |s'.conns| ensures LockOk(s', c) && BytesOk(s', c) && Awake(s', c) {
      assert LockOk(s, c) && BytesOk(s, c) && Awake(s, c);
      assert Held(s', c) == Held(s, c) && Unreported(s', c) == Unreported(s, c);
      assert SomeWorkerSends(s, c) ==> SomeWorkerSends(s', c);
      if SomeSenderPosts(s, c) {
        var j :| 0 <= j < |s.senders| && WillPost(s.senders[j], c);
        assert WillPost(s'.senders[j], c);
      }
    }
  }

  lemma OtherKept(s: State, a: Action)
    requires Inv(s) && Enabled(s, a) && (a.CallSend? || a.Invalidate? || a.Release?)
    ensures Inv(Next(s, a))
  {
    var s' := Next(s, a);
    assert LockOk(s, a.c) && BytesOk(s, a.c);
    forall v | 0 <= v < |s'.workers| ensures WorkerOk(s', v) { assert WorkerOk(s, v); }
    forall j | 0 <= j < |s'.senders| ensures SenderOk(s', j) { assert SenderOk(s, j); }
    OtherConns(s, a);
    assert SomeWorkerDrains(s) ==> SomeWorkerDrains(s');
  }

  lemma NextKept(s: State, a: Action)
    requires Inv(s) && Enabled(s, a)
    ensures Inv(Next(s, a))
  {
    match a
    case Work(w, ans) => WorkKept(s, w, ans);
    case SendStep(k) => SenderKept(s, k);
    case Deliver(_) | TakeSend(_, _) => TakenKept(s, a);
    case _ => OtherKept(s, a);
  }

  // ---------------------------------------------------------------- over runs

  lemma {:induction false} RunKeepsInv(tr: seq<State>, i: nat)
    requires Run(tr) && i < |tr|
    ensures Inv(tr[i])
  {
    if i > 0 {
      RunKeepsInv(tr, i - 1);
      assert StepAt(tr, i);
      StepKept(tr[i - 1], tr[i]);
    }
  }

  lemma StepKept(s: State, s': State)
    requires Inv(s) && Step(s, s')
    ensures Inv(s')
  {
    var a :| Enabled(s, a) && s' == Next(s, a);
    NextKept(s, a);
  }

  /** No wakeup is lost: datagrams waiting on a valid connection always have a send
      command queued, a worker inside DoSend or about to queue the command, a caller that
      has yet to queue it, or the id on quSend; and while quSend holds any id, EPOLLOUT
      is still to be reported, or a drainer or a pusher is in mid-step. */
  lemma NoLostWakeup(tr: seq<State>, i: nat, c: nat)
    requires Run(tr) && i < |tr| && c < |tr[i].conns| && tr[i].conns[c].valid && Pending(tr[i], c)
    ensures var s := tr[i];
      || c in s.cmds
      || (exists w | 0 <= w < |s.workers| :: WillSend(s.workers[w], c))
      || (exists k | 0 <= k < |s.senders| :: WillPost(s.senders[k], c))
      || (c in s.quSend
          && ((s.out && s.due) || exists w | 0 <= w < |s.workers| :: WillDrain(s.workers[w])))
  {
    RunKeepsInv(tr, i);
    assert Awake(tr[i], c);
  }

  /** With every thread idle and no command queued, a connection with datagrams is on
      quSend and the socket is registered for an EPOLLOUT that is still to come. */
  lemma QuietIsArmed(tr: seq<State>, i: nat, c: nat)
    requires Run(tr) && i < |tr| && c < |tr[i].conns|
    requires tr[i].conns[c].valid && tr[i].conns[c].queue != []
    requires forall w | 0 <= w < |tr[i].workers| :: tr[i].workers[w].Idle?
    requires forall k | 0 <= k < |tr[i].senders| :: tr[i].senders[k].SIdle?
    requires tr[i].cmds == multiset{}
    ensures c in tr[i].quSend && tr[i].out && tr[i].due
  {
    NoLostWakeup(tr, i, c);
  }

  /** Datagrams keep their order and their boundaries: what was accepted is what was
      sent, then the one in a worker's hands, then the queue; and each sent datagram is
      reported once, in order. */
  lemma DatagramsKept(tr: seq<State>, i: nat, c: nat)
    requires Run(tr) && i < |tr| && c < |tr[i].conns|
    ensures var s, conn := tr[i], tr[i].conns[c];
      && (conn.valid ==> conn.accepted == conn.sent + Held(s, c) + conn.queue && |Held(s, c)| <= 1)
      && conn.reported <= conn.sent <= conn.accepted
      && |conn.sent| <= |conn.reported| + 1
  {
    RunKeepsInv(tr, i);
    var s, conn := tr[i], tr[i].conns[c];
    assert BytesOk(s, c);
    assert conn.sent + (Held(s, c) + conn.queue) == conn.sent + Held(s, c) + conn.queue;
  }
}

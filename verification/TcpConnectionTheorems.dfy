/** The properties of the TCP connection machine, over every run with any number of
    workers, senders and pausers. */
module TcpConnectionTheorems {
  import opened Bytes
  import opened TcpConnection
  import opened TcpConnectionInvariant

  // ---------------------------------------------------------------- senders

  /** What a sender's step leaves alone, and what it may do to the send lock. */
  predicate SenderStep(s: State, k: nat, s': State)
    requires k < |s.senders|
  {
    && s'.workers == s.workers && s'.pausers == s.pausers
    && |s'.senders| == |s.senders| && s'.senders == s.senders[k := s'.senders[k]]
    && s'.io == s.io && s'.armed == s.armed && s'.valid == s.valid && s'.paused == s.paused
    && s'.cmdSend >= s.cmdSend && s'.cmdUnpause == s.cmdUnpause
    && s'.written == s.written && s'.notified == s.notified
    && s'.winners == s.winners && s'.closes == s.closes && s'.late == s.late
    && (s.queue != [] ==> s'.queue != [])
    && SenderOk(s', k)
    && (s'.send == s.send
        || (s.send.SendFree? && s'.send == BySender(k)) || (s.send == BySender(k) && s'.send.SendFree?)
        || (s.send.ByWorker? && s'.send == Nested(s.send.w, k)
            && s.send.w < |s.workers| && s.workers[s.send.w].OnSend?)
        || (s.send.Nested? && s.send.k == k && s'.send == ByWorker(s.send.w)))
  }

  lemma EnterFacts(s: State, k: nat, next: seq<Item>)
    requires Inv(s) && k < |s.senders| && !s.senders[k].SCat?
    ensures SenderStep(s, k, SenderNext(s, k, next))
  {
    assert SenderOk(s, k);
    if s.send.ByWorker? {
      assert WorkerOk(s, s.send.w);
    }
  }

  lemma CatFacts(s: State, k: nat, next: seq<Item>)
    requires k < |s.senders| && s.senders[k].SCat? && SenderOk(s, k)
    ensures SenderStep(s, k, SenderNext(s, k, next))
  {
    FlattenEmpty(s.queue);
    var SCat(bufs, i, empty) := s.senders[k];
    if i >= |bufs| { } else if bufs[i] == [] { } else { }
  }

  lemma SenderFacts(s: State, k: nat, next: seq<Item>)
    requires Inv(s) && k < |s.senders|
    ensures SenderStep(s, k, SenderNext(s, k, next))
  {
    assert SenderOk(s, k);
    if s.senders[k].SCat? { CatFacts(s, k, next); } else { EnterFacts(s, k, next); }
  }

  lemma FlattenEmpty(q: seq<Item>)
    ensures q == [] ==> Flatten(q) == []
  {
  }

  lemma OthersKept(s: State, k: nat, s': State)
    requires Inv(s) && k < |s.senders| && SenderStep(s, k, s')
    ensures WorkersOk(s') && SendersOk(s') && Closer(s')
  {
    forall v | 0 <= v < |s'.workers| ensures WorkerOk(s', v) {
      assert WorkerOk(s, v) && SenderOk(s, k);
    }
    forall j | 0 <= j < |s'.senders| ensures SenderOk(s', j) {
      assert SenderOk(s, j) && SenderOk(s, k);
    }
  }

  lemma HeldSame(s: State, k: nat, s': State)
    requires Inv(s) && k < |s.senders| && SenderStep(s, k, s')
    ensures Held(s') == Held(s) && HeldUnreported(s') == HeldUnreported(s)
  {
  }

  lemma CatContent(s: State, k: nat, next: seq<Item>)
    requires Inv(s) && k < |s.senders| && s.senders[k].SCat? && SenderStep(s, k, SenderNext(s, k, next))
    ensures Content(SenderNext(s, k, next))
  {
    assert SenderOk(s, k);
    HeldSame(s, k, SenderNext(s, k, next));
    if s.senders[k].k < |s.senders[k].bufs| { CatPiece(s, k, next); } else { CatEnd(s, k, next); }
  }

  lemma CatPiece(s: State, k: nat, next: seq<Item>)
    requires Content(s) && k < |s.senders| && s.senders[k].SCat? && s.senders[k].k < |s.senders[k].bufs| && SenderOk(s, k)
    requires var s' := SenderNext(s, k, next); Held(s') == Held(s) && HeldUnreported(s') == HeldUnreported(s)
    ensures Content(SenderNext(s, k, next))
  {
    var SCat(bufs, i, empty) := s.senders[k];
    FlattenSnoc(bufs[..i], bufs[i]);
    assert bufs[..i + 1] == bufs[..i] + [bufs[i]];
    CatAssociates(s.written, Held(s), Flatten(s.queue), bufs[i]);
    CatAssociates([], Flatten(s.calls), Flatten(bufs[..i]), bufs[i]);
    if bufs[i] == [] { } else if CatResult(s.queue, bufs[i], next) { } else { }
  }

  lemma CatEnd(s: State, k: nat, next: seq<Item>)
    requires Content(s) && k < |s.senders| && s.senders[k].SCat? && s.senders[k].k == |s.senders[k].bufs| && SenderOk(s, k)
    requires var s' := SenderNext(s, k, next); Held(s') == Held(s) && HeldUnreported(s') == HeldUnreported(s)
    ensures Content(SenderNext(s, k, next))
  {
    var SCat(bufs, i, empty) := s.senders[k];
    assert bufs[..i] == bufs;
  }

  lemma CatAssociates(a: Item, b: Item, c: Item, d: Item)
    ensures a + (b + c) + d == a + (b + (c + d)) && b + c + d == b + (c + d)
  {
  }

  lemma SenderContent(s: State, k: nat, next: seq<Item>)
    requires Inv(s) && k < |s.senders| && !s.senders[k].SCat? && SenderStep(s, k, SenderNext(s, k, next))
    ensures Content(SenderNext(s, k, next))
  {
    assert SenderOk(s, k);
    HeldSame(s, k, SenderNext(s, k, next));
    match s.senders[k]
    case SWait(bufs) =>
      assert bufs[..0] == [];
    case SUnlock(bufs) =>
      FlattenSnoc(s.calls, Flatten(bufs));
    case _ =>
  }

  lemma SenderAwake(s: State, k: nat, s': State)
    requires Inv(s) && k < |s.senders| && SenderStep(s, k, s') && WorkersOk(s')
    requires WillPost(s.senders[k]) && !WillPost(s'.senders[k]) ==> s'.cmdSend > 0 || s'.queue == []
    requires s.queue == [] && s'.queue != [] ==> WillPost(s'.senders[k])
    ensures SendAwake(s') && ReadAwake(s')
  {
    assert OutKept(s) ==> OutKept(s');
    assert InKept(s) ==> InKept(s');
    assert SomeWorkerReads(s) ==> SomeWorkerReads(s');
    assert SomeWorkerSends(s) ==> SomeWorkerSends(s');
    if s'.valid && Pending(s') {
      if Held(s') != [] {
        HeldIsOwed(s');
      } else if WillPost(s'.senders[k]) {
        assert SomeSenderPosts(s');
      } else if SomeSenderPosts(s) {
        var j :| 0 <= j < |s.senders| && WillPost(s.senders[j]);
        assert j != k ==> WillPost(s'.senders[j]);
      }
    }
  }

  lemma SenderKept(s: State, k: nat, next: seq<Item>)
    requires Inv(s) && k < |s.senders|
    ensures Inv(SenderNext(s, k, next))
  {
    var s' := SenderNext(s, k, next);
    SenderFacts(s, k, next);
    OthersKept(s, k, s');
    if s.senders[k].SCat? { CatContent(s, k, next); } else { SenderContent(s, k, next); }
    assert SenderOk(s, k);
    SenderAwake(s, k, s');
  }

  // ---------------------------------------------------------------- pausers, events, commands

  lemma PauserKept(s: State, p: nat)
    requires Inv(s) && p < |s.pausers|
    ensures Inv(PauserNext(s, p))
  {
    var s' := PauserNext(s, p);
    SameThreads(s, s');
    assert SomeWorkerReads(s) ==> SomeWorkerReads(s');
    if s'.pausers[p].PPost? {
      assert SomePauserPosts(s');
    } else if SomePauserPosts(s) {
      var q :| 0 <= q < |s.pausers| && s.pausers[q].PPost?;
      assert q != p ==> s'.pausers[q].PPost?;
    }
  }

  /** Everything but the reading side depends only on the fields listed. */
  lemma SameThreads(s: State, s': State)
    requires Inv(s)
    requires s' == s.(pausers := s'.pausers, paused := s'.paused, senders := s'.senders,
                      cmdUnpause := s'.cmdUnpause, cmdDisconnect := s'.cmdDisconnect)
    requires |s'.senders| == |s.senders|
    requires forall k | 0 <= k < |s.senders| :: s'.senders[k] == s.senders[k] || (s.senders[k].SIdle? && s'.senders[k].SWait?)
    ensures WorkersOk(s') && SendersOk(s') && Closer(s') && Content(s') && SendAwake(s')
    ensures InKept(s) ==> InKept(s')
  {
    forall v | 0 <= v < |s'.workers| ensures WorkerOk(s', v) { assert WorkerOk(s, v); }
    forall j | 0 <= j < |s'.senders| ensures SenderOk(s', j) { assert SenderOk(s, j); }
    assert CurrentCall(s') == CurrentCall(s) by {
      if s.send.BySender? || s.send.Nested? { assert SenderOk(s, s.send.k); }
    }
    assert OutKept(s) ==> OutKept(s');
    assert SomeWorkerSends(s) ==> SomeWorkerSends(s');
    if SomeSenderPosts(s) {
      var j :| 0 <= j < |s.senders| && WillPost(s.senders[j]);
      assert WillPost(s'.senders[j]);
    }
  }

  /** A worker leaves Idle with an event or a command in its hands. */
  lemma TakenKept(s: State, w: nat, s': State)
    requires Inv(s) && IsIdle(s, w) && |s'.workers| == |s.workers|
    requires s' == At(s, w, s'.workers[w]).(armed := s'.armed, cmdSend := s'.cmdSend, cmdUnpause := s'.cmdUnpause,
                                             cmdDisconnect := s'.cmdDisconnect)
    requires s'.workers[w].Enter? || s'.workers[w].CmdSend? || s'.workers[w].CmdUnpause? || s'.workers[w].CmdDisconnect?
    requires s'.armed == s.armed || s'.workers[w].Enter?
    requires s'.cmdUnpause >= s.cmdUnpause || s'.workers[w].CmdUnpause?
    ensures Inv(s')
  {
    forall v | 0 <= v < |s'.workers| ensures WorkerOk(s', v) { assert WorkerOk(s, v) && WorkerOk(s, w); }
    forall j | 0 <= j < |s'.senders| ensures SenderOk(s', j) { assert SenderOk(s, j); }
    assert WorkerOk(s, w);
    assert Held(s') == Held(s) && HeldUnreported(s') == HeldUnreported(s);
    assert SomeWorkerSends(s') by { assert WillSend(s'.workers[w]); }
    if WillRead(s'.workers[w]) {
      assert SomeWorkerReads(s');
    } else {
      if SomeWorkerReads(s) {
        var v :| 0 <= v < |s.workers| && WillRead(s.workers[v]);
        assert WillRead(s'.workers[v]);
      }
      assert InKept(s) ==> InKept(s');
    }
  }

  lemma NextKept(s: State, a: Action)
    requires Inv(s) && Enabled(s, a)
    ensures Inv(Next(s, a))
  {
    var s' := Next(s, a);
    match a
    case Deliver(w, ev) => TakenKept(s, w, s');
    case TakeSend(w) => TakenKept(s, w, s');
    case TakeUnpause(w) => TakenKept(s, w, s');
    case TakeDisconnect(w) => TakenKept(s, w, s');
    case Work(w, ans) => WorkKept(s, w, ans);
    case CallSend(k, bufs) => SameThreads(s, s'); StillReading(s, s');
    case SendStep(k, next) => SenderKept(s, k, next);
    case CallPause(p, b) => SameThreads(s, s'); StillReading(s, s');
    case PauseStep(p) => PauserKept(s, p);
    case CallDisconnect => SameThreads(s, s'); StillReading(s, s');
  }

  lemma StillReading(s: State, s': State)
    requires ReadAwake(s) && (InKept(s) ==> InKept(s'))
    requires s'.workers == s.workers && s'.paused == s.paused && s'.valid == s.valid && s'.cmdUnpause == s.cmdUnpause
    requires |s'.pausers| == |s.pausers|
    requires forall p | 0 <= p < |s.pausers| :: s.pausers[p].PPost? ==> s'.pausers[p].PPost?
    ensures ReadAwake(s')
  {
    assert SomeWorkerReads(s) ==> SomeWorkerReads(s');
    if SomePauserPosts(s) {
      var p :| 0 <= p < |s.pausers| && s.pausers[p].PPost?;
      assert s'.pausers[p].PPost?;
    }
  }

  // ---------------------------------------------------------------- over runs

  lemma {:induction false} RunKeepsInv(tr: seq<State>, i: nat)
    requires Run(tr) && i < |tr|
    ensures Inv(tr[i])
  {
    if i == 0 {
      InitInv(tr[0]);
    } else {
      RunKeepsInv(tr, i - 1);
      assert StepAt(tr, i);
      var a :| Enabled(tr[i - 1], a) && tr[i] == Next(tr[i - 1], a);
      NextKept(tr[i - 1], a);
    }
  }

  /** Something that leads to a send is outstanding: EPOLLOUT armed, a command queued,
      an event or command in a worker's hands that will still look at the length, or a
      SendPackets call that has yet to queue its command. */
  ghost predicate SendOutstanding(s: State) {
    || (s.armed.Armed? && s.armed.out)
    || s.cmdSend > 0
    || (exists w | 0 <= w < |s.workers| :: WillSend(s.workers[w]))
    || (exists k | 0 <= k < |s.senders| :: WillPost(s.senders[k]))
  }

  ghost predicate ReadOutstanding(s: State) {
    || (s.armed.Armed? && s.armed.inn)
    || s.cmdUnpause > 0
    || (exists w | 0 <= w < |s.workers| :: WillRead(s.workers[w]))
    || (exists p | 0 <= p < |s.pausers| :: s.pausers[p].PPost?)
  }

  /** No wakeup is lost: bytes waiting on a valid connection always have something
      outstanding that will send them, and a connection that is not paused always has
      something outstanding that will read from it. */
  lemma NoLostWakeup(tr: seq<State>, i: nat)
    requires Run(tr) && i < |tr| && tr[i].valid
    ensures Pending(tr[i]) ==> SendOutstanding(tr[i])
    ensures !tr[i].paused ==> ReadOutstanding(tr[i])
  {
    RunKeepsInv(tr, i);
  }

  /** Nothing is in progress: every thread is idle and no command waits. */
  ghost predicate Quiet(s: State) {
    && (forall w | 0 <= w < |s.workers| :: s.workers[w].Idle?)
    && (forall k | 0 <= k < |s.senders| :: s.senders[k].SIdle?)
    && (forall p | 0 <= p < |s.pausers| :: s.pausers[p].PIdle?)
    && s.cmdSend == 0 && s.cmdUnpause == 0
  }

  /** When nothing is in progress, the registration itself asks for what is needed:
      EPOLLOUT while bytes are queued, EPOLLIN while not paused. */
  lemma QuietIsArmed(tr: seq<State>, i: nat)
    requires Run(tr) && i < |tr| && tr[i].valid && Quiet(tr[i])
    ensures tr[i].queue != [] ==> tr[i].armed.Armed? && tr[i].armed.out
    ensures !tr[i].paused ==> tr[i].armed.Armed? && tr[i].armed.inn
  {
    RunKeepsInv(tr, i);
  }

  /** Bytes are conserved, in order: while the connection is valid, what SendPackets
      accepted is what the socket took, then what a worker holds, then the queue. Ever
      after, what the socket took is a prefix of what was accepted, and OnSend reported
      exactly what the socket took but for one write in progress. */
  lemma BytesConserved(tr: seq<State>, i: nat)
    requires Run(tr) && i < |tr|
    ensures var s := tr[i];
      && (s.valid ==> s.accepted == s.written + Held(s) + Flatten(s.queue))
      && s.written <= s.accepted
      && s.notified <= s.written
      && (s.written != s.notified ==> WorkerOwns(s) && s.workers[s.send.w].Fire?)
  {
    RunKeepsInv(tr, i);
    var s := tr[i];
    assert s.written + (Held(s) + Flatten(s.queue)) == s.written + Held(s) + Flatten(s.queue);
  }

  /** The accepted bytes are the payloads of the finished calls, in lock order, followed
      by a part of the one call that owns the send lock: no call is cut by another. */
  lemma CallsContiguous(tr: seq<State>, i: nat)
    requires Run(tr) && i < |tr|
    ensures var s := tr[i];
      && s.accepted == Flatten(s.calls) + CurrentCall(s)
      && (CurrentCall(s) != [] ==> s.send.k < |s.senders| && InSend(s.senders[s.send.k])
                                   && CurrentCall(s) <= Flatten(s.senders[s.send.k].bufs))
  {
    RunKeepsInv(tr, i);
    var s := tr[i];
    if CurrentCall(s) != [] {
      assert SenderOk(s, s.send.k);
      var pc := s.senders[s.send.k];
      if pc.SCat? {
        FlattenAppend(pc.bufs[..pc.k], pc.bufs[pc.k..]);
        assert pc.bufs == pc.bufs[..pc.k] + pc.bufs[pc.k..];
      }
    }
  }

  /** At most one AddFreeSocketObj wins, OnClose fires at most once, nothing is received
      or reported after it, and OnAfterProcessIo's assertion holds. */
  lemma OneCloser(tr: seq<State>, i: nat)
    requires Run(tr) && i < |tr|
    ensures var s := tr[i];
      && |s.winners| <= 1 && (s.valid <==> s.winners == [])
      && s.closes <= 1 && (s.closes == 1 ==> !s.valid)
      && !s.late
      && (forall w | 0 <= w < |s.workers| :: s.workers[w].Finish? && s.valid ==>
            !s.workers[w].ev.err && !s.workers[w].ev.hup)
  {
    RunKeepsInv(tr, i);
    forall w | 0 <= w < |tr[i].workers| && tr[i].workers[w].Finish? && tr[i].valid
      ensures !tr[i].workers[w].ev.err && !tr[i].workers[w].ev.hup
    {
      assert WorkerOk(tr[i], w);
    }
  }

  /** Once invalid, an incarnation stays invalid and keeps its closer. */
  lemma {:induction false} CloserFixed(tr: seq<State>, i: nat, j: nat)
    requires Run(tr) && i <= j < |tr| && !tr[i].valid
    ensures !tr[j].valid && tr[j].winners == tr[i].winners && tr[i].closes <= tr[j].closes
  {
    if i < j {
      CloserFixed(tr, i, j - 1);
      StaysAt(tr, j);
    }
  }

  lemma StaysAt(tr: seq<State>, j: nat)
    requires Run(tr) && 0 < j < |tr| && !tr[j - 1].valid
    ensures !tr[j].valid && tr[j].winners == tr[j - 1].winners && tr[j - 1].closes <= tr[j].closes
  {
    RunKeepsInv(tr, j - 1);
    assert StepAt(tr, j);
    CloserStays(tr[j - 1], tr[j]);
  }

  lemma CloserStays(s: State, s': State)
    requires Inv(s) && Step(s, s') && !s.valid
    ensures !s'.valid && s'.winners == s.winners && s.closes <= s'.closes
  {
    var a :| Enabled(s, a) && s' == Next(s, a);
    if a.Work? && !s.workers[a.w].Idle? {
      assert WorkerOk(s, a.w);
      WorkFacts(s, a.w, a.ans);
    } else if a.SendStep? {
      SenderFacts(s, a.k, a.next);
    }
  }
}

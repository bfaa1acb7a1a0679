/** The two tables agree exactly in the runs in which no address is erased too early. */
module UdpIndexTheorems {
  import opened Sums
  import opened UdpIndex

  // ---------------------------------------------------------------- the locks

  lemma LocksKept(s: State, a: Action)
    requires Locks(s) && Enabled(s, a)
    ensures Locks(Next(s, a))
  {
    var s' := Next(s, a);
    match a
    case ReceiverStep(r, id) => ReceiverLocks(s, r, id);
    case CloserStep(k) => CloserLocks(s, k);
    case _ =>
      forall q | 0 <= q < |s'.receivers| ensures ReceiverOk(s', q) { assert ReceiverOk(s, q); }
      forall k | 0 <= k < |s'.closers| ensures CloserOk(s', k) { assert CloserOk(s, k); }
      forall o | 0 <= o < |s'.peers| ensures AddedBy(s', o) { assert AddedBy(s, o); }
  }

  lemma ReceiverLocks(s: State, r: nat, id: nat)
    requires Locks(s) && r < |s.receivers|
    ensures Locks(ReceiverNext(s, r, id))
  {
    var s' := ReceiverNext(s, r, id);
    assert ReceiverOk(s, r);
    forall q | 0 <= q < |s'.receivers| ensures ReceiverOk(s', q) { assert ReceiverOk(s, q); }
    forall k | 0 <= k < |s'.closers| ensures CloserOk(s', k) { assert CloserOk(s, k); }
    forall o | 0 <= o < |s'.peers| ensures AddedBy(s', o) { assert o < |s.peers| ==> AddedBy(s, o); }
  }

  lemma CloserLocks(s: State, k: nat)
    requires Locks(s) && k < |s.closers|
    ensures Locks(CloserNext(s, k))
  {
    var s' := CloserNext(s, k);
    assert CloserOk(s, k);
    forall q | 0 <= q < |s'.receivers| ensures ReceiverOk(s', q) { assert ReceiverOk(s, q); }
    forall j | 0 <= j < |s'.closers| ensures CloserOk(s', j) { assert CloserOk(s, j); }
    forall o | 0 <= o < |s'.peers| ensures AddedBy(s', o) { assert AddedBy(s, o); }
  }

  // ---------------------------------------------------------------- agreement

  /** Steps that touch neither the tables nor an object. */
  lemma SameTables(s: State, s': State)
    requires Agree(s) && s'.peers == s.peers && s'.table == s.table && s'.index == s.index
    ensures Agree(s')
  {
    forall o | 0 <= o < |s'.peers| ensures PeerOk(s', o) { assert PeerOk(s, o); }
    forall o, q | 0 <= o < |s'.peers| && 0 <= q < |s'.peers| ensures PairOk(s', o, q) { assert PairOk(s, o, q); }
    StaleSame(s, s', -1);
  }

  /** The entries other than `gone` keep the objects they stand for. */
  lemma StaleSame(s: State, s': State, gone: int)
    requires NoStaleEntry(s) && |s.peers| <= |s'.peers|
    requires forall a | a in s'.index :: a in s.index && a != gone
    requires forall o, a | 0 <= o < |s.peers| && a != gone && Backs(s, o, a) :: Backs(s', o, a)
    ensures NoStaleEntry(s')
  {
    forall a | a in s'.index ensures exists o | 0 <= o < |s'.peers| :: Backs(s', o, a) {
      var o :| 0 <= o < |s.peers| && Backs(s, o, a);
      assert Backs(s', o, a);
    }
  }

  /** A new object: its address was in nobody's hands. */
  lemma AddAgrees(s: State, r: nat, id: nat)
    requires Locks(s) && Agree(s) && r < |s.receivers| && s.receivers[r].RAdd? && FreshId(s, id)
    ensures Agree(ReceiverNext(s, r, id))
  {
    var s', addr, n := ReceiverNext(s, r, id), s.receivers[r].addr, |s.peers|;
    assert ReceiverOk(s, r);
    forall o | 0 <= o < n ensures s.peers[o].phase.Erased? || (s.peers[o].addr != addr && s.peers[o].id != id) {
      assert PeerOk(s, o) && AddedBy(s, o);
    }
    forall o | 0 <= o < |s'.peers| ensures PeerOk(s', o) { assert o < n ==> PeerOk(s, o); }
    forall o, q | 0 <= o < |s'.peers| && 0 <= q < |s'.peers| ensures PairOk(s', o, q) {
      assert o < n && q < n ==> PairOk(s, o, q);
    }
    StaleSame(s, s', -1);
  }

  lemma IndexAgreesStep(s: State, r: nat, id: nat)
    requires Locks(s) && Agree(s) && r < |s.receivers| && s.receivers[r].RIndex?
    ensures Agree(ReceiverNext(s, r, id))
  {
    var s', o0 := ReceiverNext(s, r, id), s.receivers[r].o;
    assert ReceiverOk(s, r) && PeerOk(s, o0);
    forall o | 0 <= o < |s'.peers| ensures PeerOk(s', o) { assert PeerOk(s, o) && PairOk(s, o, o0); }
    forall o, q | 0 <= o < |s'.peers| && 0 <= q < |s'.peers| ensures PairOk(s', o, q) { assert PairOk(s, o, q); }
    forall a | a in s'.index ensures exists o | 0 <= o < |s'.peers| :: Backs(s', o, a) {
      if a == s.peers[o0].addr {
        assert Backs(s', o0, a);
      } else {
        var o :| 0 <= o < |s.peers| && Backs(s, o, a);
        assert Backs(s', o, a);
      }
    }
  }

  /** Erasing by content takes away the closer's own entry and no other. */
  lemma EraseIsOwn(s: State, k: nat)
    requires Locks(s) && Agree(s) && k < |s.closers| && s.closers[k].CErase? && !Early(s, CloserStep(k))
    ensures var o := s.closers[k].o;
      && o < |s.peers| && s.peers[o].addr in s.index && s.index[s.peers[o].addr] == s.peers[o].id
      && forall q | 0 <= q < |s.peers| && q != o && !s.peers[q].phase.Erased? :: s.peers[q].addr != s.peers[o].addr
  {
    assert CloserOk(s, k);
    var o := s.closers[k].o;
    assert PeerOk(s, o);
    forall q | 0 <= q < |s.peers| && q != o && !s.peers[q].phase.Erased? ensures s.peers[q].addr != s.peers[o].addr {
      assert PairOk(s, q, o);
    }
  }

  lemma EraseAgrees(s: State, k: nat)
    requires Locks(s) && Agree(s) && k < |s.closers| && s.closers[k].CErase? && !Early(s, CloserStep(k))
    ensures Agree(CloserNext(s, k))
  {
    var s', o0 := CloserNext(s, k), s.closers[k].o;
    assert CloserOk(s, k);
    EraseIsOwn(s, k);
    forall o | 0 <= o < |s'.peers| ensures PeerOk(s', o) { assert PeerOk(s, o); }
    forall o, q | 0 <= o < |s'.peers| && 0 <= q < |s'.peers| ensures PairOk(s', o, q) { assert PairOk(s, o, q); }
    StaleSame(s, s', s.peers[o0].addr);
  }

  lemma CloseAgrees(s: State, k: nat)
    requires Locks(s) && Agree(s) && k < |s.closers| && !s.closers[k].CErase?
    ensures Agree(CloserNext(s, k))
  {
    var s' := CloserNext(s, k);
    assert CloserOk(s, k);
    if s'.peers == s.peers {
      SameTables(s, s');
    } else {
      var o0 := s.closers[k].o;
      forall o | 0 <= o < |s'.peers| ensures PeerOk(s', o) { assert PeerOk(s, o) && PairOk(s, o, o0); }
      forall o, q | 0 <= o < |s'.peers| && 0 <= q < |s'.peers| ensures PairOk(s', o, q) { assert PairOk(s, o, q); }
      StaleSame(s, s', -1);
    }
  }

  lemma NextAgrees(s: State, a: Action)
    requires Locks(s) && Agree(s) && Enabled(s, a) && !Early(s, a)
    ensures Agree(Next(s, a))
  {
    match a
    case ReceiverStep(r, id) =>
      if s.receivers[r].RAdd? && FreshId(s, id) {
        AddAgrees(s, r, id);
      } else if s.receivers[r].RIndex? {
        IndexAgreesStep(s, r, id);
      } else {
        SameTables(s, Next(s, a));
      }
    case CloserStep(k) => if s.closers[k].CErase? { EraseAgrees(s, k); } else { CloseAgrees(s, k); }
    case _ => SameTables(s, Next(s, a));
  }

  // ---------------------------------------------------------------- disagreement

  /** Address `a` has no object left, but is or will be in the index, for good. */
  ghost predicate Broken(s: State, a: nat) {
    && (forall o | 0 <= o < |s.peers| && s.peers[o].addr == a :: s.peers[o].phase.Erased?)
    && (a in s.index || exists o | 0 <= o < |s.peers| :: s.peers[o].addr == a && !s.peers[o].indexed)
    && (forall r | 0 <= r < |s.receivers| && s.receivers[r].RAdd? :: s.receivers[r].addr != a)
  }

  lemma EarlyBreaks(s: State, k: nat)
    requires Locks(s) && Agree(s) && Early(s, CloserStep(k))
    ensures Broken(CloserNext(s, k), s.peers[s.closers[k].o].addr)
  {
    var s', o0 := CloserNext(s, k), s.closers[k].o;
    var a := s.peers[o0].addr;
    assert CloserOk(s, k) && AddedBy(s, o0);
    forall o | 0 <= o < |s'.peers| && s'.peers[o].addr == a ensures s'.peers[o].phase.Erased? {
      assert PairOk(s, o, o0);
    }
    assert s'.peers[o0].addr == a && !s'.peers[o0].indexed;
    forall r | 0 <= r < |s'.receivers| ensures !s'.receivers[r].RAdd? { assert ReceiverOk(s, r); }
  }

  lemma ReceiverStaysBroken(s: State, r: nat, id: nat, a: nat)
    requires Locks(s) && r < |s.receivers| && Broken(s, a)
    ensures Broken(ReceiverNext(s, r, id), a)
  {
    var s' := ReceiverNext(s, r, id);
    assert ReceiverOk(s, r);
    if a !in s.index {
      var o :| 0 <= o < |s.peers| && s.peers[o].addr == a && !s.peers[o].indexed;
      assert AddedBy(s, o);
      assert s'.peers[o].addr == a && (s'.peers[o].indexed ==> a in s'.index);
    }
  }

  lemma CloserStaysBroken(s: State, k: nat, a: nat)
    requires Locks(s) && k < |s.closers| && Broken(s, a)
    ensures Broken(CloserNext(s, k), a)
  {
    var s' := CloserNext(s, k);
    assert CloserOk(s, k);
    if a !in s.index {
      var o :| 0 <= o < |s.peers| && s.peers[o].addr == a && !s.peers[o].indexed;
      assert s'.peers[o].addr == a && !s'.peers[o].indexed;
    }
  }

  lemma StaysBroken(s: State, act: Action, a: nat)
    requires Locks(s) && Enabled(s, act) && Broken(s, a)
    ensures Broken(Next(s, act), a)
  {
    match act
    case ReceiverStep(r, id) => ReceiverStaysBroken(s, r, id, a);
    case CloserStep(k) => CloserStaysBroken(s, k, a);
    case _ =>
      if a !in s.index {
        var o :| 0 <= o < |s.peers| && s.peers[o].addr == a && !s.peers[o].indexed;
        assert Next(s, act).peers[o].addr == a;
      }
  }

  lemma {:induction false} RunStaysBroken(s: State, acts: seq<Action>, s': State, a: nat)
    requires Locks(s) && Broken(s, a) && Run(s, acts, s')
    ensures Locks(s') && Broken(s', a)
    decreases acts
  {
    if acts != [] {
      LocksKept(s, acts[0]);
      StaysBroken(s, acts[0], a);
      RunStaysBroken(Next(s, acts[0]), acts[1..], s', a);
    }
  }

  // ---------------------------------------------------------------- main results

  lemma {:induction false} RunKeeps(s: State, acts: seq<Action>, s': State)
    requires Locks(s) && Agree(s) && Run(s, acts, s')
    ensures Locks(s')
    ensures if NeverEarly(s, acts) then Agree(s') else exists a :: Broken(s', a)
    decreases acts
  {
    if acts != [] {
      LocksKept(s, acts[0]);
      if Early(s, acts[0]) {
        EarlyBreaks(s, acts[0].k);
        RunStaysBroken(Next(s, acts[0]), acts[1..], s', s.peers[s.closers[acts[0].k].o].addr);
      } else {
        NextAgrees(s, acts[0]);
        RunKeeps(Next(s, acts[0]), acts[1..], s');
      }
    }
  }

  /** If no address is erased before it has been entered, then in every state the tables
      agree: the address of a connection that is entered and not yet erased leads to its
      id, the id of a valid one leads to it, no two that are not erased share an address,
      no address leads to a connection that is gone, and whoever is about to erase an
      address erases the entry of the connection it closed. */
  lemma IndexAgrees(s: State, acts: seq<Action>, s': State)
    requires Init(s) && Run(s, acts, s') && NeverEarly(s, acts)
    ensures forall o | 0 <= o < |s'.peers| && s'.peers[o].indexed && !s'.peers[o].phase.Erased? ::
      s'.peers[o].addr in s'.index && s'.index[s'.peers[o].addr] == s'.peers[o].id
    ensures forall o | 0 <= o < |s'.peers| && s'.peers[o].phase.Live? ::
      s'.peers[o].id in s'.table && s'.table[s'.peers[o].id] == o
    ensures forall o, q | 0 <= o < q < |s'.peers| && !s'.peers[o].phase.Erased? && !s'.peers[q].phase.Erased? ::
      s'.peers[o].addr != s'.peers[q].addr
    ensures NoStaleEntry(s')
    ensures forall k | 0 <= k < |s'.closers| && s'.closers[k].CErase? && !Early(s', CloserStep(k)) ::
      && s'.closers[k].o < |s'.peers| && s'.peers[s'.closers[k].o].addr in s'.index
      && s'.index[s'.peers[s'.closers[k].o].addr] == s'.peers[s'.closers[k].o].id
  {
    RunKeeps(s, acts, s');
    forall o | 0 <= o < |s'.peers|
      ensures s'.peers[o].indexed && !s'.peers[o].phase.Erased? ==>
        s'.peers[o].addr in s'.index && s'.index[s'.peers[o].addr] == s'.peers[o].id
      ensures s'.peers[o].phase.Live? ==> s'.peers[o].id in s'.table && s'.table[s'.peers[o].id] == o
    {
      assert PeerOk(s', o);
    }
    forall o, q | 0 <= o < q < |s'.peers| && !s'.peers[o].phase.Erased? && !s'.peers[q].phase.Erased?
      ensures s'.peers[o].addr != s'.peers[q].addr
    {
      assert PairOk(s', o, q);
    }
    forall k | 0 <= k < |s'.closers| && s'.closers[k].CErase? && !Early(s', CloserStep(k))
      ensures s'.closers[k].o < |s'.peers| && s'.peers[s'.closers[k].o].addr in s'.index
      ensures s'.index[s'.peers[s'.closers[k].o].addr] == s'.peers[s'.closers[k].o].id
    {
      EraseIsOwn(s', k);
    }
  }

  /** The condition is exact: when no receiver is between its two insertions, the index is
      free of stale entries if and only if no address was ever erased too early. A stale
      entry stays for good, and keeps its address from ever being accepted again. */
  lemma AgreesIffNeverEarly(s: State, acts: seq<Action>, s': State)
    requires Init(s) && Run(s, acts, s')
    requires forall r | 0 <= r < |s'.receivers| :: !s'.receivers[r].RIndex?
    ensures NoStaleEntry(s') <==> NeverEarly(s, acts)
  {
    RunKeeps(s, acts, s');
    if !NeverEarly(s, acts) {
      var a :| Broken(s', a);
      forall o | 0 <= o < |s'.peers| ensures s'.peers[o].indexed && !Backs(s', o, a) { assert AddedBy(s', o); }
      assert a in s'.index;
    }
  }

  // ---------------------------------------------------------------- such a run exists

  lemma RunOne(s: State, a: Action, acts: seq<Action>, s': State)
    requires Enabled(s, a) && Run(Next(s, a), acts, s')
    ensures Run(s, [a] + acts, s')
  {
    assert ([a] + acts)[1..] == acts;
  }

  const START := State([], map[], map[], Free, [RIdle], [CIdle])

  /** The object is in the table, and a closer has found it there. */
  const ADDED := State([Peer(7, 1, Live, false, 0)], map[1 := 0], map[], Held(0), [RIndex(0)], [CTry(0)])

  lemma UpToAdded() returns (acts: seq<Action>)
    ensures Run(START, acts, ADDED)
  {
    var step := ReceiverStep(0, 1);
    var s1 := Next(START, Datagram(0, 7));
    var s2 := Next(s1, step);
    var s3 := Next(s2, step);
    var s4 := Next(s3, step);
    assert Next(s4, Close(0, 0)) == ADDED;
    RunOne(s4, Close(0, 0), [], ADDED);
    acts := [Close(0, 0)];
    RunOne(s3, step, acts, ADDED);
    acts := [step] + acts;
    RunOne(s2, step, acts, ADDED);
    acts := [step] + acts;
    RunOne(s1, step, acts, ADDED);
    acts := [step] + acts;
    RunOne(START, Datagram(0, 7), acts, ADDED);
    acts := [Datagram(0, 7)] + acts;
  }

  /** It is closed, out of both tables, before the receiver enters its address. */
  lemma EarlyErase() returns (acts: seq<Action>, s': State)
    ensures Run(ADDED, acts, s') && s'.index == map[7 := 1] && s'.table == map[]
    ensures s'.receivers == [RUnlock] && s'.peers == [Peer(7, 1, Erased, true, 0)]
  {
    var close := CloserStep(0);
    var s1 := Next(ADDED, close);
    var s2 := Next(s1, close);
    var s3 := Next(s2, close);
    s' := Next(s3, ReceiverStep(0, 1));
    RunOne(s3, ReceiverStep(0, 1), [], s');
    acts := [ReceiverStep(0, 1)];
    RunOne(s2, close, acts, s');
    acts := [close] + acts;
    RunOne(s1, close, acts, s');
    acts := [close] + acts;
    RunOne(ADDED, close, acts, s');
    acts := [close] + acts;
  }

  lemma {:induction false} RunsAppend(s: State, acts: seq<Action>, mid: State, more: seq<Action>, s': State)
    requires Run(s, acts, mid) && Run(mid, more, s')
    ensures Run(s, acts + more, s')
    decreases acts
  {
    if acts == [] {
      assert acts + more == more;
    } else {
      RunsAppend(Next(s, acts[0]), acts[1..], mid, more, s');
      assert (acts + more)[1..] == acts[1..] + more;
    }
  }

  /** A connection closed between its two insertions leaves an entry behind. */
  lemma EarlyEraseLeavesEntry() returns (acts: seq<Action>, s': State)
    ensures Init(START) && Run(START, acts, s') && !NeverEarly(START, acts)
    ensures s'.index == map[7 := 1] && s'.table == map[] && !NoStaleEntry(s')
  {
    var first := UpToAdded();
    var second, last := EarlyErase();
    s' := last;
    acts := first + second;
    RunsAppend(START, first, ADDED, second, s');
    forall o | 0 <= o < |s'.peers| ensures !Backs(s', o, 7) { }
    assert 7 in s'.index;
    AgreesIffNeverEarly(START, acts, s');
  }

  // ---------------------------------------------------------------- nobody waits for ever

  function ReceiverRank(pc: Receiver): nat {
    match pc
    case RIdle => 0
    case RUnlock => 1
    case RIndex(_) => 2
    case RAdd(_) => 3
    case RLocked(_) => 4
    case RWait(_) => 5
  }

  function CloserRank(pc: Closer): nat {
    match pc
    case CIdle => 0
    case CErase(_) => 1
    case CRemove(_) => 2
    case CTry(_) => 3
  }

  function Busy(s: State): nat { Sum(s.receivers, ReceiverRank) + Sum(s.closers, CloserRank) }

  ghost predicate Settled(s: State) {
    && (forall r | 0 <= r < |s.receivers| :: s.receivers[r].RIdle?)
    && (forall k | 0 <= k < |s.closers| :: s.closers[k].CIdle?)
  }

  /** csAccept is free, or a receiver holds it. */
  predicate LockHeld(s: State) { s.accept.Held? ==> s.accept.r < |s.receivers| }

  /** There is always an id to hand out. */
  lemma FreshOne(s: State, n: nat) returns (id: nat)
    requires n <= |s.peers|
    ensures forall o | 0 <= o < n :: s.peers[o].id < id
  {
    id := 0;
    if n > 0 {
      id := FreshOne(s, n - 1);
      if s.peers[n - 1].id >= id { id := s.peers[n - 1].id + 1; }
    }
  }

  lemma ReceiverMoves(s: State, r: nat, id: nat)
    requires Locks(s) && r < |s.receivers| && !s.receivers[r].RIdle? && (s.receivers[r].RWait? ==> s.accept.Free?)
    requires s.receivers[r].RAdd? ==> FreshId(s, id)
    ensures var s' := ReceiverNext(s, r, id); |s'.receivers| == |s.receivers| && s'.closers == s.closers && Busy(s') < Busy(s)
  {
    assert ReceiverOk(s, r);
    SumUpdate(s.receivers, r, ReceiverNext(s, r, id).receivers[r], ReceiverRank);
  }

  lemma CloserMoves(s: State, k: nat)
    requires Locks(s) && k < |s.closers| && !s.closers[k].CIdle?
    ensures var s' := CloserNext(s, k); s'.receivers == s.receivers && |s'.closers| == |s.closers| && Busy(s') < Busy(s)
  {
    assert CloserOk(s, k);
    SumUpdate(s.closers, k, CloserNext(s, k).closers[k], CloserRank);
  }

  /** A thread that does not wait for csAccept: its holder, if there is one. */
  lemma SomeoneMoves(s: State) returns (a: Action)
    requires Locks(s) && LockHeld(s) && !Settled(s)
    ensures Enabled(s, a) && LockHeld(Next(s, a)) && Busy(Next(s, a)) < Busy(s)
    ensures |Next(s, a).receivers| == |s.receivers|
  {
    if k :| 0 <= k < |s.closers| && !s.closers[k].CIdle? {
      CloserMoves(s, k);
      a := CloserStep(k);
    } else {
      var r :| 0 <= r < |s.receivers| && !s.receivers[r].RIdle?;
      if s.accept.Held? {
        r := s.accept.r;
        assert ReceiverOk(s, r);
      }
      var id := FreshOne(s, |s.peers|);
      ReceiverMoves(s, r, id);
      a := ReceiverStep(r, id);
    }
  }

  lemma {:induction false} LockStaysHeld(s: State, acts: seq<Action>, s': State)
    requires LockHeld(s) && Run(s, acts, s')
    ensures LockHeld(s') && |s'.receivers| == |s.receivers|
    decreases acts
  {
    if acts != [] { LockStaysHeld(Next(s, acts[0]), acts[1..], s'); }
  }

  lemma {:induction false} CanSettle(s: State) returns (acts: seq<Action>, s': State)
    requires Locks(s) && LockHeld(s)
    ensures Run(s, acts, s') && Locks(s') && LockHeld(s') && Settled(s') && |s'.receivers| == |s.receivers|
    decreases Busy(s)
  {
    acts, s' := [], s;
    if !Settled(s) {
      var a := SomeoneMoves(s);
      LocksKept(s, a);
      var more;
      more, s' := CanSettle(Next(s, a));
      acts := [a] + more;
      assert acts[1..] == more;
    }
  }

  /** With nobody at work, a datagram from an address that has no entry gets one. */
  lemma Enters(s: State, addr: nat) returns (acts: seq<Action>, s': State)
    requires Settled(s) && s.accept.Free? && |s.receivers| > 0 && addr !in s.index
    ensures Run(s, acts, s') && addr in s'.index && s'.index[addr] in s'.table
    ensures |s'.peers| == |s.peers| + 1 && s'.table[s'.index[addr]] == |s.peers| && s'.peers[|s.peers|].phase.Live?
  {
    var id := FreshOne(s, |s.peers|);
    var s1 := Next(s, Datagram(0, addr));
    var s2 := Next(s1, ReceiverStep(0, id));
    var s3 := Next(s2, ReceiverStep(0, id));
    assert s3.receivers[0] == RAdd(addr);
    acts, s' := Added(s3, addr, id);
    acts := [Datagram(0, addr), ReceiverStep(0, id), ReceiverStep(0, id)] + acts;
    assert acts[1..][1..][1..] == acts[3..];
    assert Run(s2, acts[2..], s') && Run(s1, acts[1..], s');
  }

  lemma Added(s: State, addr: nat, id: nat) returns (acts: seq<Action>, s': State)
    requires |s.receivers| > 0 && s.receivers[0] == RAdd(addr) && FreshId(s, id)
    ensures Run(s, acts, s') && addr in s'.index && s'.index[addr] == id && s'.table == s.table[id := |s.peers|]
    ensures s'.peers == s.peers + [Peer(addr, id, Live, true, 0)]
  {
    var s1 := Next(s, ReceiverStep(0, id));
    s' := Next(s1, ReceiverStep(0, id));
    acts := [ReceiverStep(0, id), ReceiverStep(0, id)];
    assert acts[1..][1..] == [] && acts[1..] == [ReceiverStep(0, id)];
    assert Run(s1, acts[1..], s');
  }

  /** csAccept cannot deadlock: from every reachable state all receivers and closers can
      finish, and then an address without an entry can be accepted: it gets an entry that
      leads to a live connection of its own. */
  lemma AnyoneCanConnect(s0: State, before: seq<Action>, s: State, addr: nat)
      returns (acts: seq<Action>, mid: State, more: seq<Action>, s': State)
    requires Init(s0) && Run(s0, before, s) && |s.receivers| > 0
    ensures Run(s, acts, mid) && Settled(mid)
    ensures addr !in mid.index ==>
      && Run(mid, more, s') && addr in s'.index && s'.index[addr] in s'.table
      && s'.table[s'.index[addr]] < |s'.peers| && s'.peers[s'.table[s'.index[addr]]].phase.Live?
  {
    InitLocks(s0);
    RunKeepsLocks(s0, before, s);
    LockStaysHeld(s0, before, s);
    acts, mid := CanSettle(s);
    more, s' := [], mid;
    if addr !in mid.index {
      assert mid.accept.Held? ==> ReceiverOk(mid, mid.accept.r);
      more, s' := Enters(mid, addr);
    }
  }

  lemma InitLocks(s: State)
    requires Init(s)
    ensures Locks(s)
  {
  }

  lemma {:induction false} RunKeepsLocks(s: State, acts: seq<Action>, s': State)
    requires Locks(s) && Run(s, acts, s')
    ensures Locks(s')
    decreases acts
  {
    if acts != [] {
      LocksKept(s, acts[0]);
      RunKeepsLocks(Next(s, acts[0]), acts[1..], s');
    }
  }
}

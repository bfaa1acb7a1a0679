/** Nothing gets lost between the containers: every thread can finish with the object in its
    hands, and then every object is active, or free, or garbage, and garbage can be destroyed. */
module SocketPoolReturn {
  import opened Sums
  import opened SocketPool
  import opened SocketPoolTheorems

  /** OnClose is fired for the connection the thread has won, and only if it was asked for. */
  lemma FiresIffAsked(s: State, k: nat)
    requires Inv(s) && Enabled(s, FireClose(k))
    ensures var s', c := Next(s, FireClose(k)), s.closers[k];
      s'.log == (if c.fire then s.log + [Closed(c.id)] else s.log) && s'.closers == s.closers[k := CFired(c.o, c.id)]
  {
    assert CloserOk(s, k);
  }

  function AcceptorRank(pc: Acceptor): nat {
    match pc
    case AIdle => 0
    case AHas(_) => 1
    case ALocked(_) => 2
  }

  function CloserRank(pc: Closer): nat {
    match pc
    case CIdle => 0
    case CHas(_, _) | CReleased(_, _) => 1
    case CRemoved(_, _) => 2
    case CFired(_, _) => 3
    case CWon(_, _, _) => 4
  }

  function Busy(s: State): nat { Sum(s.acceptors, AcceptorRank) + Sum(s.closers, CloserRank) }

  ghost predicate AllIdle(s: State) {
    && (forall a | 0 <= a < |s.acceptors| :: s.acceptors[a].AIdle?)
    && (forall k | 0 <= k < |s.closers| :: s.closers[k].CIdle?)
  }

  function NextOfCloser(pc: Closer, k: nat): Action {
    match pc
    case CIdle | CHas(_, _) => Drop(k)
    case CWon(_, _, _) => FireClose(k)
    case CFired(_, _) => Remove(k)
    case CRemoved(_, _) => Release(k)
    case CReleased(_, _) => PutBack(k, false)
  }

  lemma CloserMoves(s: State, k: nat)
    requires Inv(s) && k < |s.closers| && !s.closers[k].CIdle?
    ensures var a := NextOfCloser(s.closers[k], k); Enabled(s, a) && Busy(Next(s, a)) < Busy(s)
  {
    assert CloserOk(s, k);
    var s' := Next(s, NextOfCloser(s.closers[k], k));
    SumUpdate(s.closers, k, s'.closers[k], CloserRank);
  }

  lemma AcceptorMoves(s: State, i: nat)
    requires Inv(s) && i < |s.acceptors| && !s.acceptors[i].AIdle?
    ensures var a := if s.acceptors[i].ALocked? then Decide(i) else Publish(i); Enabled(s, a) && Busy(Next(s, a)) < Busy(s)
  {
    assert AcceptorOk(s, i);
    var s' := Next(s, if s.acceptors[i].ALocked? then Decide(i) else Publish(i));
    SumUpdate(s.acceptors, i, s'.acceptors[i], AcceptorRank);
  }

  lemma {:induction false} CanSettle(s: State) returns (acts: seq<Action>, s': State)
    requires Inv(s)
    ensures Runs(s, acts, s') && Inv(s') && AllIdle(s')
    decreases Busy(s)
  {
    acts, s' := [], s;
    if !AllIdle(s) {
      var a;
      if k :| 0 <= k < |s.closers| && !s.closers[k].CIdle? {
        CloserMoves(s, k);
        a := NextOfCloser(s.closers[k], k);
      } else {
        var i :| 0 <= i < |s.acceptors| && !s.acceptors[i].AIdle?;
        AcceptorMoves(s, i);
        a := if s.acceptors[i].ALocked? then Decide(i) else Publish(i);
      }
      NextKept(s, a);
      var more;
      more, s' := CanSettle(Next(s, a));
      acts := [a] + more;
      assert acts[1..] == more;
    }
  }

  /** From every reachable state all threads can finish; then an object is valid and active
      under its own id, or it waits in the ring or the garbage queue, or it is destroyed. */
  lemma EverythingReturns(s0: State, before: seq<Action>, s: State) returns (acts: seq<Action>, s': State)
    requires Init(s0) && Runs(s0, before, s)
    ensures Runs(s, acts, s') && AllIdle(s')
    ensures forall o | 0 <= o < |s'.objs| ::
      if s'.objs[o].valid then s'.objs[o].connID in s'.table && s'.table[s'.objs[o].connID] == o
      else o in s'.ring || o in s'.gc || s'.objs[o].home.Destroyed?
  {
    InitInv(s0);
    RunKeepsInv(s0, before, s);
    acts, s' := CanSettle(s);
    forall o | 0 <= o < |s'.objs|
      ensures if s'.objs[o].valid then s'.objs[o].connID in s'.table && s'.table[s'.objs[o].connID] == o
        else o in s'.ring || o in s'.gc || s'.objs[o].home.Destroyed?
    {
      assert ObjOk(s', o);
    }
  }

  lemma {:induction false} Ticks(s: State, n: nat) returns (acts: seq<Action>)
    requires 0 <= n
    ensures Runs(s, acts, s.(now := s.now + n))
    decreases n
  {
    acts := [];
    if n > 0 {
      var more := Ticks(Next(s, Tick), n - 1);
      acts := [Tick] + more;
      assert acts[1..] == more;
    }
  }

  /** A thread that has released an object can destroy the garbage in front, once its lock
      time has passed. */
  lemma GarbageGoes(s: State, k: nat) returns (acts: seq<Action>, s': State)
    requires Inv(s) && k < |s.closers| && s.closers[k].CReleased? && s.gc != []
    ensures Runs(s, acts, s') && s'.gc == s.gc[1..] && s.gc[0] < |s'.objs| == |s.objs| && s'.objs[s.gc[0]].home.Destroyed?
    ensures s'.now - s.objs[s.gc[0]].freeTime >= s.lockTime
  {
    var wait := s.objs[s.gc[0]].freeTime + s.lockTime;
    var n := if s.now >= wait then 0 else wait - s.now;
    acts := Ticks(s, n);
    var mid := s.(now := s.now + n);
    OneMore(s, acts, mid, Collect(k));
    acts, s' := acts + [Collect(k)], Next(mid, Collect(k));
  }
}

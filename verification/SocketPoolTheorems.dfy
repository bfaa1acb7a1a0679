/** Every object is in one place, and is not used again too early. */
module SocketPoolTheorems {
  import opened SocketPool

  // ---------------------------------------------------------------- the invariant

  /** The object's last connection is released, and the object carries the time. */
  predicate Freed(s: State, o: nat)
    requires o < |s.objs|
  {
    s.objs[o].connID in s.released && s.released[s.objs[o].connID] == s.objs[o].freeTime
  }

  predicate InTable(s: State, o: nat)
    requires o < |s.objs|
  {
    s.objs[o].connID in s.table && s.table[s.objs[o].connID] == o && s.objs[o].connID !in s.released
  }

  predicate ObjOk(s: State, o: nat)
    requires o < |s.objs|
  {
    var x := s.objs[o];
    && x.connID < s.nextId && (x.valid <==> x.home.Table?)
    && (x.connID > 0 ==> x.connID in s.owner && s.owner[x.connID] == o)
    && (match x.home
        case Table => InTable(s, o) && x.connID in s.level && s.level[x.connID] == 0
        case Closing(k) =>
          && InTable(s, o) && k < |s.closers|
          && (s.closers[k].CWon? || s.closers[k].CFired?) && s.closers[k].o == o && s.closers[k].id == x.connID
        case Ring => o in s.ring && Freed(s, o)
        case Gc => o in s.gc && Freed(s, o)
        case WithAcceptor(a) => a < |s.acceptors| && !s.acceptors[a].AIdle? && s.acceptors[a].o == o
        case WithCloser(k) =>
          && k < |s.closers| && (s.closers[k].CRemoved? || s.closers[k].CReleased?) && s.closers[k].o == o
        case Destroyed => true)
  }

  /** The lock time has passed since the connection was released. */
  predicate Past(s: State, id: nat) { id in s.released && s.released[id] + s.lockTime <= s.now }

  predicate AcceptorOk(s: State, a: nat)
    requires a < |s.acceptors|
  {
    match s.acceptors[a]
    case AIdle => true
    case ALocked(o) => o < |s.objs| && s.objs[o].home == WithAcceptor(a) && Freed(s, o)
    case AHas(o) =>
      o < |s.objs| && s.objs[o].home == WithAcceptor(a) && (s.objs[o].connID == 0 || Past(s, s.objs[o].connID))
  }

  predicate CloserOk(s: State, k: nat)
    requires k < |s.closers|
  {
    (!s.closers[k].CIdle? ==> 0 < s.closers[k].id < s.nextId) &&
    match s.closers[k]
    case CIdle => true
    case CHas(o, id) => o < |s.objs| && (s.objs[o].connID == id || Past(s, id))
    case CWon(o, id, _) =>
      o < |s.objs| && s.objs[o].home == Closing(k) && s.objs[o].connID == id && id in s.level && s.level[id] == 1
    case CFired(o, id) =>
      o < |s.objs| && s.objs[o].home == Closing(k) && s.objs[o].connID == id && id in s.level && s.level[id] >= 1
    case CRemoved(o, id) =>
      o < |s.objs| && s.objs[o].home == WithCloser(k) && s.objs[o].connID == id && id !in s.released && id !in s.table
    case CReleased(o, id) =>
      o < |s.objs| && s.objs[o].home == WithCloser(k) && s.objs[o].connID == id && Freed(s, o)
  }

  ghost predicate ListOk(s: State, l: seq<nat>, home: Home) {
    && (forall i | 0 <= i < |l| :: l[i] < |s.objs| && s.objs[l[i]].home == home)
    && (forall i, j | 0 <= i < j < |l| :: l[i] != l[j])
  }

  predicate TableOk(s: State, id: nat)
    requires id in s.table
  {
    && s.table[id] < |s.objs| && s.objs[s.table[id]].connID == id && 0 < id
    && (s.objs[s.table[id]].home.Table? || s.objs[s.table[id]].home.Closing?)
  }

  /** An object belongs to the last connection it was given to; all earlier ones were
      released a lock time ago. */
  predicate OwnerOk(s: State, id: nat)
    requires id in s.owner
  {
    0 < id && s.owner[id] < |s.objs| && (s.objs[s.owner[id]].connID == id || Past(s, id))
  }

  ghost predicate Owners(s: State) { forall id | id in s.owner :: OwnerOk(s, id) }

  function Rank(e: Event): nat { match e case Data(_) => 0 case Won(_) => 1 case Closed(_) => 2 }

  /** Two events of one connection stand in order: data, then at most one winner, then at
      most one close. */
  predicate InOrder(e: Event, e': Event) {
    e.id == e'.id ==> Rank(e) < Rank(e') || (e.Data? && e'.Data?)
  }

  ghost predicate LogOk(s: State) {
    && (forall i | 0 <= i < |s.log| :: s.log[i].id in s.level && Rank(s.log[i]) <= s.level[s.log[i].id])
    && (forall i, j | 0 <= i < j < |s.log| :: InOrder(s.log[i], s.log[j]))
  }

  ghost predicate Bounds(s: State) {
    && s.nextId > 0 && 0 !in s.released
    && (forall id | id in s.released :: id < s.nextId)
    && (forall id | id in s.level :: id < s.nextId)
    && |s.ring| + Locks(s.acceptors) <= s.ringSize
  }

  ghost predicate Inv(s: State) {
    && (forall o | 0 <= o < |s.objs| :: ObjOk(s, o))
    && (forall a | 0 <= a < |s.acceptors| :: AcceptorOk(s, a))
    && (forall k | 0 <= k < |s.closers| :: CloserOk(s, k))
    && (forall id | id in s.table :: TableOk(s, id))
    && ListOk(s, s.ring, Ring) && ListOk(s, s.gc, Gc)
    && LogOk(s) && Bounds(s)
  }

  lemma {:induction false} LocksUpdate(xs: seq<Acceptor>, a: nat, x: Acceptor)
    requires a < |xs|
    ensures Locks(xs[a := x]) == Locks(xs) - (if xs[a].ALocked? then 1 else 0) + (if x.ALocked? then 1 else 0)
    decreases |xs|
  {
    if a == 0 {
      assert xs[0 := x][1..] == xs[1..];
    } else {
      assert xs[a := x][1..] == xs[1..][a - 1 := x];
      LocksUpdate(xs[1..], a - 1, x);
    }
  }

  lemma {:induction false} NoLocks(xs: seq<Acceptor>)
    requires forall a | 0 <= a < |xs| :: xs[a].AIdle?
    ensures Locks(xs) == 0
    decreases |xs|
  {
    if xs != [] { NoLocks(xs[1..]); }
  }

  lemma InitInv(s: State)
    requires Init(s)
    ensures Inv(s)
  {
    NoLocks(s.acceptors);
  }

  // ---------------------------------------------------------------- accepting

  lemma TakeKept(s: State, a: nat)
    requires Inv(s) && Enabled(s, Take(a))
    ensures Inv(Next(s, Take(a)))
  {
    var s', o0 := Next(s, Take(a)), s.ring[0];
    assert ObjOk(s, o0);
    LocksUpdate(s.acceptors, a, ALocked(o0));
    forall o | 0 <= o < |s'.objs| ensures ObjOk(s', o) {
      assert ObjOk(s, o);
      if o != o0 && o in s.ring { assert o in s'.ring; }
    }
    forall b | 0 <= b < |s'.acceptors| ensures AcceptorOk(s', b) { assert AcceptorOk(s, b); }
    forall k | 0 <= k < |s'.closers| ensures CloserOk(s', k) { assert CloserOk(s, k); }
    forall id | id in s'.table ensures TableOk(s', id) { assert TableOk(s, id); }
  }

  /** A new object for acceptor `a`. */
  lemma MakeKept(s: State, a: nat, s': State)
    requires Inv(s) && a < |s.acceptors| && s.acceptors[a].AIdle?
    requires s' == s.(objs := s.objs + [Obj(false, 0, 0, WithAcceptor(a))], acceptors := s.acceptors[a := AHas(|s.objs|)])
    ensures Inv(s')
  {
    LocksUpdate(s.acceptors, a, AHas(|s.objs|));
    forall o | 0 <= o < |s'.objs| ensures ObjOk(s', o) { assert o < |s.objs| ==> ObjOk(s, o); }
    forall b | 0 <= b < |s'.acceptors| ensures AcceptorOk(s', b) { assert AcceptorOk(s, b); }
    forall k | 0 <= k < |s'.closers| ensures CloserOk(s', k) { assert CloserOk(s, k); }
    forall id | id in s'.table ensures TableOk(s', id) { assert TableOk(s, id); }
  }

  /** The locked object has rested long enough. */
  lemma KeepKept(s: State, a: nat)
    requires Inv(s) && Enabled(s, Decide(a)) && s.now - s.objs[s.acceptors[a].o].freeTime >= s.lockTime
    ensures Inv(Next(s, Decide(a)))
  {
    var s' := Next(s, Decide(a));
    assert AcceptorOk(s, a);
    LocksUpdate(s.acceptors, a, AHas(s.acceptors[a].o));
    forall o | 0 <= o < |s'.objs| ensures ObjOk(s', o) { assert ObjOk(s, o); }
    forall b | 0 <= b < |s'.acceptors| ensures AcceptorOk(s', b) { assert AcceptorOk(s, b); }
    forall k | 0 <= k < |s'.closers| ensures CloserOk(s', k) { assert CloserOk(s, k); }
    forall id | id in s'.table ensures TableOk(s', id) { assert TableOk(s, id); }
  }

  /** It has not: it goes back to the ring. */
  lemma ReturnKept(s: State, a: nat, s': State)
    requires Inv(s) && a < |s.acceptors| && s.acceptors[a].ALocked? && s.acceptors[a].o < |s.objs|
    requires s' == Moved(s, s.acceptors[a].o, Ring)
      .(ring := s.ring + [s.acceptors[a].o], acceptors := s.acceptors[a := AIdle])
    ensures Inv(s')
  {
    assert AcceptorOk(s, a);
    LocksUpdate(s.acceptors, a, AIdle);
    forall o | 0 <= o < |s'.objs| ensures ObjOk(s', o) { assert ObjOk(s, o); }
    forall b | 0 <= b < |s'.acceptors| ensures AcceptorOk(s', b) { assert AcceptorOk(s, b); }
    forall k | 0 <= k < |s'.closers| ensures CloserOk(s', k) { assert CloserOk(s, k); }
    forall id | id in s'.table ensures TableOk(s', id) { assert TableOk(s, id); }
  }

  lemma DecideKept(s: State, a: nat)
    requires Inv(s) && Enabled(s, Decide(a))
    ensures Inv(Next(s, Decide(a)))
  {
    var o := s.acceptors[a].o;
    if s.now - s.objs[o].freeTime >= s.lockTime {
      KeepKept(s, a);
    } else {
      var s1 := Moved(s, o, Ring).(ring := s.ring + [o], acceptors := s.acceptors[a := AIdle]);
      ReturnKept(s, a, s1);
      MakeKept(s1, a, Next(s, Decide(a)));
    }
  }

  lemma PublishObjs(s: State, a: nat)
    requires Inv(s) && Enabled(s, Publish(a))
    ensures var s' := Next(s, Publish(a));
      && (forall o | 0 <= o < |s'.objs| :: ObjOk(s', o))
      && (forall k | 0 <= k < |s'.closers| :: CloserOk(s', k))
  {
    var s', o0 := Next(s, Publish(a)), s.acceptors[a].o;
    assert AcceptorOk(s, a) && ObjOk(s, o0);
    forall o | 0 <= o < |s'.objs| ensures ObjOk(s', o) { assert ObjOk(s, o); }
    forall k | 0 <= k < |s'.closers| ensures CloserOk(s', k) { assert CloserOk(s, k); }
  }

  lemma PublishKept(s: State, a: nat)
    requires Inv(s) && Enabled(s, Publish(a))
    ensures Inv(Next(s, Publish(a)))
  {
    var s', o0 := Next(s, Publish(a)), s.acceptors[a].o;
    assert AcceptorOk(s, a) && ObjOk(s, o0);
    LocksUpdate(s.acceptors, a, AIdle);
    PublishObjs(s, a);
    forall b | 0 <= b < |s'.acceptors| ensures AcceptorOk(s', b) { assert AcceptorOk(s, b); }
    forall id | id in s'.table ensures TableOk(s', id) { assert id in s.table ==> TableOk(s, id); }
  }

  // ---------------------------------------------------------------- closing

  lemma QuietKept(s: State, a: Action)
    requires Inv(s) && Enabled(s, a) && (a.Tick? || a.Drop?)
    ensures Inv(Next(s, a))
  {
    var s' := Next(s, a);
    forall o | 0 <= o < |s'.objs| ensures ObjOk(s', o) { assert ObjOk(s, o); }
    forall b | 0 <= b < |s'.acceptors| ensures AcceptorOk(s', b) { assert AcceptorOk(s, b); }
    forall j | 0 <= j < |s'.closers| ensures CloserOk(s', j) { assert CloserOk(s, j); }
    forall id | id in s'.table ensures TableOk(s', id) { assert TableOk(s, id); }
  }

  lemma FindKept(s: State, k: nat, id: nat)
    requires Inv(s) && Enabled(s, Find(k, id))
    ensures Inv(Next(s, Find(k, id)))
  {
    var s' := Next(s, Find(k, id));
    assert TableOk(s, id) && ObjOk(s, s.table[id]);
    forall o | 0 <= o < |s'.objs| ensures ObjOk(s', o) { assert ObjOk(s, o); }
    forall b | 0 <= b < |s'.acceptors| ensures AcceptorOk(s', b) { assert AcceptorOk(s, b); }
    forall j | 0 <= j < |s'.closers| ensures CloserOk(s', j) { assert CloserOk(s, j); }
    forall i | i in s'.table ensures TableOk(s', i) { assert TableOk(s, i); }
  }

  /** A holder that keeps to the lock time finds the connection it looked for, or one that
      is closing; never another one. */
  lemma HolderIsRight(s: State, k: nat)
    requires Inv(s) && k < |s.closers| && s.closers[k].CHas? && Timely(s, s.closers[k].id)
    ensures s.closers[k].o < |s.objs| && s.objs[s.closers[k].o].connID == s.closers[k].id
  {
    assert CloserOk(s, k);
  }

  /** An event of an open connection. */
  lemma LogAppend(s: State, e: Event, s': State)
    requires LogOk(s) && s'.log == s.log + [e] && e.id in s'.level && s'.level == s.level[e.id := s'.level[e.id]]
    requires e.id in s.level && s'.level[e.id] >= s.level[e.id] && Rank(e) <= s'.level[e.id]
    requires Rank(e) > s.level[e.id] || (e.Data? && s.level[e.id] == 0)
    ensures LogOk(s')
  {
    forall i, j | 0 <= i < j < |s'.log| ensures InOrder(s'.log[i], s'.log[j]) {
      assert j < |s.log| ==> InOrder(s.log[i], s.log[j]);
    }
  }

  lemma DeliverKept(s: State, k: nat)
    requires Inv(s) && Enabled(s, Deliver(k))
    ensures Inv(Next(s, Deliver(k)))
  {
    var s' := Next(s, Deliver(k));
    var o := s.closers[k].o;
    assert ObjOk(s, o);
    if s.objs[o].valid {
      LogAppend(s, Data(s.objs[o].connID), s');
      forall o | 0 <= o < |s'.objs| ensures ObjOk(s', o) { assert ObjOk(s, o); }
      forall b | 0 <= b < |s'.acceptors| ensures AcceptorOk(s', b) { assert AcceptorOk(s, b); }
      forall j | 0 <= j < |s'.closers| ensures CloserOk(s', j) { assert CloserOk(s, j); }
      forall id | id in s'.table ensures TableOk(s', id) { assert TableOk(s, id); }
    }
  }

  lemma InvalidateKept(s: State, k: nat, fire: bool)
    requires Inv(s) && Enabled(s, Invalidate(k, fire))
    ensures Inv(Next(s, Invalidate(k, fire)))
  {
    var o0 := s.closers[k].o;
    assert ObjOk(s, o0);
    if s.objs[o0].valid {
      LogAppend(s, Won(s.objs[o0].connID), Next(s, Invalidate(k, fire)));
      WonObjs(s, k, fire);
      WonOthers(s, k, fire);
    } else {
      LostKept(s, k, fire);
    }
  }

  lemma LostKept(s: State, k: nat, fire: bool)
    requires Inv(s) && Enabled(s, Invalidate(k, fire)) && !s.objs[s.closers[k].o].valid
    ensures Inv(Next(s, Invalidate(k, fire)))
  {
    var s' := Next(s, Invalidate(k, fire));
    forall o | 0 <= o < |s'.objs| ensures ObjOk(s', o) { assert ObjOk(s, o); }
    forall b | 0 <= b < |s'.acceptors| ensures AcceptorOk(s', b) { assert AcceptorOk(s, b); }
    forall j | 0 <= j < |s'.closers| ensures CloserOk(s', j) { assert CloserOk(s, j); }
    forall id | id in s'.table ensures TableOk(s', id) { assert TableOk(s, id); }
  }

  lemma WonObjs(s: State, k: nat, fire: bool)
    requires Inv(s) && Enabled(s, Invalidate(k, fire)) && s.objs[s.closers[k].o].valid
    ensures var s' := Next(s, Invalidate(k, fire)); forall o | 0 <= o < |s'.objs| :: ObjOk(s', o)
  {
    var s' := Next(s, Invalidate(k, fire));
    assert ObjOk(s, s.closers[k].o) && CloserOk(s, k);
    forall o | 0 <= o < |s'.objs| ensures ObjOk(s', o) { assert ObjOk(s, o); }
  }

  lemma WonOthers(s: State, k: nat, fire: bool)
    requires Inv(s) && Enabled(s, Invalidate(k, fire)) && s.objs[s.closers[k].o].valid
    requires var s' := Next(s, Invalidate(k, fire)); LogOk(s') && forall o | 0 <= o < |s'.objs| :: ObjOk(s', o)
    ensures Inv(Next(s, Invalidate(k, fire)))
  {
    var s' := Next(s, Invalidate(k, fire));
    assert ObjOk(s, s.closers[k].o) && CloserOk(s, k);
    forall b | 0 <= b < |s'.acceptors| ensures AcceptorOk(s', b) { assert AcceptorOk(s, b); }
    forall j | 0 <= j < |s'.closers| ensures CloserOk(s', j) { assert CloserOk(s, j); }
    forall id | id in s'.table ensures TableOk(s', id) { assert TableOk(s, id); }
  }

  lemma FireKept(s: State, k: nat)
    requires Inv(s) && Enabled(s, FireClose(k))
    ensures Inv(Next(s, FireClose(k)))
  {
    var s', c := Next(s, FireClose(k)), s.closers[k];
    assert CloserOk(s, k) && ObjOk(s, c.o);
    if c.fire { LogAppend(s, Closed(c.id), s'); }
    forall o | 0 <= o < |s'.objs| ensures ObjOk(s', o) { assert ObjOk(s, o); }
    forall b | 0 <= b < |s'.acceptors| ensures AcceptorOk(s', b) { assert AcceptorOk(s, b); }
    forall j | 0 <= j < |s'.closers| ensures CloserOk(s', j) {
      assert CloserOk(s, j);
      if !s.closers[j].CIdle? { assert ObjOk(s, s.closers[j].o); }
    }
    forall id | id in s'.table ensures TableOk(s', id) { assert TableOk(s, id); }
  }

  lemma RemoveKept(s: State, k: nat)
    requires Inv(s) && Enabled(s, Remove(k))
    ensures Inv(Next(s, Remove(k)))
  {
    var s', c := Next(s, Remove(k)), s.closers[k];
    assert CloserOk(s, k) && ObjOk(s, c.o);
    forall o | 0 <= o < |s'.objs| ensures ObjOk(s', o) { assert ObjOk(s, o); }
    forall b | 0 <= b < |s'.acceptors| ensures AcceptorOk(s', b) { assert AcceptorOk(s, b); }
    forall j | 0 <= j < |s'.closers| ensures CloserOk(s', j) {
      assert CloserOk(s, j);
      if !s.closers[j].CIdle? { assert ObjOk(s, s.closers[j].o); }
    }
    forall id | id in s'.table ensures TableOk(s', id) { assert TableOk(s, id); }
  }

  lemma ReleaseKept(s: State, k: nat)
    requires Inv(s) && Enabled(s, Release(k))
    ensures Inv(Next(s, Release(k)))
  {
    var s', c := Next(s, Release(k)), s.closers[k];
    assert CloserOk(s, k) && ObjOk(s, c.o);
    forall o | 0 <= o < |s'.objs| ensures ObjOk(s', o) { assert ObjOk(s, o); }
    forall b | 0 <= b < |s'.acceptors| ensures AcceptorOk(s', b) { assert AcceptorOk(s, b); }
    forall j | 0 <= j < |s'.closers| ensures CloserOk(s', j) {
      assert CloserOk(s, j);
      if !s.closers[j].CIdle? { assert ObjOk(s, s.closers[j].o); }
    }
    forall id | id in s'.table ensures TableOk(s', id) { assert TableOk(s, id); }
  }

  lemma CollectKept(s: State, k: nat)
    requires Inv(s) && Enabled(s, Collect(k))
    ensures Inv(Next(s, Collect(k)))
  {
    var s', o0 := Next(s, Collect(k)), s.gc[0];
    assert ObjOk(s, o0);
    forall o | 0 <= o < |s'.objs| ensures ObjOk(s', o) {
      assert ObjOk(s, o);
      if o != o0 && o in s.gc { assert o in s'.gc; }
    }
    forall b | 0 <= b < |s'.acceptors| ensures AcceptorOk(s', b) { assert AcceptorOk(s, b); }
    forall j | 0 <= j < |s'.closers| ensures CloserOk(s', j) { assert CloserOk(s, j); }
    forall id | id in s'.table ensures TableOk(s', id) { assert TableOk(s, id); }
  }

  lemma PutObjs(s: State, k: nat, ok: bool)
    requires Inv(s) && Enabled(s, PutBack(k, ok))
    ensures var s' := Next(s, PutBack(k, ok)); forall o | 0 <= o < |s'.objs| :: ObjOk(s', o)
  {
    var s', c := Next(s, PutBack(k, ok)), s.closers[k];
    assert CloserOk(s, k) && ObjOk(s, c.o);
    forall o | 0 <= o < |s'.objs| ensures ObjOk(s', o) { assert ObjOk(s, o); }
  }

  lemma PutLists(s: State, k: nat, ok: bool)
    requires Inv(s) && Enabled(s, PutBack(k, ok))
    ensures var s' := Next(s, PutBack(k, ok)); ListOk(s', s'.ring, Ring) && ListOk(s', s'.gc, Gc)
  {
    assert CloserOk(s, k);
    if ok { } else { }
  }

  lemma PutKept(s: State, k: nat, ok: bool)
    requires Inv(s) && Enabled(s, PutBack(k, ok))
    ensures Inv(Next(s, PutBack(k, ok)))
  {
    var s', c := Next(s, PutBack(k, ok)), s.closers[k];
    assert CloserOk(s, k) && ObjOk(s, c.o);
    PutObjs(s, k, ok);
    PutLists(s, k, ok);
    forall b | 0 <= b < |s'.acceptors| ensures AcceptorOk(s', b) { assert AcceptorOk(s, b); }
    forall j | 0 <= j < |s'.closers| ensures CloserOk(s', j) { assert CloserOk(s, j); }
    forall id | id in s'.table ensures TableOk(s', id) { assert TableOk(s, id); }
  }

  lemma NextKept(s: State, a: Action)
    requires Inv(s) && Enabled(s, a)
    ensures Inv(Next(s, a))
  {
    match a
    case Take(a) => TakeKept(s, a);
    case Make(i) => MakeKept(s, i, Next(s, a));
    case Decide(a) => DecideKept(s, a);
    case Publish(a) => PublishKept(s, a);
    case Deliver(k) => DeliverKept(s, k);
    case Invalidate(k, fire) => InvalidateKept(s, k, fire);
    case FireClose(k) => FireKept(s, k);
    case Remove(k) => RemoveKept(s, k);
    case Release(k) => ReleaseKept(s, k);
    case Collect(k) => CollectKept(s, k);
    case PutBack(k, ok) => PutKept(s, k, ok);
    case Find(k, id) => FindKept(s, k, id);
    case _ => QuietKept(s, a);
  }

  lemma {:induction false} RunKeepsInv(s: State, acts: seq<Action>, s': State)
    requires Inv(s) && Runs(s, acts, s')
    ensures Inv(s')
    decreases acts
  {
    if acts != [] {
      NextKept(s, acts[0]);
      RunKeepsInv(Next(s, acts[0]), acts[1..], s');
    }
  }

  // ---------------------------------------------------------------- main results

  ghost predicate Active(s: State, o: nat) { exists id | id in s.table :: s.table[id] == o }

  predicate Holds(c: Closer, o: nat) { (c.CRemoved? || c.CReleased?) && c.o == o }

  ghost predicate InHand(s: State, o: nat) {
    || (exists a | 0 <= a < |s.acceptors| :: !s.acceptors[a].AIdle? && s.acceptors[a].o == o)
    || (exists k | 0 <= k < |s.closers| :: Holds(s.closers[k], o))
  }

  /** Every object that is not destroyed is in exactly one of the table, the ring, the
      garbage queue and the hands of a thread. */
  lemma OnePlace(s: State, acts: seq<Action>, s': State, o: nat)
    requires Init(s) && Runs(s, acts, s') && o < |s'.objs| && !s'.objs[o].home.Destroyed?
    ensures Active(s', o) || o in s'.ring || o in s'.gc || InHand(s', o)
    ensures !(Active(s', o) && o in s'.ring) && !(Active(s', o) && o in s'.gc) && !(Active(s', o) && InHand(s', o))
    ensures !(o in s'.ring && o in s'.gc) && !(o in s'.ring && InHand(s', o)) && !(o in s'.gc && InHand(s', o))
  {
    InitInv(s);
    RunKeepsInv(s, acts, s');
    PlaceIsHome(s', o);
  }

  lemma PlaceIsHome(s: State, o: nat)
    requires Inv(s) && o < |s.objs|
    ensures Active(s, o) <==> s.objs[o].home.Table? || s.objs[o].home.Closing?
    ensures (o in s.ring <==> s.objs[o].home.Ring?) && (o in s.gc <==> s.objs[o].home.Gc?)
    ensures InHand(s, o) <==> s.objs[o].home.WithAcceptor? || s.objs[o].home.WithCloser?
  {
    assert ObjOk(s, o);
    if id :| id in s.table && s.table[id] == o { assert TableOk(s, id); }
    if a :| 0 <= a < |s.acceptors| && !s.acceptors[a].AIdle? && s.acceptors[a].o == o { assert AcceptorOk(s, a); }
    if k :| 0 <= k < |s.closers| && Holds(s.closers[k], o) { assert CloserOk(s, k); }
  }

  /** ...of one thread only; and no object is twice in the ring or the queue, or in the
      table under two ids. */
  lemma OneHolder(s: State, acts: seq<Action>, s': State)
    requires Init(s) && Runs(s, acts, s')
    ensures forall a, b | 0 <= a < b < |s'.acceptors| && !s'.acceptors[a].AIdle? && !s'.acceptors[b].AIdle? ::
      s'.acceptors[a].o != s'.acceptors[b].o
    ensures forall o, j, k | 0 <= j < k < |s'.closers| && Holds(s'.closers[j], o) :: !Holds(s'.closers[k], o)
    ensures forall i, j | 0 <= i < j < |s'.ring| :: s'.ring[i] != s'.ring[j]
    ensures forall i, j | 0 <= i < j < |s'.gc| :: s'.gc[i] != s'.gc[j]
    ensures forall id, id' | id in s'.table && id' in s'.table && id != id' :: s'.table[id] != s'.table[id']
    ensures |s'.ring| <= s'.ringSize
  {
    InitInv(s);
    RunKeepsInv(s, acts, s');
    forall a, b | 0 <= a < b < |s'.acceptors| && !s'.acceptors[a].AIdle? && !s'.acceptors[b].AIdle?
      ensures s'.acceptors[a].o != s'.acceptors[b].o
    {
      assert AcceptorOk(s', a) && AcceptorOk(s', b);
    }
    forall o, j, k | 0 <= j < k < |s'.closers| && Holds(s'.closers[j], o) ensures !Holds(s'.closers[k], o) {
      assert CloserOk(s', j) && CloserOk(s', k);
    }
    forall id, id' | id in s'.table && id' in s'.table && id != id' ensures s'.table[id] != s'.table[id'] {
      assert TableOk(s', id) && TableOk(s', id');
    }
  }

  /** The object an action gives to a new connection, or destroys. */
  predicate Reuses(s: State, a: Action, o: nat)
    requires Enabled(s, a)
  {
    (a.Publish? && s.acceptors[a.a].o == o) || (a.Collect? && s.gc[0] == o)
  }

  /** Nothing that OwnerOk looks at goes back. */
  predicate Onward(s: State, s': State) {
    && s'.lockTime == s.lockTime && s'.now >= s.now && |s'.objs| >= |s.objs| && s'.owner == s.owner
    && (forall o | 0 <= o < |s.objs| :: s'.objs[o].connID == s.objs[o].connID)
    && (forall id | id in s.released :: id in s'.released && s'.released[id] == s.released[id])
  }

  lemma OthersOnward(s: State, a: Action)
    requires Enabled(s, a) && !a.Publish? && !a.Release?
    ensures Onward(s, Next(s, a))
  {
    if a.FireClose? || a.Remove? || a.Collect? || a.PutBack? { CloserOnward(s, a); } else { FrontOnward(s, a); }
  }

  lemma CloserOnward(s: State, a: Action)
    requires Enabled(s, a) && (a.FireClose? || a.Remove? || a.Collect? || a.PutBack?)
    ensures Onward(s, CloserNext(s, a))
  {
    if a.FireClose? { } else if a.Remove? { } else if a.Collect? { }
  }

  lemma FrontOnward(s: State, a: Action)
    requires Enabled(s, a) && !a.Publish? && !a.Release? && !a.FireClose? && !a.Remove? && !a.Collect? && !a.PutBack?
    ensures Onward(s, Next(s, a))
  {
    if a.Invalidate? || a.Deliver? { } else if a.Decide? { } else if a.Take? || a.Make? { }
  }

  lemma ReleaseOnward(s: State, k: nat)
    requires Inv(s) && Enabled(s, Release(k))
    ensures Onward(s, Next(s, Release(k)))
  {
    assert CloserOk(s, k);
  }

  lemma PublishOwners(s: State, a: nat)
    requires Inv(s) && Owners(s) && Enabled(s, Publish(a))
    ensures Owners(Next(s, Publish(a)))
  {
    var s' := Next(s, Publish(a));
    assert AcceptorOk(s, a);
    forall id | id in s'.owner ensures OwnerOk(s', id) { assert id in s.owner ==> OwnerOk(s, id); }
  }

  lemma OwnersKept(s: State, a: Action)
    requires Inv(s) && Owners(s) && Enabled(s, a)
    ensures Owners(Next(s, a))
  {
    if a.Publish? {
      PublishOwners(s, a.a);
    } else {
      if a.Release? { ReleaseOnward(s, a.k); } else { OthersOnward(s, a); }
      StillOwners(s, Next(s, a));
    }
  }

  lemma StillOwners(s: State, s': State)
    requires Owners(s) && Onward(s, s')
    ensures Owners(s')
  {
    forall id | id in s'.owner ensures OwnerOk(s', id) { assert OwnerOk(s, id); }
  }

  lemma {:induction false} RunKeepsOwners(s: State, acts: seq<Action>, s': State)
    requires Inv(s) && Owners(s) && Runs(s, acts, s')
    ensures Owners(s')
    decreases acts
  {
    if acts != [] {
      NextKept(s, acts[0]);
      OwnersKept(s, acts[0]);
      RunKeepsOwners(Next(s, acts[0]), acts[1..], s');
    }
  }

  /** Whenever an object is given to a new connection or destroyed, every connection it was
      given to before has been released, and the lock time has passed since. */
  lemma NoEarlyReuse(s: State, acts: seq<Action>, s': State, a: Action, o: nat, id: nat)
    requires Init(s) && Runs(s, acts, s') && Enabled(s', a) && Reuses(s', a, o)
    requires id in s'.owner && s'.owner[id] == o
    ensures id in s'.released && s'.released[id] + s'.lockTime <= s'.now
  {
    InitInv(s);
    RunKeepsInv(s, acts, s');
    RunKeepsOwners(s, acts, s');
    assert OwnerOk(s', id);
    if a.Collect? { assert ObjOk(s', o); }
    if a.Publish? { assert AcceptorOk(s', a.a); }
  }

  /** So a thread that does not keep an address longer than that never acts on another
      connection than the one it found: its call of AddFreeSocketObj closes that one or
      none. */
  lemma NoMistakenClose(s: State, acts: seq<Action>, s': State, k: nat)
    requires Init(s) && Runs(s, acts, s') && k < |s'.closers| && s'.closers[k].CHas? && Timely(s', s'.closers[k].id)
    ensures s'.closers[k].o < |s'.objs| && s'.objs[s'.closers[k].o].connID == s'.closers[k].id
  {
    InitInv(s);
    RunKeepsInv(s, acts, s');
    HolderIsRight(s', k);
  }

  /** Per connection: at most one caller of AddFreeSocketObj wins, OnClose fires at most
      once and after that, and no OnReceive or OnSend starts once a caller has won. */
  lemma OneCloseAndLast(s: State, acts: seq<Action>, s': State, i: nat, j: nat)
    requires Init(s) && Runs(s, acts, s') && i < j < |s'.log| && s'.log[i].id == s'.log[j].id
    ensures s'.log[i].Data? || (s'.log[i].Won? && s'.log[j].Closed?)
  {
    InitInv(s);
    RunKeepsInv(s, acts, s');
    assert InOrder(s'.log[i], s'.log[j]);
  }

  // ---------------------------------------------------------------- late uses

  /** Thread `k`, about to call AddFreeSocketObj, kept the address for `waited` after the
      release of the connection it looked for, and will close another one. */
  predicate ClosesAnother(s: State, k: nat, waited: nat) {
    && k < |s.closers| && s.closers[k].CHas?
    && s.closers[k].id in s.released && s.now == s.released[s.closers[k].id] + waited
    && s.closers[k].o < |s.objs| && s.objs[s.closers[k].o].valid && s.objs[s.closers[k].o].connID != s.closers[k].id
  }

  function Start(lockTime: nat): State {
    State(lockTime, 1, 0, 1, [], map[], [], [], [AIdle], [CIdle, CIdle], map[], map[], map[], [])
  }

  /** Connection 1 is active; two threads have found its object. */
  function Found(lockTime: nat): State {
    Start(lockTime).(nextId := 2, objs := [Obj(true, 1, 0, Table)], table := map[1 := 0],
                     closers := [CHas(0, 1), CHas(0, 1)], owner := map[1 := 0], level := map[1 := 0])
  }

  /** One of them has closed it, and the object has rested in the ring for `waited`. */
  function Resting(lockTime: nat, waited: nat): State {
    Found(lockTime).(objs := [Obj(false, 1, 0, Ring)], table := map[], ring := [0], closers := [CHas(0, 1), CIdle],
                     released := map[1 := 0], level := map[1 := 2], log := [Won(1), Closed(1)], now := waited)
  }

  lemma {:induction false} OneMore(s: State, acts: seq<Action>, mid: State, a: Action)
    requires Runs(s, acts, mid) && Enabled(mid, a)
    ensures Runs(s, acts + [a], Next(mid, a))
    decreases acts
  {
    if acts == [] {
      assert Runs(Next(s, a), [], Next(mid, a));
      assert [a][1..] == [];
    } else {
      OneMore(Next(s, acts[0]), acts[1..], mid, a);
      assert (acts + [a])[1..] == acts[1..] + [a];
    }
  }

  lemma UpToFound(lockTime: nat) returns (acts: seq<Action>)
    ensures Runs(Start(lockTime), acts, Found(lockTime))
  {
    var s0 := Start(lockTime);
    var s1 := Next(s0, Make(0));
    var s2 := Next(s1, Publish(0));
    var s3 := Next(s2, Find(0, 1));
    assert Next(s3, Find(1, 1)) == Found(lockTime);
    OneMore(s0, [], s0, Make(0));
    OneMore(s0, [] + [Make(0)], s1, Publish(0));
    OneMore(s0, [] + [Make(0)] + [Publish(0)], s2, Find(0, 1));
    acts := [] + [Make(0)] + [Publish(0)] + [Find(0, 1)];
    OneMore(s0, acts, s3, Find(1, 1));
    acts := acts + [Find(1, 1)];
  }

  lemma UpToClosed(lockTime: nat, first: seq<Action>) returns (acts: seq<Action>, mid: State)
    requires Runs(Start(lockTime), first, Found(lockTime))
    ensures Runs(Start(lockTime), acts, mid)
    ensures mid == Found(lockTime).(objs := [Obj(false, 1, 0, Closing(1))], closers := [CHas(0, 1), CFired(0, 1)],
                                    level := map[1 := 2], log := [Won(1), Closed(1)])
  {
    var s0, s := Start(lockTime), Found(lockTime);
    var s1 := Next(s, Invalidate(1, true));
    mid := Next(s1, FireClose(1));
    OneMore(s0, first, s, Invalidate(1, true));
    acts := first + [Invalidate(1, true)];
    OneMore(s0, acts, s1, FireClose(1));
    acts := acts + [FireClose(1)];
  }

  lemma UpToResting(lockTime: nat, first: seq<Action>) returns (acts: seq<Action>)
    requires Runs(Start(lockTime), first, Found(lockTime))
    ensures Runs(Start(lockTime), acts, Resting(lockTime, 0))
  {
    var s0 := Start(lockTime);
    var closed, s2 := UpToClosed(lockTime, first);
    var s3 := Next(s2, Remove(1));
    var s4 := Next(s3, Release(1));
    assert s4.acceptors == [AIdle] && Locks(s4.acceptors) == 0;
    assert Next(s4, PutBack(1, true)) == Resting(lockTime, 0);
    OneMore(s0, closed, s2, Remove(1));
    acts := closed + [Remove(1)];
    OneMore(s0, acts, s3, Release(1));
    acts := acts + [Release(1)];
    OneMore(s0, acts, s4, PutBack(1, true));
    acts := acts + [PutBack(1, true)];
  }

  lemma {:induction false} Waits(lockTime: nat, first: seq<Action>, waited: nat) returns (acts: seq<Action>)
    requires Runs(Start(lockTime), first, Resting(lockTime, 0))
    ensures Runs(Start(lockTime), acts, Resting(lockTime, waited))
    decreases waited
  {
    acts := first;
    if waited > 0 {
      acts := Waits(lockTime, first, waited - 1);
      OneMore(Start(lockTime), acts, Resting(lockTime, waited - 1), Tick);
      assert Next(Resting(lockTime, waited - 1), Tick) == Resting(lockTime, waited);
      acts := acts + [Tick];
    }
  }

  /** The object is given to connection 2. */
  lemma GivenAway(lockTime: nat, first: seq<Action>, waited: nat) returns (acts: seq<Action>, s': State)
    requires Runs(Start(lockTime), first, Resting(lockTime, waited)) && waited >= lockTime
    ensures Runs(Start(lockTime), acts, s') && ClosesAnother(s', 0, waited)
  {
    var s0, s := Start(lockTime), Resting(lockTime, waited);
    var s1 := Next(s, Take(0));
    var s2 := Next(s1, Decide(0));
    s' := Next(s2, Publish(0));
    assert s'.objs == [Obj(true, 2, 0, Table)];
    OneMore(s0, first, s, Take(0));
    acts := first + [Take(0)];
    OneMore(s0, acts, s1, Decide(0));
    acts := acts + [Decide(0)];
    OneMore(s0, acts, s2, Publish(0));
    acts := acts + [Publish(0)];
  }

  ghost predicate Possible(lockTime: nat, waited: nat) {
    exists s: State, acts, s', k :: Init(s) && s.lockTime == lockTime && Runs(s, acts, s') && ClosesAnother(s', k, waited)
  }

  /** The lock time is exactly right: an address kept for `waited` after the release can
      close another connection than the one it was found for if and only if the lock time
      has passed. */
  lemma LateUseClosesAnother(lockTime: nat, waited: nat)
    ensures Possible(lockTime, waited) <==> waited >= lockTime
  {
    if waited >= lockTime {
      var found := UpToFound(lockTime);
      var resting := UpToResting(lockTime, found);
      var rested := Waits(lockTime, resting, waited);
      var acts, s' := GivenAway(lockTime, rested, waited);
      assert Init(Start(lockTime));
    } else if Possible(lockTime, waited) {
      var s: State, acts, s', k :| Init(s) && s.lockTime == lockTime && Runs(s, acts, s') && ClosesAnother(s', k, waited);
      LockTimeStays(s, acts, s');
      NoMistakenClose(s, acts, s', k);
    }
  }

  lemma SameLockTime(s: State, a: Action)
    requires Enabled(s, a)
    ensures Next(s, a).lockTime == s.lockTime
  {
    if a.Publish? { } else if a.Release? { } else { OthersOnward(s, a); }
  }

  lemma {:induction false} LockTimeStays(s: State, acts: seq<Action>, s': State)
    requires Runs(s, acts, s')
    ensures s'.lockTime == s.lockTime
    decreases acts
  {
    if acts != [] {
      SameLockTime(s, acts[0]);
      LockTimeStays(Next(s, acts[0]), acts[1..], s');
    }
  }
}

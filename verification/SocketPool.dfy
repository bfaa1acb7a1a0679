/** The journeys of the TCP server's connection objects: taken from the free ring or
    constructed when a client is accepted, entered in the table of active connections,
    closed by one of the threads that hold their address, put back into the ring or, when
    it is full, into the garbage queue, and destroyed from there. The table, the ring and
    the queue are used through atomic operations; time does not wrap. */
module SocketPool {

  /** Where an object is: history, made equal to the containers' own contents. */
  datatype Home = Table | Closing(k: nat) | Ring | Gc | WithAcceptor(a: nat) | WithCloser(k: nat) | Destroyed

  /** A TSocketObj: its connection id, and the time it was last released. */
  datatype Obj = Obj(valid: bool, connID: nat, freeTime: nat, home: Home)

  datatype Acceptor =
    | AIdle
    | ALocked(o: nat)               // taken from the ring, its slot locked
    | AHas(o: nat)                  // to be entered in the table

  datatype Closer =
    | CIdle
    | CHas(o: nat, id: nat)         // found under this id, by FindSocketObj or an event
    | CWon(o: nat, id: nat, fire: bool)   // made it invalid, whatever connection it had by then; OnClose is to be fired or not
    | CFired(o: nat, id: nat)
    | CRemoved(o: nat, id: nat)
    | CReleased(o: nat, id: nat)

  /** A connection's events in order: OnReceive or OnSend, the winner's, OnClose. */
  datatype Event = Data(id: nat) | Won(id: nat) | Closed(id: nat)

  datatype State = State(
    lockTime: nat,                  // m_dwFreeSocketObjLockTime
    ringSize: nat,
    now: nat,
    nextId: nat,
    objs: seq<Obj>,
    table: map<nat, nat>,           // m_bfActiveSockets: connection id to object
    ring: seq<nat>,                 // m_lsFreeSocket
    gc: seq<nat>,                   // m_lsGCSocket
    acceptors: seq<Acceptor>,
    closers: seq<Closer>,
    // history
    owner: map<nat, nat>,           // the object each connection was given
    released: map<nat, nat>,        // when each closed connection's object was released
    level: map<nat, nat>,           // per connection: 0 open, 1 won, 2 closed
    log: seq<Event>)

  datatype Action =
    | Tick
    | Take(a: nat)                          // TryLock
    | Make(a: nat)                          // TryLock failed
    | Decide(a: nat)
    | Publish(a: nat)
    | Find(k: nat, id: nat)
    | Drop(k: nat)
    | Deliver(k: nat)
    | Invalidate(k: nat, fire: bool)
    | FireClose(k: nat)
    | Remove(k: nat)
    | Release(k: nat)
    | Collect(k: nat)                       // one turn of ReleaseGCObj
    | PutBack(k: nat, ok: bool)             // TryPut, or the garbage queue

  function Locks(as_: seq<Acceptor>): nat {
    if as_ == [] then 0 else (if as_[0].ALocked? then 1 else 0) + Locks(as_[1..])
  }

  predicate Enabled(s: State, a: Action) {
    match a
    case Tick => true
    case Take(a) => a < |s.acceptors| && s.acceptors[a].AIdle? && s.ring != [] && s.ring[0] < |s.objs|
    case Make(a) => a < |s.acceptors| && s.acceptors[a].AIdle?
    case Decide(a) => a < |s.acceptors| && s.acceptors[a].ALocked? && s.acceptors[a].o < |s.objs|
    case Publish(a) => a < |s.acceptors| && s.acceptors[a].AHas? && s.acceptors[a].o < |s.objs|
    case Find(k, id) => k < |s.closers| && s.closers[k].CIdle? && id in s.table
    case Drop(k) => k < |s.closers| && s.closers[k].CHas?
    case Deliver(k) => k < |s.closers| && s.closers[k].CHas? && s.closers[k].o < |s.objs|
    case Invalidate(k, _) => k < |s.closers| && s.closers[k].CHas? && s.closers[k].o < |s.objs|
    case FireClose(k) => k < |s.closers| && s.closers[k].CWon? && s.closers[k].o < |s.objs|
    case Remove(k) => k < |s.closers| && s.closers[k].CFired? && s.closers[k].o < |s.objs|
    case Release(k) => k < |s.closers| && s.closers[k].CRemoved? && s.closers[k].o < |s.objs|
    case Collect(k) =>
      && k < |s.closers| && s.closers[k].CReleased? && s.gc != [] && s.gc[0] < |s.objs|
      && s.now - s.objs[s.gc[0]].freeTime >= s.lockTime
    case PutBack(k, ok) =>
      && k < |s.closers| && s.closers[k].CReleased? && s.closers[k].o < |s.objs|
      && (ok ==> |s.ring| + Locks(s.acceptors) < s.ringSize)
  }

  function Moved(s: State, o: nat, home: Home): State
    requires o < |s.objs|
  {
    s.(objs := s.objs[o := s.objs[o].(home := home)])
  }

  /** GetFreeSocketObj after its TryLock: an object released long enough ago is taken, and
      another is put back and a new one made instead. */
  function DecideNext(s: State, a: nat): State
    requires Enabled(s, Decide(a))
  {
    var o := s.acceptors[a].o;
    if s.now - s.objs[o].freeTime >= s.lockTime
    then s.(acceptors := s.acceptors[a := AHas(o)])
    else
      var s1 := Moved(s, o, Ring);
      s1.(ring := s.ring + [o], objs := s1.objs + [Obj(false, 0, 0, WithAcceptor(a))],
          acceptors := s.acceptors[a := AHas(|s.objs|)])
  }

  function CloserNext(s: State, a: Action): State
    requires Enabled(s, a) && (a.FireClose? || a.Remove? || a.Release? || a.Collect? || a.PutBack?)
  {
    var c := s.closers[a.k];
    match a
    case FireClose(k) =>
      var s1 := s.(closers := s.closers[k := CFired(c.o, c.id)]);
      if c.fire then s1.(log := s.log + [Closed(s.objs[c.o].connID)], level := s.level[s.objs[c.o].connID := 2]) else s1
    case Remove(k) =>
      Moved(s, c.o, WithCloser(k)).(table := s.table - {s.objs[c.o].connID}, closers := s.closers[k := CRemoved(c.o, c.id)])
    case Release(k) =>
      s.(objs := s.objs[c.o := s.objs[c.o].(freeTime := s.now)], released := s.released[s.objs[c.o].connID := s.now],
         closers := s.closers[k := CReleased(c.o, c.id)])
    case Collect(k) =>
      Moved(s, s.gc[0], Destroyed).(gc := s.gc[1..])
    case PutBack(k, ok) =>
      var s1 := Moved(s, c.o, if ok then Ring else Gc).(closers := s.closers[k := CIdle]);
      if ok then s1.(ring := s.ring + [c.o]) else s1.(gc := s.gc + [c.o])
  }

  function Next(s: State, a: Action): State
    requires Enabled(s, a)
  {
    match a
    case Tick => s.(now := s.now + 1)
    case Take(a) =>
      Moved(s, s.ring[0], WithAcceptor(a)).(ring := s.ring[1..], acceptors := s.acceptors[a := ALocked(s.ring[0])])
    case Make(a) =>
      s.(objs := s.objs + [Obj(false, 0, 0, WithAcceptor(a))], acceptors := s.acceptors[a := AHas(|s.objs|)])
    case Decide(a) => DecideNext(s, a)
    case Publish(a) =>
      var o := s.acceptors[a].o;
      s.(objs := s.objs[o := Obj(true, s.nextId, s.objs[o].freeTime, Table)], table := s.table[s.nextId := o],
         level := s.level[s.nextId := 0], owner := s.owner[s.nextId := o], nextId := s.nextId + 1, acceptors := s.acceptors[a := AIdle])
    case Find(k, id) => s.(closers := s.closers[k := CHas(s.table[id], id)])
    case Drop(k) => s.(closers := s.closers[k := CIdle])
    case Deliver(k) => if s.objs[s.closers[k].o].valid then s.(log := s.log + [Data(s.objs[s.closers[k].o].connID)]) else s
    case Invalidate(k, fire) =>
      var o := s.closers[k].o;
      if s.objs[o].valid
      then Moved(s.(objs := s.objs[o := s.objs[o].(valid := false)]), o, Closing(k))
           .(closers := s.closers[k := CWon(o, s.objs[o].connID, fire)], log := s.log + [Won(s.objs[o].connID)],
             level := s.level[s.objs[o].connID := 1])
      else s.(closers := s.closers[k := CIdle])
    case FireClose(_) => CloserNext(s, a)
    case Remove(_) => CloserNext(s, a)
    case Release(_) => CloserNext(s, a)
    case Collect(_) => CloserNext(s, a)
    case PutBack(_, _) => CloserNext(s, a)
  }

  predicate Init(s: State) {
    && s.objs == [] && s.table == map[] && s.ring == [] && s.gc == [] && s.nextId > 0
    && (forall a | 0 <= a < |s.acceptors| :: s.acceptors[a].AIdle?)
    && (forall k | 0 <= k < |s.closers| :: s.closers[k].CIdle?)
    && s.owner == map[] && s.released == map[] && s.level == map[] && s.log == []
  }

  ghost predicate Runs(s: State, acts: seq<Action>, s': State)
    decreases acts
  {
    if acts == [] then s == s'
    else Enabled(s, acts[0]) && Runs(Next(s, acts[0]), acts[1..], s')
  }

  /** The lock time has not passed since the connection was released, if it was. */
  predicate Timely(s: State, id: nat) {
    id in s.released ==> s.now < s.released[id] + s.lockTime
  }
}

/** The UDP server's two tables: connections by id, and ids by peer address. Receivers
    accept a connection for an unknown address; closers of any number race for the same
    connection. Each insertion, removal and test is a step of its own. */
module UdpIndex {

  /** An object's way: valid, invalidated by its one winner, out of the table, and out of
      the index too. */
  datatype Phase = Live | Invalid(k: nat) | Removed(k: nat) | Erased

  /** `indexed`: its address has been entered in the index; `acceptor` is the receiver that
      accepts it. */
  datatype Peer = Peer(addr: nat, id: nat, phase: Phase, indexed: bool, acceptor: nat)

  datatype Receiver =
    | RIdle
    | RWait(addr: nat)       // FindConnectionID found nothing; about to take csAccept
    | RLocked(addr: nat)     // csAccept taken; about to look again
    | RAdd(addr: nat)        // still nothing; about to create the object
    | RIndex(o: nat)         // object in the table; about to enter its address
    | RUnlock

  datatype Closer =
    | CIdle
    | CTry(o: nat)           // about to run InvalidSocketObj
    | CRemove(o: nat)        // won; about to leave the table
    | CErase(o: nat)         // about to erase the address

  datatype Lock = Free | Held(r: nat)

  datatype State = State(
    peers: seq<Peer>,               // every object that ever was, by incarnation
    table: map<nat, nat>,           // m_bfActiveSockets: id to object
    index: map<nat, nat>,           // m_mpClientAddr: address to id
    accept: Lock,                   // csAccept
    receivers: seq<Receiver>,
    closers: seq<Closer>)

  datatype Action =
    | Datagram(r: nat, addr: nat)
    | ReceiverStep(r: nat, id: nat)
    | Close(k: nat, o: nat)
    | CloserStep(k: nat)

  function Goto(s: State, r: nat, pc: Receiver): State
    requires r < |s.receivers|
  {
    s.(receivers := s.receivers[r := pc])
  }

  function Turn(s: State, k: nat, pc: Closer, o: nat, phase: Phase): State
    requires k < |s.closers| && o < |s.peers|
  {
    s.(closers := s.closers[k := pc], peers := s.peers[o := s.peers[o].(phase := phase)])
  }

  /** AcquireLock hands out an id that no object still uses. */
  predicate FreshId(s: State, id: nat) {
    forall o | 0 <= o < |s.peers| :: s.peers[o].id == id ==> s.peers[o].phase.Erased?
  }

  /** HandleReceive's look-up and HandleAccept. */
  function ReceiverNext(s: State, r: nat, id: nat): State
    requires r < |s.receivers|
  {
    match s.receivers[r]
    case RIdle => s
    case RWait(addr) => if s.accept.Free? then Goto(s, r, RLocked(addr)).(accept := Held(r)) else s
    case RLocked(addr) => Goto(s, r, if addr in s.index then RUnlock else RAdd(addr))
    case RAdd(addr) =>
      if !FreshId(s, id) then s
      else Goto(s, r, RIndex(|s.peers|)).(peers := s.peers + [Peer(addr, id, Live, false, r)],
                                          table := s.table[id := |s.peers|])
    case RIndex(o) =>
      if o >= |s.peers| then s
      else Goto(s, r, RUnlock).(peers := s.peers[o := s.peers[o].(indexed := true)],
                                index := s.index[s.peers[o].addr := s.peers[o].id])
    case RUnlock => Goto(s, r, RIdle).(accept := Free)
  }

  /** AddFreeSocketObj. */
  function CloserNext(s: State, k: nat): State
    requires k < |s.closers|
  {
    match s.closers[k]
    case CIdle => s
    case CTry(o) =>
      if o < |s.peers| && s.peers[o].phase.Live? then Turn(s, k, CRemove(o), o, Invalid(k))
      else s.(closers := s.closers[k := CIdle])
    case CRemove(o) =>
      if o >= |s.peers| then s else Turn(s, k, CErase(o), o, Removed(k)).(table := s.table - {s.peers[o].id})
    case CErase(o) =>
      if o >= |s.peers| then s else Turn(s, k, CIdle, o, Erased).(index := s.index - {s.peers[o].addr})
  }

  predicate Enabled(s: State, a: Action) {
    match a
    case Datagram(r, addr) => r < |s.receivers| && s.receivers[r].RIdle? && addr !in s.index
    case ReceiverStep(r, _) => r < |s.receivers|
    case Close(k, o) => k < |s.closers| && s.closers[k].CIdle? && o < |s.peers|
    case CloserStep(k) => k < |s.closers|
  }

  function Next(s: State, a: Action): State
    requires Enabled(s, a)
  {
    match a
    case Datagram(r, addr) => Goto(s, r, RWait(addr))
    case ReceiverStep(r, id) => ReceiverNext(s, r, id)
    case Close(k, o) => s.(closers := s.closers[k := CTry(o)])
    case CloserStep(k) => CloserNext(s, k)
  }

  /** The step that can go wrong: an address is erased before it has been entered. */
  predicate Early(s: State, a: Action) {
    && a.CloserStep? && a.k < |s.closers| && s.closers[a.k].CErase?
    && s.closers[a.k].o < |s.peers| && !s.peers[s.closers[a.k].o].indexed
  }

  predicate Init(s: State) {
    && s.peers == [] && s.table == map[] && s.index == map[] && s.accept.Free?
    && (forall r | 0 <= r < |s.receivers| :: s.receivers[r] == RIdle)
    && (forall k | 0 <= k < |s.closers| :: s.closers[k] == CIdle)
  }

  /** Runs, given by their actions. */
  ghost predicate Run(s: State, acts: seq<Action>, s': State)
    decreases acts
  {
    if acts == [] then s == s'
    else Enabled(s, acts[0]) && Run(Next(s, acts[0]), acts[1..], s')
  }

  /** No address is erased before it has been entered. It is so if accept, from the slot to
      the index entry, is one step for the closers. */
  ghost predicate NeverEarly(s: State, acts: seq<Action>)
    decreases acts
  {
    acts == [] || (Enabled(s, acts[0]) && !Early(s, acts[0]) && NeverEarly(Next(s, acts[0]), acts[1..]))
  }

  // ---------------------------------------------------------------- what the locks keep

  predicate Accepting(pc: Receiver) { pc.RLocked? || pc.RAdd? || pc.RIndex? || pc.RUnlock? }

  predicate ReceiverOk(s: State, r: nat)
    requires r < |s.receivers|
  {
    var pc := s.receivers[r];
    && (Accepting(pc) <==> s.accept == Held(r))
    && (pc.RAdd? ==> pc.addr !in s.index)
    && (pc.RIndex? ==> pc.o < |s.peers| && !s.peers[pc.o].indexed)
  }

  predicate CloserOk(s: State, k: nat)
    requires k < |s.closers|
  {
    var pc := s.closers[k];
    && (pc.CRemove? ==> pc.o < |s.peers| && s.peers[pc.o].phase == Invalid(k))
    && (pc.CErase? ==> pc.o < |s.peers| && s.peers[pc.o].phase == Removed(k))
  }

  /** An object whose address is not entered yet is in the hands of the accepting receiver. */
  predicate AddedBy(s: State, o: nat)
    requires o < |s.peers|
  {
    !s.peers[o].indexed ==>
      s.peers[o].acceptor < |s.receivers| && s.accept == Held(s.peers[o].acceptor) && s.receivers[s.peers[o].acceptor] == RIndex(o)
  }

  ghost predicate Locks(s: State) {
    && (forall r | 0 <= r < |s.receivers| :: ReceiverOk(s, r))
    && (forall k | 0 <= k < |s.closers| :: CloserOk(s, k))
    && (forall o | 0 <= o < |s.peers| :: AddedBy(s, o))
  }

  // ---------------------------------------------------------------- what agreement means

  predicate PeerOk(s: State, o: nat)
    requires o < |s.peers|
  {
    var p := s.peers[o];
    && (p.indexed && !p.phase.Erased? ==> p.addr in s.index && s.index[p.addr] == p.id)
    && (!p.indexed ==> p.addr !in s.index && !p.phase.Erased?)
    && (p.phase.Live? || p.phase.Invalid? ==> p.id in s.table && s.table[p.id] == o)
  }

  predicate PairOk(s: State, o: nat, q: nat)
    requires o < |s.peers| && q < |s.peers|
  {
    o != q && !s.peers[o].phase.Erased? && !s.peers[q].phase.Erased? ==>
      s.peers[o].id != s.peers[q].id && s.peers[o].addr != s.peers[q].addr
  }

  /** The object an entry of the index stands for. */
  predicate Backs(s: State, o: nat, a: nat)
    requires o < |s.peers|
  {
    s.peers[o].indexed && !s.peers[o].phase.Erased? && s.peers[o].addr == a
  }

  /** Every entry of the index belongs to an object that has not been erased. */
  ghost predicate NoStaleEntry(s: State) {
    forall a | a in s.index :: exists o | 0 <= o < |s.peers| :: Backs(s, o, a)
  }

  ghost predicate Agree(s: State) {
    && (forall o | 0 <= o < |s.peers| :: PeerOk(s, o))
    && (forall o, q | 0 <= o < |s.peers| && 0 <= q < |s.peers| :: PairOk(s, o, q))
    && NoStaleEntry(s)
  }
}

/** The HTTP server's sweep over connections that are to be released: entries that have
    waited long enough are taken from the front of a queue; those with data still unsent
    go back to its end. */
module DyingSweep {

  const DWORD := 0x1_0000_0000
  const MIN_RELEASE_DELAY := 100
  const MAX_RELEASE_DELAY := 60000

  datatype Option<T> = None | Some(value: T)

  /** TDyingConnection, with its address. */
  datatype Dying = Dying(address: nat, connID: nat, killTime: nat)

  /** A call of GetPendingDataLength for a popped entry, and its answer; no answer if the
      connection is not found. */
  datatype Look = Look(entry: Dying, pending: Option<int>) {
    predicate HasData() { pending.Some? && pending.value > 0 }
    predicate Closes() { pending.Some? && pending.value <= 0 }
  }

  // ---------------------------------------------------------------- time

  /** (int)(now - killTime), in 32 bits. */
  function Gap(now: nat, killTime: nat): int
    requires now < DWORD && killTime < DWORD
  {
    var d := (now - killTime) % DWORD;
    if d < DWORD / 2 then d else d - DWORD
  }

  predicate Due(e: Dying, now: nat, delay: nat)
    requires now < DWORD
  {
    e.killTime < DWORD && Gap(now, e.killTime) >= delay
  }

  /** An entry made `elapsed` milliseconds ago is due exactly if the delay has passed and
      the elapsed time, modulo 2^32, is below 2^31: a sweep that comes later than that
      leaves it alone for as long again. */
  lemma DueIff(made: nat, elapsed: nat, delay: nat, address: nat, connID: nat)
    requires 0 < delay < DWORD / 2
    ensures Due(Dying(address, connID, made % DWORD), (made + elapsed) % DWORD, delay)
        <==> delay <= elapsed % 0x1_0000_0000 < 0x8000_0000
  {
    var d := ((made + elapsed) % DWORD - made % DWORD) % DWORD;
    ModDifference(made, elapsed);
  }

  lemma ModDifference(made: nat, elapsed: nat)
    ensures ((made + elapsed) % DWORD - made % DWORD) % DWORD == elapsed % DWORD
  {
    var a, b := (made + elapsed) / DWORD, made / DWORD;
    var x := (made + elapsed) % DWORD - made % DWORD;
    assert made + elapsed == a * DWORD + (made + elapsed) % DWORD && made == b * DWORD + made % DWORD;
    assert x == elapsed - (a - b) * DWORD;
    ShiftMod(elapsed, b - a);
  }

  lemma {:induction false} ShiftMod(x: int, k: int)
    ensures (x + k * DWORD) % DWORD == x % DWORD
    decreases if k < 0 then -k else k
  {
    if k > 0 {
      ShiftMod(x, k - 1);
      assert x + k * DWORD == x + (k - 1) * DWORD + DWORD;
    } else if k < 0 {
      ShiftMod(x, k + 1);
      assert x + k * DWORD == x + (k + 1) * DWORD - DWORD;
    }
  }

  /** An entry made during the sweep is not due in it. */
  lemma FreshIsNotDue(now: nat, later: nat, delay: nat, address: nat, connID: nat)
    requires now < DWORD && later < DWORD / 2 && 0 < delay
    ensures !Due(Dying(address, connID, (now + later) % DWORD), now, delay)
  {
  }

  // ---------------------------------------------------------------- what a sweep does

  function Destroyed(looks: seq<Look>): seq<Dying> {
    if looks == [] then []
    else
      var last := looks[|looks| - 1];
      Destroyed(looks[..|looks| - 1]) + if last.HasData() then [] else [last.entry]
  }

  function Disconnected(looks: seq<Look>): seq<nat> {
    if looks == [] then []
    else
      var last := looks[|looks| - 1];
      Disconnected(looks[..|looks| - 1]) + if last.Closes() then [last.entry.connID] else []
  }

  /** The looks answered with a number of at most 0, in order. */
  function Finished(looks: seq<Look>): (f: seq<Look>)
    ensures forall l | l in f :: l in looks && l.pending.Some? && l.pending.value <= 0
  {
    if looks == [] then []
    else if looks[0].pending.Some? && looks[0].pending.value <= 0 then [looks[0]] + Finished(looks[1..])
    else Finished(looks[1..])
  }

  function IdsOf(looks: seq<Look>): seq<nat> { seq(|looks|, i requires 0 <= i < |looks| => looks[i].entry.connID) }

  lemma {:induction false} FinishedAppend(a: seq<Look>, b: seq<Look>)
    ensures Finished(a + b) == Finished(a) + Finished(b)
    decreases |a|
  {
    if a == [] {
      assert a + b == b;
    } else {
      assert (a + b)[1..] == a[1..] + b;
      FinishedAppend(a[1..], b);
    }
  }

  lemma {:induction false} DisconnectedIsFinished(looks: seq<Look>)
    ensures Disconnected(looks) == IdsOf(Finished(looks))
    decreases |looks|
  {
    if looks != [] {
      var n := |looks| - 1;
      DisconnectedIsFinished(looks[..n]);
      FinishedAppend(looks[..n], [looks[n]]);
      assert looks == looks[..n] + [looks[n]];
      assert Finished([looks[n]]) == if looks[n].Closes() then [looks[n]] else [] by { assert [looks[n]][1..] == []; }
    }
  }

  /** Some look found the entry with data unsent. */
  predicate SeenWithData(looks: seq<Look>, e: Dying) { exists i | 0 <= i < |looks| :: looks[i].entry == e && looks[i].HasData() }

  predicate Distinct(q: seq<Dying>) { forall i, j | 0 <= i < j < |q| :: q[i].address != q[j].address }

  function Addresses(q: seq<Dying>): set<nat> { set i | 0 <= i < |q| :: q[i].address }

  // ---------------------------------------------------------------- the measure

  /** Where the first entry stands that is not due: there every sweep ends. */
  function Waiting(q: seq<Dying>, now: nat, delay: nat): (n: nat)
    requires now < DWORD
    ensures n <= |q|
    ensures n < |q| ==> !Due(q[n], now, delay)
    ensures forall i | 0 <= i < n :: Due(q[i], now, delay)
  {
    if q == [] || !Due(q[0], now, delay) then 0 else 1 + Waiting(q[1..], now, delay)
  }

  /** Where the entry of that address stands; the end, if nowhere. */
  function Position(q: seq<Dying>, a: Option<nat>): (n: nat)
    ensures n <= |q|
    ensures n < |q| ==> a == Some(q[n].address)
    ensures forall i | 0 <= i < n :: a != Some(q[i].address)
  {
    if q == [] || a == Some(q[0].address) then 0 else 1 + Position(q[1..], a)
  }

  lemma {:induction false} WaitingAppend(q: seq<Dying>, more: seq<Dying>, now: nat, delay: nat)
    requires now < DWORD
    ensures Waiting(q, now, delay) < |q| ==> Waiting(q + more, now, delay) == Waiting(q, now, delay)
    ensures Waiting(q, now, delay) == |q| ==> Waiting(q + more, now, delay) == |q| + Waiting(more, now, delay)
    decreases |q|
  {
    if q == [] {
      assert q + more == more;
    } else {
      assert (q + more)[1..] == q[1..] + more;
      WaitingAppend(q[1..], more, now, delay);
    }
  }

  lemma {:induction false} PositionAppend(q: seq<Dying>, more: seq<Dying>, a: Option<nat>)
    ensures Position(q, a) < |q| ==> Position(q + more, a) == Position(q, a)
    ensures Position(q, a) == |q| ==> Position(q + more, a) == |q| + Position(more, a)
    decreases |q|
  {
    if q == [] {
      assert q + more == more;
    } else {
      assert (q + more)[1..] == q[1..] + more;
      PositionAppend(q[1..], more, a);
    }
  }

  // ---------------------------------------------------------------- the server

  /** Another thread's Release: the connection and the time it read. */
  datatype Arrival = Arrival(connID: nat, killTime: nat)

  /** Released too late to be due in this sweep. */
  ghost predicate Late(news: seq<Arrival>, now: nat, delay: nat)
    requires now < DWORD
  {
    forall i | 0 <= i < |news| :: !Due(Dying(0, news[i].connID, news[i].killTime), now, delay)
  }

  ghost predicate NoneDue(q: seq<Dying>, now: nat, delay: nat)
    requires now < DWORD
  {
    forall i | 0 <= i < |q| :: !Due(q[i], now, delay)
  }

  /** The entries made for the releases. */
  ghost predicate Arrived(added: seq<Dying>, news: seq<Arrival>) {
    |added| == |news|
    && forall i | 0 <= i < |news| :: added[i].connID == news[i].connID && added[i].killTime == news[i].killTime
  }

  lemma {:induction false} SomeAddress(live: set<nat>)
    ensures exists a: nat :: a !in live
  {
    var bound := Bound(live);
    assert bound !in live;
  }

  lemma {:induction false} Bound(live: set<nat>) returns (b: nat)
    ensures forall a | a in live :: a < b
    decreases |live|
  {
    if live == {} {
      b := 0;
    } else {
      var a :| a in live;
      b := Bound(live - {a});
      assert live == (live - {a}) + {a};
      if b <= a { b := a + 1; }
    }
  }

  class HttpServer {
    var objects: set<nat>       // connections with an HTTP object
    var released: set<nat>      // those marked as released
    var queue: seq<Dying>       // m_lsDyingQueue
    var disconnected: seq<nat>  // Disconnect calls made, in order

    constructor (objects: set<nat>)
      ensures Valid() && queue == [] && disconnected == []
    {
      this.objects, released, queue, disconnected := objects, {}, [], [];
    }

    ghost predicate Valid()
      reads this
    {
      Distinct(queue) && released <= objects
    }

    /** A connection is queued once: the second Release is refused. */
    method Release(connID: nat, now: nat, address: nat) returns (ok: bool)
      requires Valid() && address !in Addresses(queue)
      modifies this
      ensures Valid() && objects == old(objects) && disconnected == old(disconnected)
      ensures ok <==> connID in objects && connID !in old(released)
      ensures released == if ok then old(released) + {connID} else old(released)
      ensures queue == if ok then old(queue) + [Dying(address, connID, now)] else old(queue)
    {
      if connID !in objects || connID in released {
        return false;
      }
      released := released + {connID};
      queue := queue + [Dying(address, connID, now)];
      return true;
    }

    /** Releases by other threads while the sweep runs. A new entry may have the address of a
        destroyed one, but not of one that is queued or in hand. */
    method Arrive(news: seq<Arrival>, held: set<nat>, now: nat, delay: nat) returns (added: seq<Dying>)
      requires now < DWORD && Distinct(queue) && Late(news, now, delay)
      modifies this`queue
      ensures queue == old(queue) + added && Distinct(queue) && NoneDue(added, now, delay)
      ensures forall e | e in added :: e.address !in held
      ensures Arrived(added, news)
    {
      added := [];
      for i := 0 to |news|
        invariant queue == old(queue) + added && Distinct(queue) && NoneDue(added, now, delay)
        invariant forall e | e in added :: e.address !in held
        invariant Arrived(added, news[..i])
      {
        SomeAddress(Addresses(queue) + held);
        var a: nat :| a !in Addresses(queue) + held;
        assert forall j | 0 <= j < |queue| :: queue[j].address in Addresses(queue);
        var e := Dying(a, news[i].connID, news[i].killTime);
        queue := queue + [e];
        added := added + [e];
      }
      assert news[..|news|] == news;
    }

    /** One turn of the sweep's loop: the entry in front, which is due, is popped, looked at,
        and destroyed or put back; `mid` and `end` are released meanwhile. */
    method Turn(first: Option<nat>, answer: Option<int>, mid: seq<Arrival>, end: seq<Arrival>,
        now: nat, delay: nat, ghost looks: seq<Look>, ghost arrived: seq<Dying>, ghost q0: seq<Dying>)
        returns (first': Option<nat>, look: Look, before: seq<Dying>, after: seq<Dying>, stop: bool)
      requires now < DWORD && queue != [] && Due(queue[0], now, delay) && Between(false, queue, first, looks, arrived, q0)
      requires Late(mid, now, delay) && Late(end, now, delay)
      modifies this`queue, this`disconnected
      ensures look == Look(old(queue)[0], answer)
      ensures disconnected == old(disconnected) + if answer.Some? && answer.value <= 0 then [old(queue)[0].connID] else []
      ensures queue == old(queue)[1..] + before + (if answer.Some? && answer.value > 0 then [old(queue)[0]] else []) + after
      ensures Between(stop, queue, first', looks + [look], arrived + (before + after), q0)
      ensures !stop ==> Falls(old(queue), first, queue, first', now, delay)
    {
      ghost var q := queue;
      var e := queue[0];
      var disconnect, destruct := true, true;
      queue := queue[1..];
      before := Arrive(mid, {e.address}, now, delay);
      after := [];
      look := Look(e, answer);
      if answer.None? {
        disconnect := false;
      } else if answer.value > 0 {
        disconnect, destruct := false, false;
      }
      if disconnect {
        disconnected := disconnected + [e.connID];
      }
      BackDistinct(q, before, look);
      first', stop := Settle(e, destruct, first);
      if stop {
        Circle(q, first, looks, arrived, q0, look, before, queue);
        assert before + after == before && queue + after == queue;
        return;
      }
      after := Arrive(end, {}, now, delay);
      Iteration(q, first, looks, arrived, q0, look, before, after, queue, now, delay);
    }

    /** The entry goes back to the end of the queue, or is destroyed; the sweep stops when
        the entry it put back first goes back again. */
    method Settle(e: Dying, destruct: bool, first: Option<nat>) returns (first': Option<nat>, stop: bool)
      modifies this`queue
      ensures queue == old(queue) + if destruct then [] else [e]
      ensures stop == (!destruct && first == Some(e.address))
      ensures first' == if !destruct && first.None? then Some(e.address)
                        else if destruct && first == Some(e.address) then None else first
    {
      first', stop := first, false;
      if destruct {
        if first == Some(e.address) {
          first' := None;
        }
      } else {
        queue := queue + [e];
        if first == None {
          first' := Some(e.address);
        } else if first == Some(e.address) {
          stop := true;
        }
      }
    }

    /** One sweep. `pending(i)` answers the i-th look, `news(j)` are the releases that other
        threads make at the j-th point between the sweep's own accesses to the queue. */
    method KillDyingConnection(now: nat, delay: nat, pending: nat -> Option<int>, news: nat -> seq<Arrival>)
        returns (looks: seq<Look>, arrived: seq<Dying>)
      requires Valid() && now < DWORD && MIN_RELEASE_DELAY <= delay <= MAX_RELEASE_DELAY
      requires forall j :: Late(news(j), now, delay)
      modifies this`queue, this`disconnected
      ensures Valid()
      ensures Balanced(queue, looks, old(queue), arrived)
      ensures disconnected == old(disconnected) + IdsOf(Finished(looks))
      ensures Answered(looks, pending, now, delay)
      ensures queue == [] || !Due(queue[0], now, delay) || AllSeen(queue, looks, arrived)
    {
      looks := [];
      var first: Option<nat> := None;
      arrived := Arrive(news(0), {}, now, delay);
      Started(old(queue), arrived);
      var stop := false;
      while !stop && queue != [] && Due(queue[0], now, delay)
        invariant Between(stop, queue, first, looks, arrived, old(queue))
        invariant Told(disconnected, old(disconnected), looks, pending, now, delay)
        decreases !stop, Unblocked(queue, now, delay), Stretch(queue, now, delay), Lap(queue, first, now, delay)
      {
        ghost var seen, told := looks, disconnected;
        var look, before, after;
        first, look, before, after, stop := Turn(first, pending(|looks|), news(2 * |looks| + 1), news(2 * |looks| + 2),
                                         now, delay, looks, arrived, old(queue));
        looks, arrived := looks + [look], arrived + (before + after);
        ToldMore(told, old(disconnected), seen, look, pending, now, delay, disconnected);
      }
      Ending(stop, queue, first, looks, arrived, old(queue));
      DisconnectedIsFinished(looks);
    }
  }

  /** The answers are those given, for entries that were due, and Disconnect was called accordingly. */
  ghost predicate Told(disconnected: seq<nat>, before: seq<nat>, looks: seq<Look>, pending: nat -> Option<int>, now: nat, delay: nat)
    requires now < DWORD
  {
    Answered(looks, pending, now, delay) && disconnected == before + Disconnected(looks)
  }

  lemma ToldMore(told: seq<nat>, before: seq<nat>, looks: seq<Look>, look: Look, pending: nat -> Option<int>,
      now: nat, delay: nat, told': seq<nat>)
    requires now < DWORD && Told(told, before, looks, pending, now, delay)
    requires look.pending == pending(|looks|) && Due(look.entry, now, delay)
    requires told' == told + if look.Closes() then [look.entry.connID] else []
    ensures Told(told', before, looks + [look], pending, now, delay)
  {
    LastLook(looks, look);
  }

  lemma Ending(stop: bool, q: seq<Dying>, first: Option<nat>, looks: seq<Look>, arrived: seq<Dying>, q0: seq<Dying>)
    requires Between(stop, q, first, looks, arrived, q0)
    ensures Distinct(q) && Balanced(q, looks, q0, arrived) && (stop ==> AllSeen(q, looks, arrived))
  {
  }

  /** What holds when the sweep has come full circle. */
  ghost predicate Swept(q: seq<Dying>, looks: seq<Look>, arrived: seq<Dying>, q0: seq<Dying>) {
    Distinct(q) && AllSeen(q, looks, arrived) && Balanced(q, looks, q0, arrived)
  }

  lemma Started(q0: seq<Dying>, added: seq<Dying>)
    requires Distinct(q0 + added)
    ensures Sweeping(q0 + added, None, [], added, q0)
  {
  }

  lemma LastLook(looks: seq<Look>, look: Look)
    ensures Destroyed(looks + [look]) == Destroyed(looks) + if look.HasData() then [] else [look.entry]
    ensures Disconnected(looks + [look]) == Disconnected(looks) + if look.Closes() then [look.entry.connID] else []
  {
    assert (looks + [look])[..|looks|] == looks;
  }

  /** What holds between two iterations. */
  ghost predicate Sweeping(q: seq<Dying>, first: Option<nat>, looks: seq<Look>, arrived: seq<Dying>, q0: seq<Dying>) {
    Distinct(q) && SweepOk(q, first, looks, arrived) && Balanced(q, looks, q0, arrived)
  }

  ghost predicate Between(stop: bool, q: seq<Dying>, first: Option<nat>, looks: seq<Look>, arrived: seq<Dying>, q0: seq<Dying>) {
    if stop then Swept(q, looks, arrived, q0) else Sweeping(q, first, looks, arrived, q0)
  }

  function Back(look: Look): seq<Dying> { if look.HasData() then [look.entry] else [] }

  lemma BackDistinct(q: seq<Dying>, added: seq<Dying>, look: Look)
    requires q != [] && q[0] == look.entry && Distinct(q) && Distinct(q[1..] + added)
    requires forall e | e in added :: e.address != look.entry.address
    ensures Distinct(q[1..] + added + Back(look))
  {
    var r := q[1..] + added;
    forall i | 0 <= i < |r| ensures r[i].address != look.entry.address {
      if i < |q| - 1 { assert r[i] == q[i + 1]; } else { assert r[i] in added; }
    }
  }

  function FirstAfter(first: Option<nat>, look: Look): Option<nat> {
    if look.HasData() then if first.None? then Some(look.entry.address) else first
    else if first == Some(look.entry.address) then None else first
  }

  predicate Falls(q: seq<Dying>, first: Option<nat>, q': seq<Dying>, first': Option<nat>, now: nat, delay: nat)
    requires now < DWORD
  {
    || Unblocked(q', now, delay) < Unblocked(q, now, delay)
    || (Unblocked(q', now, delay) == Unblocked(q, now, delay) && Stretch(q', now, delay) < Stretch(q, now, delay))
    || (Unblocked(q', now, delay) == Unblocked(q, now, delay) && Stretch(q', now, delay) == Stretch(q, now, delay)
        && Lap(q', first', now, delay) < Lap(q, first, now, delay))
  }

  lemma Iteration(q: seq<Dying>, first: Option<nat>, looks: seq<Look>, arrived: seq<Dying>, q0: seq<Dying>, look: Look,
      added: seq<Dying>, late: seq<Dying>, q': seq<Dying>, now: nat, delay: nat)
    requires now < DWORD && Sweeping(q, first, looks, arrived, q0)
    requires q != [] && q[0] == look.entry && Due(look.entry, now, delay)
    requires !(look.HasData() && first == Some(look.entry.address))
    requires q' == q[1..] + added + Back(look) + late && Distinct(q')
    requires NoneDue(added, now, delay) && NoneDue(late, now, delay)
    ensures Sweeping(q', FirstAfter(first, look), looks + [look], arrived + (added + late), q0)
    ensures Falls(q, first, q', FirstAfter(first, look), now, delay)
  {
    assert arrived + (added + late) == arrived + added + late;
    BalancedAfter(q, looks, q0, arrived, look, added, late);
    OkAfter(q, look.entry, first, looks, arrived, added, Back(look), late, FirstAfter(first, look), looks + [look],
            arrived + added + late);
    TurnFalls(q, first, look, added, late, q', now, delay);
  }

  lemma TurnFalls(q: seq<Dying>, first: Option<nat>, look: Look, added: seq<Dying>, late: seq<Dying>, q': seq<Dying>,
      now: nat, delay: nat)
    requires now < DWORD && Distinct(q) && q != [] && q[0] == look.entry && Due(look.entry, now, delay)
    requires first.Some? ==> Position(q, first) < |q|
    requires !(look.HasData() && first == Some(look.entry.address))
    requires q' == q[1..] + added + Back(look) + late && Distinct(q')
    requires NoneDue(added, now, delay) && NoneDue(late, now, delay)
    ensures Falls(q, first, q', FirstAfter(first, look), now, delay)
  {
    var e, more := look.entry, added + Back(look) + late;
    assert q' == q[1..] + more;
    assert q == [e] + q[1..];
    if added != [] { assert more[0] == added[0]; }
    if late != [] { assert more[|more| - 1] == late[|late| - 1]; }
    MeasureFalls(e, q[1..], first, more, FirstAfter(first, look), now, delay);
  }

  /** No entry is lost or doubled: what is queued and what was destroyed is what was queued
      before and what has arrived. */
  ghost predicate Balanced(q: seq<Dying>, looks: seq<Look>, q0: seq<Dying>, arrived: seq<Dying>) {
    multiset(q) + multiset(Destroyed(looks)) == multiset(q0) + multiset(arrived)
  }

  ghost predicate Answered(looks: seq<Look>, pending: nat -> Option<int>, now: nat, delay: nat)
    requires now < DWORD
  {
    forall i | 0 <= i < |looks| :: looks[i].pending == pending(i) && Due(looks[i].entry, now, delay)
  }

  lemma BalancedAfter(q: seq<Dying>, looks: seq<Look>, q0: seq<Dying>, arrived: seq<Dying>, look: Look,
      added: seq<Dying>, late: seq<Dying>)
    requires q != [] && q[0] == look.entry && Balanced(q, looks, q0, arrived)
    ensures Balanced(q[1..] + added + Back(look) + late, looks + [look], q0, arrived + added + late)
  {
    var back := Back(look);
    LastLook(looks, look);
    assert q == [look.entry] + q[1..];
    Tally(multiset{look.entry}, multiset(q[1..]), multiset(added), multiset(back), multiset(late),
          multiset(Destroyed(looks)), multiset(Destroyed(looks + [look])), multiset(q0), multiset(arrived));
    Elements(q[1..], added, back, late);
    Elements(arrived, added, late, []);
    assert arrived + added + late + [] == arrived + added + late;
  }

  lemma Elements<T>(a: seq<T>, b: seq<T>, c: seq<T>, d: seq<T>)
    ensures multiset(a + b + c + d) == multiset(a) + multiset(b) + multiset(c) + multiset(d)
  {
  }

  lemma Tally<T>(e: multiset<T>, t: multiset<T>, a: multiset<T>, b: multiset<T>, l: multiset<T>, d: multiset<T>,
      d': multiset<T>, q0: multiset<T>, r: multiset<T>)
    requires d' + b == d + e && e + t + d == q0 + r
    ensures t + a + b + l + d' == q0 + (r + a + l)
  {
    assert t + a + b + l + d' == (d' + b) + t + a + l;
    assert (d + e) + t + a + l == (e + t + d) + a + l;
  }

  /** All that is left was found with data unsent, or came during the sweep. */
  predicate AllSeen(q: seq<Dying>, looks: seq<Look>, arrived: seq<Dying>) {
    forall i | 0 <= i < |q| :: SeenWithData(looks, q[i]) || q[i] in arrived
  }

  /** The first entry put back is still queued, and so is what came after it. */
  predicate SweepOk(q: seq<Dying>, first: Option<nat>, looks: seq<Look>, arrived: seq<Dying>) {
    first.Some? ==> Position(q, first) < |q| && AllSeen(q[Position(q, first)..], looks, arrived)
  }

  /** Seen stays seen. */
  lemma SeenGrows(looks: seq<Look>, more: seq<Look>, e: Dying)
    requires SeenWithData(looks, e)
    ensures SeenWithData(looks + more, e)
  {
    var i :| 0 <= i < |looks| && looks[i].entry == e && looks[i].HasData();
    assert (looks + more)[i] == looks[i];
  }

  /** The sweep has come round to the entry it put back first. */
  lemma Circle(q: seq<Dying>, first: Option<nat>, looks: seq<Look>, arrived: seq<Dying>, q0: seq<Dying>, look: Look,
      added: seq<Dying>, q': seq<Dying>)
    requires q != [] && q[0] == look.entry && first == Some(look.entry.address) && look.HasData()
    requires Sweeping(q, first, looks, arrived, q0)
    requires q' == q[1..] + added + Back(look) && Distinct(q')
    ensures Swept(q', looks + [look], arrived + added, q0)
  {
    var looks' := looks + [look];
    assert Position(q, first) == 0 && q[0..] == q;
    forall i | 0 <= i < |q'| ensures SeenWithData(looks', q'[i]) || q'[i] in arrived + added {
      if i < |q| - 1 {
        assert q'[i] == q[i + 1];
        assert q[0..][i + 1] == q[i + 1];
        if SeenWithData(looks, q'[i]) { SeenGrows(looks, [look], q'[i]); }
      } else if i < |q'| - 1 {
        assert q'[i] in added;
      } else {
        assert looks'[|looks|].entry == q'[i];
      }
    }
    BalancedAfter(q, looks, q0, arrived, look, added, []);
    assert q' + [] == q' && arrived + added + [] == arrived + added;
  }

  /** The entry in hand goes back to the end, or not, with arrivals before and after. */
  lemma OkAfter(q: seq<Dying>, e: Dying, first: Option<nat>, looks: seq<Look>, arrived: seq<Dying>,
      added: seq<Dying>, back: seq<Dying>, late: seq<Dying>, first': Option<nat>, looks': seq<Look>, arrived': seq<Dying>)
    requires q != [] && q[0] == e && SweepOk(q, first, looks, arrived)
    requires |looks'| == |looks| + 1 && looks' == looks + [looks'[|looks|]] && looks'[|looks|].entry == e
    requires arrived' == arrived + added + late
    requires back == if looks'[|looks|].HasData() then [e] else []
    requires first' == if first == Some(e.address) then None
                       else if first.None? && back != [] then Some(e.address) else first
    requires back == [] || first != Some(e.address)
    requires Distinct(q[1..] + added + back + late)
    ensures SweepOk(q[1..] + added + back + late, first', looks', arrived')
  {
    var r := q[1..] + added + back + late;
    if first'.Some? {
      var from := if first.None? then |q| - 1 + |added| else Position(q, first) - 1;
      assert r[from].address == first'.value;
      PositionIs(r, first', from);
      forall i | from <= i < |r| ensures SeenWithData(looks', r[i]) || r[i] in arrived' {
        if i < |q| - 1 {
          assert r[i] == q[i + 1] == q[Position(q, first)..][i - from];
          if SeenWithData(looks, r[i]) { SeenGrows(looks, looks'[|looks|..], r[i]); }
        } else if i < |q| - 1 + |added| {
          assert r[i] in added;
        } else if i < |q| - 1 + |added| + |back| {
          assert looks'[|looks|].entry == r[i];
        } else {
          assert r[i] in late;
        }
      }
    }
  }

  lemma {:induction false} PositionIs(q: seq<Dying>, a: Option<nat>, i: nat)
    requires i < |q| && a == Some(q[i].address) && Distinct(q)
    ensures Position(q, a) == i
    decreases |q|
  {
    if i > 0 { PositionIs(q[1..], a, i - 1); }
  }

  /** The measure goes down: the queue behind the entry in hand, then `more`, of which all
      but the entry itself are not due. */
  lemma MeasureFalls(e: Dying, t: seq<Dying>, first: Option<nat>, more: seq<Dying>, first': Option<nat>, now: nat, delay: nat)
    requires now < DWORD && Due(e, now, delay) && Distinct([e] + t) && Distinct(t + more)
    requires more == [] || (exists i | 0 <= i < |more| :: !Due(more[i], now, delay)) || (more == [e] && first != Some(e.address)
      && first' == if first.None? then Some(e.address) else first)
    requires first.Some? ==> Position([e] + t, first) < |[e] + t|
    ensures Falls([e] + t, first, t + more, first', now, delay)
  {
    var q, q' := [e] + t, t + more;
    assert q[1..] == t;
    WaitingAppend(t, more, now, delay);
    if Waiting(q, now, delay) == |q| && more == [e] {
      assert Waiting(more, now, delay) == 1 by { assert more[1..] == []; }
      if first.Some? {
        PositionAppend(t, more, first);
      } else {
        PositionIs(q', first', |t|);
        PositionOfNone(q);
      }
    }
  }

  lemma {:induction false} PositionOfNone(q: seq<Dying>)
    ensures Position(q, None) == |q|
    decreases |q|
  {
    if q != [] { PositionOfNone(q[1..]); }
  }

  // the three parts of the measure
  function Unblocked(q: seq<Dying>, now: nat, delay: nat): nat
    requires now < DWORD
  {
    if Waiting(q, now, delay) == |q| then 1 else 0
  }

  function Stretch(q: seq<Dying>, now: nat, delay: nat): nat
    requires now < DWORD
  {
    Waiting(q, now, delay)
  }

  function Lap(q: seq<Dying>, first: Option<nat>, now: nat, delay: nat): nat
    requires now < DWORD
  {
    if Waiting(q, now, delay) == |q| then Position(q, first) else 0
  }
}

/** Lock ownership and thread counting in the thread pool. */
module ThreadPoolSizing {
  import opened ThreadPool

  // ---------------------------------------------------------------- sums

  lemma CountUpdate(ws: seq<Worker>, w: nat, x: Worker, m: Measure)
    requires w < |ws|
    ensures Count(ws[w := x], m) == Count(ws, m) - Weight(ws[w], m) + Weight(x, m)
  {
    if w == 0 {
      assert ws[0 := x][1..] == ws[1..];
    } else {
      assert ws[w := x][1..] == ws[1..][w - 1 := x];
      CountUpdate(ws[1..], w - 1, x, m);
    }
  }

  /** Where nobody sleeps, every thread of the set is awake. */
  lemma AllAwake(ws: seq<Worker>)
    requires forall w | 0 <= w < |ws| :: !Asleep(ws[w].pc) && (ws[w].inSet ==> Alive(ws[w].pc))
    ensures Count(ws, InSet) <= Count(ws, Awake)
  {
    if ws != [] { AllAwake(ws[1..]); }
  }

  lemma NoneAwake(ws: seq<Worker>)
    requires forall w | 0 <= w < |ws| :: Asleep(ws[w].pc) || !Alive(ws[w].pc)
    ensures Count(ws, Awake) == 0
  {
    if ws != [] { NoneAwake(ws[1..]); }
  }

  lemma OneInSet(ws: seq<Worker>, w: nat)
    requires w < |ws| && ws[w].inSet
    ensures Count(ws, InSet) > 0
  {
    if w > 0 { OneInSet(ws[1..], w - 1); }
  }

  /** Notifications a resizer has still to give. */
  function Owes(pc: Resizer): nat { if pc.RNotify? || pc.RNotifying? then pc.d else 0 }

  function Owed(rs: seq<Resizer>): nat { if rs == [] then 0 else Owes(rs[0]) + Owed(rs[1..]) }

  lemma OwedUpdate(rs: seq<Resizer>, r: nat, x: Resizer)
    requires r < |rs|
    ensures Owed(rs[r := x]) == Owed(rs) - Owes(rs[r]) + Owes(x)
  {
    if r == 0 {
      assert rs[0 := x][1..] == rs[1..];
    } else {
      assert rs[r := x][1..] == rs[1..][r - 1 := x];
      OwedUpdate(rs[1..], r - 1, x);
    }
  }

  // ---------------------------------------------------------------- the invariant

  predicate HoldsMtx(pc: Pc) { pc.Look? || pc.GotCount? || pc.AboutToWait? }
  predicate SubmitMtx(pc: Submitter) { pc.SLocked? || pc.SChecked? || pc.SUnlock? }
  predicate Creating(pc: Resizer) { pc.RSpawn? || pc.REmplace? || pc.RInc? }

  predicate BeingAdded(s: State, w: nat) {
    s.cs.CResize? && s.cs.r < |s.resizers| && s.resizers[s.cs.r].REmplace? && s.resizers[s.cs.r].w == w
  }

  predicate WorkerOk(s: State, w: nat)
    requires w < |s.workers|
  {
    var x := s.workers[w];
    && (HoldsMtx(x.pc) <==> s.mtx == MWorker(w))
    && (x.pc.InCs? <==> s.cs == CWorker(w))
    && (x.inSet ==> Alive(x.pc))
    && (Alive(x.pc) && !x.inSet <==> BeingAdded(s, w))
    && (x.pc.GotCount? ==> x.pc.c <= s.count + Owed(s.resizers))
    && (x.pc.GotCount? || x.pc.AboutToWait? ==> s.tasks == [])
  }

  predicate SubmitterOk(s: State, k: nat)
    requires k < |s.submitters|
  {
    SubmitMtx(s.submitters[k]) <==> s.mtx == MSubmit(k)
  }

  predicate ResizerOk(s: State, r: nat)
    requires r < |s.resizers|
  {
    var pc := s.resizers[r];
    && (Creating(pc) <==> s.cs == CResize(r))
    && (pc.RNotifying? <==> s.mtx == MResize(r))
    && (pc.REmplace? ==> pc.w < |s.workers|)
    && (pc.REmplace? || pc.RInc? ==> s.count < pc.n)
  }

  /** The thread that is in the set but not counted yet. */
  function Uncounted(s: State): nat {
    if s.cs.CResize? && s.cs.r < |s.resizers| && s.resizers[s.cs.r].RInc? then 1 else 0
  }

  predicate Counts(s: State) {
    && s.count + Uncounted(s) <= Size(s)
    && Size(s) <= s.count + Count(s.workers, Awake) + Owed(s.resizers) + Uncounted(s)
    && (s.mtx.MWorker? ==> s.mtx.w < |s.workers|)
    && (s.mtx.MSubmit? ==> s.mtx.k < |s.submitters|)
    && (s.mtx.MResize? ==> s.mtx.r < |s.resizers|)
    && (s.cs.CWorker? ==> s.cs.w < |s.workers|)
    && (s.cs.CResize? ==> s.cs.r < |s.resizers|)
  }

  /** A worker that will look at the queue again before it sleeps or leaves. */
  predicate WillLook(pc: Pc) { pc.WantMtx? || pc.Look? || pc.Run? || pc.Freeing? }

  ghost predicate SomeoneLooks(s: State) { exists w | 0 <= w < |s.workers| :: WillLook(s.workers[w].pc) }
  ghost predicate NobodySleeps(s: State) { forall w | 0 <= w < |s.workers| :: !Asleep(s.workers[w].pc) }

  ghost predicate TasksAwake(s: State) { s.tasks != [] ==> SomeoneLooks(s) || NobodySleeps(s) }

  ghost predicate Inv(s: State) {
    && (forall w | 0 <= w < |s.workers| :: WorkerOk(s, w))
    && (forall k | 0 <= k < |s.submitters| :: SubmitterOk(s, k))
    && (forall r | 0 <= r < |s.resizers| :: ResizerOk(s, r))
    && Counts(s) && TasksAwake(s)
  }

  lemma InitInv(s: State)
    requires Init(s)
    ensures Inv(s)
  {
    NoneInSet(s.workers);
    NothingOwed(s.resizers);
  }

  lemma NoneInSet(ws: seq<Worker>)
    requires forall w | 0 <= w < |ws| :: !ws[w].inSet
    ensures Count(ws, InSet) == 0
  {
    if ws != [] { NoneInSet(ws[1..]); }
  }

  lemma NothingOwed(rs: seq<Resizer>)
    requires forall r | 0 <= r < |rs| :: Owes(rs[r]) == 0
    ensures Owed(rs) == 0
  {
    if rs != [] { NothingOwed(rs[1..]); }
  }

  // ---------------------------------------------------------------- worker steps

  /** What a worker's step may do to what the other threads rely on. */
  predicate WorkerStep(s: State, w: nat, s': State)
    requires w < |s.workers|
  {
    && |s'.workers| == |s.workers| && s'.workers == s.workers[w := s'.workers[w]]
    && s'.submitters == s.submitters && s'.resizers == s.resizers && s'.count == s.count
    && (s'.mtx == s.mtx || (s.mtx.MFree? && s'.mtx == MWorker(w)) || (s.mtx == MWorker(w) && s'.mtx.MFree?))
    && (s'.cs == s.cs || (s.cs.CFree? && s'.cs == CWorker(w)) || (s.cs == CWorker(w) && s'.cs.CFree?))
    && WorkerOk(s', w)
    && (s.tasks == [] ==> s'.tasks == [])
    && (Alive(s'.workers[w].pc) != Alive(s.workers[w].pc) ==>
          && s.workers[w].pc.InCs? && s.count < Size(s)
          && s.workers[w].inSet && s'.workers[w] == Worker(Gone, false))
    && (s'.workers[w].inSet != s.workers[w].inSet ==> Alive(s'.workers[w].pc) != Alive(s.workers[w].pc))
    && (!Asleep(s.workers[w].pc) && Asleep(s'.workers[w].pc) ==>
          s.workers[w].pc.GotCount? && s.workers[w].pc.c >= Size(s))
    && (WillLook(s.workers[w].pc) && !WillLook(s'.workers[w].pc) ==> s'.tasks == [])
  }

  lemma LookFacts(s: State, w: nat)
    requires w < |s.workers| && WorkerOk(s, w) && HoldsMtx(s.workers[w].pc)
    ensures WorkerStep(s, w, LookNext(s, w))
  {
  }

  lemma RunFacts(s: State, w: nat)
    requires w < |s.workers| && WorkerOk(s, w) && (s.workers[w].pc.Run? || s.workers[w].pc.Freeing?)
    ensures WorkerStep(s, w, RunNext(s, w))
  {
  }

  lemma ExitFacts(s: State, w: nat, c: Choice)
    requires w < |s.workers| && WorkerOk(s, w)
    requires s.workers[w].pc.Exiting? || s.workers[w].pc.WantCs? || s.workers[w].pc.InCs?
    ensures WorkerStep(s, w, ExitNext(s, w, c))
  {
  }

  lemma WorkFacts(s: State, w: nat, c: Choice)
    requires w < |s.workers| && WorkerOk(s, w)
    ensures WorkerStep(s, w, WorkerNext(s, w, c))
  {
    match s.workers[w].pc
    case Look | GotCount(_) | AboutToWait => LookFacts(s, w);
    case Run(_) | Freeing(_) => RunFacts(s, w);
    case Exiting | WantCs | InCs => ExitFacts(s, w, c);
    case _ =>
  }

  lemma WorkLeavesCalls(s: State, w: nat, c: Choice)
    requires w < |s.workers|
    ensures var s' := WorkerNext(s, w, c);
      && s'.submitters == s.submitters && s'.resizers == s.resizers
      && s'.count == s.count && s'.st == s.st && s'.begun == s.begun
  {
  }

  lemma WorkCounts(s: State, w: nat, s': State)
    requires Inv(s) && w < |s.workers| && WorkerStep(s, w, s')
    ensures Counts(s')
  {
    assert WorkerOk(s, w);
    CountUpdate(s.workers, w, s'.workers[w], InSet);
    CountUpdate(s.workers, w, s'.workers[w], Awake);
  }

  lemma WorkKept(s: State, w: nat, c: Choice)
    requires Inv(s) && w < |s.workers|
    ensures Inv(WorkerNext(s, w, c))
  {
    var s' := WorkerNext(s, w, c);
    assert WorkerOk(s, w);
    WorkFacts(s, w, c);
    WorkCounts(s, w, s');
    forall v | 0 <= v < |s'.workers| ensures WorkerOk(s', v) { assert WorkerOk(s, v); }
    forall k | 0 <= k < |s'.submitters| ensures SubmitterOk(s', k) { assert SubmitterOk(s, k); }
    forall r | 0 <= r < |s'.resizers| ensures ResizerOk(s', r) { assert ResizerOk(s, r); }
    WorkAwake(s, w, s');
  }

  lemma WorkAwake(s: State, w: nat, s': State)
    requires Inv(s) && w < |s.workers| && WorkerStep(s, w, s')
    ensures TasksAwake(s')
  {
    if s'.tasks != [] && !NobodySleeps(s') {
      assert WorkerOk(s, w) && WorkerOk(s', w);
      if WillLook(s'.workers[w].pc) {
        assert SomeoneLooks(s');
      } else if SomeoneLooks(s) {
        var v :| 0 <= v < |s.workers| && WillLook(s.workers[v].pc);
        assert WillLook(s'.workers[v].pc);
      } else {
        assert false;
      }
    }
  }

  // ---------------------------------------------------------------- notify_one

  /** One waiter woken: awake, out of the sleepers, nothing else touched. */
  lemma NotifyKept(s: State, c: Choice)
    requires Inv(s) && Wakeable(s, c) && (s.mtx.MSubmit? || s.mtx.MResize?)
    ensures Inv(Notified(s, c))
    ensures var s' := Notified(s, c);
      && (SomeoneLooks(s') || NobodySleeps(s'))
      && Size(s') == Size(s)
      && (Size(s') + 1 <= s.count + Count(s'.workers, Awake) + Owed(s.resizers) + Uncounted(s)
          || Size(s') <= Count(s'.workers, Awake))
  {
    var s' := Notified(s, c);
    if c.Thread? {
      CountUpdate(s.workers, c.w, s'.workers[c.w], InSet);
      CountUpdate(s.workers, c.w, s'.workers[c.w], Awake);
      assert WillLook(s'.workers[c.w].pc);
      forall v | 0 <= v < |s'.workers| ensures WorkerOk(s', v) { assert WorkerOk(s, v); }
      forall j | 0 <= j < |s'.submitters| ensures SubmitterOk(s', j) { assert SubmitterOk(s, j); }
      forall r | 0 <= r < |s'.resizers| ensures ResizerOk(s', r) { assert ResizerOk(s, r); }
    } else {
      forall v | 0 <= v < |s.workers| ensures !Asleep(s.workers[v].pc) && (s.workers[v].inSet ==> Alive(s.workers[v].pc)) {
        assert WorkerOk(s, v);
      }
      AllAwake(s.workers);
    }
  }

  // ---------------------------------------------------------------- submitters

  /** Steps of a submitter that push nothing. */
  lemma SubmitKept(s: State, k: nat, s': State)
    requires Inv(s) && k < |s.submitters| == |s'.submitters|
    requires s' == s.(submitters := s.submitters[k := s'.submitters[k]], mtx := s'.mtx, book := s'.book)
    requires s'.mtx == s.mtx || (s.mtx.MFree? && s'.mtx == MSubmit(k)) || (s.mtx == MSubmit(k) && s'.mtx.MFree?)
    requires SubmitMtx(s'.submitters[k]) <==> s'.mtx == MSubmit(k)
    ensures Inv(s')
  {
    assert SubmitterOk(s, k);
    forall v | 0 <= v < |s'.workers| ensures WorkerOk(s', v) { assert WorkerOk(s, v); }
    forall j | 0 <= j < |s'.submitters| ensures SubmitterOk(s', j) { assert SubmitterOk(s, j); }
    forall r | 0 <= r < |s'.resizers| ensures ResizerOk(s', r) { assert ResizerOk(s, r); }
    assert SomeoneLooks(s) ==> SomeoneLooks(s');
  }

  /** The push, with its notification. */
  lemma PushKept(s: State, k: nat, c: Choice, s': State)
    requires Inv(s) && k < |s.submitters| == |s'.submitters| && s.mtx == MSubmit(k) && Wakeable(s, c)
    requires s' == Notified(s, c).(submitters := s.submitters[k := s'.submitters[k]], book := s'.book,
                                   tasks := s'.tasks, accepted := s'.accepted)
    requires SubmitMtx(s'.submitters[k])
    ensures Inv(s')
  {
    NotifyKept(s, c);
    var n := Notified(s, c);
    forall v | 0 <= v < |s'.workers| ensures WorkerOk(s', v) { assert WorkerOk(n, v); }
    forall j | 0 <= j < |s'.submitters| ensures SubmitterOk(s', j) { assert SubmitterOk(n, j); }
    forall r | 0 <= r < |s'.resizers| ensures ResizerOk(s', r) { assert ResizerOk(n, r); }
    assert SomeoneLooks(n) ==> SomeoneLooks(s');
    assert NobodySleeps(n) ==> NobodySleeps(s');
  }

  lemma CheckedKept(s: State, k: nat, c: Choice)
    requires Inv(s) && k < |s.submitters| && s.submitters[k].SChecked?
    ensures Inv(SubmitterNext(s, k, c))
  {
    var s' := SubmitterNext(s, k, c);
    assert SubmitterOk(s, k);
    if s' != s {
      if s.maxQueue != 0 && |s.tasks| >= s.maxQueue {
        SubmitKept(s, k, s');
      } else {
        PushKept(s, k, c, s');
      }
    }
  }

  lemma FullKept(s: State, k: nat, c: Choice)
    requires Inv(s) && k < |s.submitters| && s.submitters[k].SFull?
    ensures Inv(SubmitterNext(s, k, c))
  {
    assert SubmitterOk(s, k);
    SubmitKept(s, k, SubmitterNext(s, k, c));
  }

  lemma SubmitterKept(s: State, k: nat, c: Choice)
    requires Inv(s) && k < |s.submitters|
    ensures Inv(SubmitterNext(s, k, c))
  {
    assert SubmitterOk(s, k);
    match s.submitters[k]
    case SIdle =>
    case SChecked(_) => CheckedKept(s, k, c);
    case SFull(_) => FullKept(s, k, c);
    case SWant(_) | SLocked(_) | SUnlock(_) => SubmitKept(s, k, SubmitterNext(s, k, c));
  }

  // ---------------------------------------------------------------- resizers

  /** Steps of a resizer that touch no thread: locks, the count, what is owed. */
  lemma ResizeKept(s: State, r: nat, s': State)
    requires Inv(s) && r < |s.resizers| == |s'.resizers|
    requires s' == s.(resizers := s.resizers[r := s'.resizers[r]], mtx := s'.mtx, cs := s'.cs, count := s'.count, st := s'.st, begun := s'.begun)
    requires s'.mtx == s.mtx || (s.mtx.MFree? && s'.mtx == MResize(r)) || (s.mtx == MResize(r) && s'.mtx.MFree?)
    requires s'.cs == s.cs || (s.cs.CFree? && s'.cs == CResize(r)) || (s.cs == CResize(r) && s'.cs.CFree?)
    requires ResizerOk(s', r) && !s.resizers[r].REmplace? && !s'.resizers[r].REmplace?
    requires s'.count != s.count ==> s.cs.CFree? || s.cs == CResize(r)
    requires s.count + Owes(s.resizers[r]) + Mine(s, r) == s'.count + Owes(s'.resizers[r]) + Mine(s', r)
    requires s.count + Owes(s.resizers[r]) <= s'.count + Owes(s'.resizers[r])
    requires s'.count + Mine(s', r) <= s.count + Mine(s, r)
    ensures Inv(s')
  {
    assert ResizerOk(s, r);
    OwedUpdate(s.resizers, r, s'.resizers[r]);
    forall q | 0 <= q < |s'.resizers| ensures ResizerOk(s', q) { assert ResizerOk(s, q); }
    UncountedIsMine(s, r);
    UncountedIsMine(s', r);
    forall v | 0 <= v < |s'.workers| ensures WorkerOk(s', v) { assert WorkerOk(s, v); }
    forall j | 0 <= j < |s'.submitters| ensures SubmitterOk(s', j) { assert SubmitterOk(s, j); }
    assert SomeoneLooks(s) ==> SomeoneLooks(s');
    assert NobodySleeps(s) ==> NobodySleeps(s');
  }

  function Mine(s: State, r: nat): nat
    requires r < |s.resizers|
  {
    if s.resizers[r].RInc? then 1 else 0
  }

  lemma UncountedIsMine(s: State, r: nat)
    requires r < |s.resizers| && ResizerOk(s, r)
    ensures (s.cs == CResize(r) || s.cs.CFree? || s.cs.CWorker?) ==> Uncounted(s) == Mine(s, r)
    ensures Mine(s, r) == 1 ==> s.cs == CResize(r)
  {
  }

  lemma SpawnKept(s: State, r: nat, c: Choice)
    requires Inv(s) && r < |s.resizers| && s.resizers[r].RSpawn?
    ensures Inv(ResizerNext(s, r, c))
  {
    var s' := ResizerNext(s, r, c);
    assert ResizerOk(s, r);
    if s.count >= s.resizers[r].n {
      ResizeKept(s, r, s');
    } else if s' != s {
      assert WorkerOk(s, c.w);
      CountUpdate(s.workers, c.w, s'.workers[c.w], InSet);
      CountUpdate(s.workers, c.w, s'.workers[c.w], Awake);
      OwedUpdate(s.resizers, r, s'.resizers[r]);
      forall v | 0 <= v < |s'.workers| ensures WorkerOk(s', v) { assert WorkerOk(s, v); }
      forall j | 0 <= j < |s'.submitters| ensures SubmitterOk(s', j) { assert SubmitterOk(s, j); }
      forall q | 0 <= q < |s'.resizers| ensures ResizerOk(s', q) { assert ResizerOk(s, q); }
      assert WillLook(s'.workers[c.w].pc);
    }
  }

  lemma EmplaceKept(s: State, r: nat, c: Choice)
    requires Inv(s) && r < |s.resizers| && s.resizers[r].REmplace?
    ensures Inv(ResizerNext(s, r, c))
  {
    var s' := ResizerNext(s, r, c);
    assert ResizerOk(s, r);
    var w := s.resizers[r].w;
    assert WorkerOk(s, w);
    CountUpdate(s.workers, w, s'.workers[w], InSet);
    CountUpdate(s.workers, w, s'.workers[w], Awake);
    OwedUpdate(s.resizers, r, s'.resizers[r]);
    forall v | 0 <= v < |s'.workers| ensures WorkerOk(s', v) { assert WorkerOk(s, v); }
    forall j | 0 <= j < |s'.submitters| ensures SubmitterOk(s', j) { assert SubmitterOk(s, j); }
    forall q | 0 <= q < |s'.resizers| ensures ResizerOk(s', q) { assert ResizerOk(s, q); }
    if SomeoneLooks(s) {
      var v :| 0 <= v < |s.workers| && WillLook(s.workers[v].pc);
      assert WillLook(s'.workers[v].pc);
    }
    assert NobodySleeps(s) ==> NobodySleeps(s');
  }

  lemma NotifyingKept(s: State, r: nat, c: Choice)
    requires Inv(s) && r < |s.resizers| && s.resizers[r].RNotifying?
    ensures Inv(ResizerNext(s, r, c))
  {
    var s' := ResizerNext(s, r, c);
    assert ResizerOk(s, r);
    if s.resizers[r].d == 0 {
      ResizeKept(s, r, s');
    } else if Wakeable(s, c) {
      NotifyKept(s, c);
      var n := Notified(s, c);
      OwedUpdate(s.resizers, r, s'.resizers[r]);
      forall v | 0 <= v < |s'.workers| ensures WorkerOk(s', v) { assert WorkerOk(n, v); }
      forall j | 0 <= j < |s'.submitters| ensures SubmitterOk(s', j) { assert SubmitterOk(s, j); }
      forall q | 0 <= q < |s'.resizers| ensures ResizerOk(s', q) { assert ResizerOk(s, q); }
      assert SomeoneLooks(n) ==> SomeoneLooks(s');
      assert NobodySleeps(n) ==> NobodySleeps(s');
    }
  }

  lemma WantCsKept(s: State, r: nat, c: Choice)
    requires Inv(s) && r < |s.resizers| && s.resizers[r].RWantCs?
    ensures Inv(ResizerNext(s, r, c))
  {
    assert ResizerOk(s, r);
    var s' := ResizerNext(s, r, c);
    if s' != s { ResizeKept(s, r, s'); }
  }

  lemma ResizerKept(s: State, r: nat, c: Choice)
    requires Inv(s) && r < |s.resizers|
    ensures Inv(ResizerNext(s, r, c))
  {
    var s' := ResizerNext(s, r, c);
    assert ResizerOk(s, r);
    match s.resizers[r]
    case RIdle =>
    case RSpawn(_, _) => SpawnKept(s, r, c);
    case REmplace(_, _, _) => EmplaceKept(s, r, c);
    case RNotifying(_, _) => NotifyingKept(s, r, c);
    case RWantCs(_, _) => WantCsKept(s, r, c);
    case RInc(_, _) | RNotify(_, _) => if s' != s { ResizeKept(s, r, s'); }
    case RDone(_) => if s' != s { ResizeKept(s, r, s'); }
  }

  lemma NextKept(s: State, a: Action)
    requires Inv(s) && Enabled(s, a)
    ensures Inv(Next(s, a))
  {
    var s' := Next(s, a);
    match a
    case Work(w, c) => WorkKept(s, w, c);
    case SubmitStep(k, c) => SubmitterKept(s, k, c);
    case ResizeStep(r, c) => ResizerKept(s, r, c);
    case Submit(k, _) => assert SubmitterOk(s, k); SubmitKept(s, k, s');
    case CallStart(r, _) => assert ResizerOk(s, r); ResizeKept(s, r, s');
    case CallAdjust(r, _) => assert ResizerOk(s, r); ResizeKept(s, r, s');
    case CallStop(r) => assert ResizerOk(s, r); ResizeKept(s, r, s');
  }

  lemma {:induction false} RunKeepsInv(s: State, acts: seq<Action>, s': State)
    requires Inv(s) && Runs(s, acts, s')
    ensures Inv(s')
    decreases acts
  {
    if acts != [] {
      NextKept(s, acts[0]);
      RunKeepsInv(Next(s, acts[0]), acts[1..], s');
    }
  }

  // ---------------------------------------------------------------- over runs

  /** Under any sequence of growing and shrinking, the threads of the set never fall
      below the target, and the surplus is at most the threads that are awake, the
      notifications a resizer still owes, and the one thread being created. */
  lemma SurplusIsOwed(s: State, acts: seq<Action>, s': State)
    requires Init(s) && Runs(s, acts, s')
    ensures s'.count <= Size(s')
    ensures Size(s') - s'.count <= Count(s'.workers, Awake) + Owed(s'.resizers) + Uncounted(s')
  {
    InitInv(s);
    RunKeepsInv(s, acts, s');
  }

  /** So no surplus thread sleeps for good: when every thread sleeps, no resizer owes a
      notification and none is creating threads, the set has exactly the target number of
      threads; a Stop that waits for the set to empty is no exception. */
  lemma NoSurplusAsleep(s: State, acts: seq<Action>, s': State)
    requires Init(s) && Runs(s, acts, s')
    requires forall w | 0 <= w < |s'.workers| :: Asleep(s'.workers[w].pc) || !Alive(s'.workers[w].pc)
    requires forall r | 0 <= r < |s'.resizers| :: Owes(s'.resizers[r]) == 0 && !Creating(s'.resizers[r])
    ensures Size(s') == s'.count
  {
    SurplusIsOwed(s, acts, s');
    NoneAwake(s'.workers);
    NothingOwed(s'.resizers);
  }

  /** No task is left to sleepers: while the queue holds a task, no thread sleeps, or
      some thread is on its way to look at the queue. */
  lemma NoTaskLeftToSleepers(s: State, acts: seq<Action>, s': State)
    requires Init(s) && Runs(s, acts, s') && s'.tasks != []
    ensures SomeoneLooks(s') || NobodySleeps(s')
  {
    InitInv(s);
    RunKeepsInv(s, acts, s');
  }

  /** The erase in CheckWorkerThreadExit always finds the thread in the set. */
  lemma EraseFindsItself(s: State, acts: seq<Action>, s': State, w: nat)
    requires Init(s) && Runs(s, acts, s') && w < |s'.workers| && s'.workers[w].pc.InCs?
    ensures s'.workers[w].inSet
  {
    InitInv(s);
    RunKeepsInv(s, acts, s');
    assert WorkerOk(s', w);
  }
}

/** When the limit of the Windows pool's queue can be passed: which phases of DirectSubmit,
    found by Reset, let a submitter pass the limit of the next cycle. */
module WinThreadPoolLimit {
  import opened WinThreadPool
  import opened WinThreadPoolTheorems

  /** A bounded pool at work with more tasks in flight, or counted, than its limit. */
  predicate Over(s: State) { s.st.Started? && s.max > 0 && (InFlight(s) > s.max || s.cur > s.max) }

  /** The submitter has read the limit, or is past reading it, in a way that the next cycle's
      limit does not bind; or it holds a reservation that the counter forgets. `max` is the
      limit of the cycle that ends. */
  predicate Stale(x: Submitter, max: nat) {
    x.SStarted? || x.SUnlimited? || x.SReserved? || x.SRefused? || (x.STry? && x.q > 0) || (x.SRead? && 0 < x.q < max)
  }

  /** It can still raise the counter after the counter has been reset. */
  predicate Raises(x: Submitter) { x.SLoop? || (x.SRead? && x.q == 0) || (x.STry? && x.q == 0) }

  /** Reset finds a reservation; or, among two submitters or more, a stale one; or one that
      has yet to read the counter, and another that can raise it before. */
  ghost predicate Harmful(s: State) {
    || (exists k | 0 <= k < |s.submitters| :: Reserves(s.submitters[k]) == 1)
    || (|s.submitters| >= 2 && exists k | 0 <= k < |s.submitters| :: Stale(s.submitters[k], s.max))
    || (s.max >= 2 && exists j, k | 0 <= j < |s.submitters| && 0 <= k < |s.submitters| ::
          j != k && s.submitters[k].SLoop? && Raises(s.submitters[j]))
  }

  // ---------------------------------------------------------------- a harmless Reset

  /** Between Reset's first store and its second, when the old limit is still in force. */
  ghost predicate OldLimitOk(s: State) {
    && s.cur == Reserved(s.submitters) <= 1
    && (forall k | 0 <= k < |s.submitters| :: OldLimitFine(s.submitters[k], s.max))
    && (s.max >= 2 ==> forall j, k | 0 <= j < |s.submitters| && 0 <= k < |s.submitters| && j != k && s.submitters[k].SLoop? ::
          !Raises(s.submitters[j]) && Reserves(s.submitters[j]) == 0)
  }

  predicate OldLimitFine(x: Submitter, max: nat) {
    !x.SStarted? && !x.SUnlimited? && (x.STry? ==> x.q == 0) && (x.SRead? ==> x.q == 0 || x.q >= max)
  }

  /** From then on until the next Start, without a limit. */
  ghost predicate NoLimitOk(s: State) {
    && s.max == 0 && s.cur == Reserved(s.submitters) <= 1
    && forall k | 0 <= k < |s.submitters| :: NoLimitFine(s.submitters[k])
  }

  predicate NoLimitFine(x: Submitter) { !x.SStarted? && !x.SUnlimited? && (x.STry? ==> x.q == 0) }

  /** In a bounded cycle. */
  ghost predicate BoundedOk(s: State) {
    s.cur == InFlight(s) <= s.max && forall k | 0 <= k < |s.submitters| :: BoundedFine(s.submitters[k], s.max)
  }

  predicate BoundedFine(x: Submitter, max: nat) { !x.SUnlimited? && (x.STry? ==> x.q != max) }

  predicate Window(s: State) { s.manager.MResetMax? || s.manager.MResetState? || s.st.Stopped? }

  /** What holds in every run. */
  ghost predicate Shape(s: State) {
    && Closed(s) && s.max < DWORD && s.cur < DWORD
    && (s.manager.MIdle? ==> s.st.Stopped? || s.st.Started?) && (s.manager.MStart? ==> s.st.Starting?)
    && (s.manager.MStop? || s.manager.MResetSize? || s.manager.MResetMax? || s.manager.MResetState? ==> s.st.Stopping?)
    && (s.st.Stopped? || s.st.Started? ==> s.manager.MIdle?)
    && (Window(s) ==> !s.open)
    && (forall k | 0 <= k < |s.submitters| && s.submitters[k].STry? :: s.submitters[k].q + 1 < DWORD)
  }

  /** One submitter alone: with nothing in flight but its own, it cannot be misled. */
  ghost predicate AloneOk(s: State) {
    && s.cur == InFlight(s)
    && (!Window(s) ==> s.cur <= s.max && forall k | 0 <= k < |s.submitters| :: AloneFine(s.submitters[k], s.cur, s.max))
  }

  predicate AloneFine(x: Submitter, cur: nat, max: nat) { (x.SUnlimited? ==> cur == 0) && (x.STry? ==> x.q < max || cur == 0) }

  /** What holds until a harmful Reset. */
  ghost predicate Fine(s: State) {
    if |s.submitters| <= 1 then Window(s) || (!s.st.Stopping? && s.max > 0) ==> AloneOk(s)
    else if s.manager.MResetMax? then OldLimitOk(s)
    else if Window(s) then NoLimitOk(s)
    else s.st.Stopping? || s.max == 0 || BoundedOk(s)
  }

  /** The submitter's own part: what it does to the counter, and where it stands then. */
  lemma BoundedStep(s: State, k: nat, posted: bool, t: nat)
    requires k < |s.submitters| && 0 < s.max < DWORD && s.cur <= s.max && BoundedFine(s.submitters[k], s.max)
    requires Reserves(s.submitters[k]) <= s.cur
    ensures var s' := SubmitterNext(s, k, posted, t); var x' := s'.submitters[k];
      && s' == s.(cur := s'.cur, queue := s'.queue, submitters := s.submitters[k := x'])
      && BoundedFine(x', s.max) && s'.cur <= s.max
      && s'.cur - s.cur == |s'.queue| - |s.queue| + Reserves(x') - Reserves(s.submitters[k])
  {
    match s.submitters[k]
    case SRead(_) =>
    case STry(_) =>
    case SReserved =>
    case SRefused =>
    case _ =>
  }

  lemma NoLimitStep(s: State, k: nat, posted: bool, t: nat)
    requires Enabled(s, SubmitStep(k, posted, t)) && !s.open && s.max == 0 && s.cur <= 1 && NoLimitFine(s.submitters[k])
    requires !s.st.Started? && Reserves(s.submitters[k]) <= s.cur
    ensures var s' := SubmitterNext(s, k, posted, t); var x' := s'.submitters[k];
      && s' == s.(cur := s'.cur, submitters := s.submitters[k := x'])
      && NoLimitFine(x') && s'.cur <= 1 && s'.cur - s.cur == Reserves(x') - Reserves(s.submitters[k])
  {
    match s.submitters[k]
    case STry(_) =>
    case SReserved =>
    case SRefused =>
    case _ =>
  }

  lemma OldLimitStep(s: State, k: nat, posted: bool, t: nat)
    requires Enabled(s, SubmitStep(k, posted, t)) && !s.open && s.cur <= 1 && OldLimitFine(s.submitters[k], s.max)
    requires !s.st.Started? && Reserves(s.submitters[k]) <= s.cur && (s.submitters[k].SLoop? && s.max >= 2 ==> s.cur == 0)
    ensures var s' := SubmitterNext(s, k, posted, t); var x' := s'.submitters[k];
      && s' == s.(cur := s'.cur, submitters := s.submitters[k := x'])
      && OldLimitFine(x', s.max) && s'.cur <= 1 && s'.cur - s.cur == Reserves(x') - Reserves(s.submitters[k])
      && !x'.SLoop? && (Raises(x') || Reserves(x') == 1 ==> Raises(s.submitters[k]) || Reserves(s.submitters[k]) == 1)
  {
    match s.submitters[k]
    case STry(_) =>
    case SReserved =>
    case SRefused =>
    case SRead(_) =>
    case SLoop =>
    case _ =>
  }

  lemma ReservesLess(xs: seq<Submitter>, k: nat)
    requires k < |xs|
    ensures Reserves(xs[k]) <= Reserved(xs)
  {
    ReservedUpdate(xs, k, SIdle);
  }

  lemma SubmitterWindow(s: State, k: nat, posted: bool, t: nat)
    requires Enabled(s, SubmitStep(k, posted, t)) && Shape(s) && Window(s) && NoLimitOk(s)
    ensures NoLimitOk(SubmitterNext(s, k, posted, t))
  {
    ReservesLess(s.submitters, k);
    NoLimitStep(s, k, posted, t);
    ReservedUpdate(s.submitters, k, SubmitterNext(s, k, posted, t).submitters[k]);
  }

  lemma SubmitterOldLimit(s: State, k: nat, posted: bool, t: nat)
    requires Enabled(s, SubmitStep(k, posted, t)) && Shape(s) && s.manager.MResetMax? && OldLimitOk(s)
    ensures OldLimitOk(SubmitterNext(s, k, posted, t))
  {
    if s.submitters[k].SLoop? && s.max >= 2 { OnlyOne(s.submitters, k); }
    ReservesLess(s.submitters, k);
    OldLimitStep(s, k, posted, t);
    ReservedUpdate(s.submitters, k, SubmitterNext(s, k, posted, t).submitters[k]);
  }

  /** If nobody else holds a reservation. */
  lemma OnlyOne(xs: seq<Submitter>, k: nat)
    requires k < |xs| && Reserves(xs[k]) == 0 && forall j | 0 <= j < |xs| && j != k :: Reserves(xs[j]) == 0
    ensures Reserved(xs) == 0
  {
    NoReserves(xs);
  }

  lemma NoReserves(xs: seq<Submitter>)
    requires forall j | 0 <= j < |xs| :: Reserves(xs[j]) == 0
    ensures Reserved(xs) == 0
  {
    if xs != [] { NoReserves(xs[1..]); }
  }

  lemma SubmitterBounded(s: State, k: nat, posted: bool, t: nat)
    requires Enabled(s, SubmitStep(k, posted, t)) && BoundedOk(s) && 0 < s.max < DWORD
    ensures BoundedOk(SubmitterNext(s, k, posted, t))
  {
    ReservesLess(s.submitters, k);
    BoundedStep(s, k, posted, t);
    ReservedUpdate(s.submitters, k, SubmitterNext(s, k, posted, t).submitters[k]);
  }

  lemma WorkerBounded(s: State, w: nat)
    requires Enabled(s, Work(w)) && BoundedOk(s)
    ensures BoundedOk(WorkerNext(s, w))
  {
    PoppedUpdate(s.workers, w, WorkerNext(s, w).workers[w]);
  }

  lemma ShapeKept(s: State, a: Action)
    requires Shape(s) && Enabled(s, a)
    ensures Shape(Next(s, a))
  {
    if a.SubmitStep? { SubmitShape(s, a.k, a.posted, a.t); } else if a.Work? { } else if a.Manage? { }
  }

  lemma SubmitShape(s: State, k: nat, posted: bool, t: nat)
    requires Shape(s) && Enabled(s, SubmitStep(k, posted, t))
    ensures Shape(SubmitterNext(s, k, posted, t))
  {
    match s.submitters[k]
    case SRead(_) =>
    case STry(_) =>
    case SReserved =>
    case _ =>
  }

  lemma FineKept(s: State, a: Action)
    requires Shape(s) && Fine(s) && Enabled(s, a) && (Resets(s, a) ==> !Harmful(s))
    ensures Fine(Next(s, a))
  {
    match a
    case SubmitStep(k, posted, t) =>
      if |s.submitters| <= 1 { SubmitAlone(s, posted, t); } else { SubmitFine(s, k, posted, t); }
    case Submit(k) => ReservedUpdate(s.submitters, k, SStarted);
    case Work(w) => WorkFine(s, w);
    case Manage => if s.manager.MResetSize? { ResetFine(s); }
    case CallStart(_) =>
      NonePopped(s.workers);
      ReservedBound(s.submitters);
    case CallStop =>
  }

  lemma WorkFine(s: State, w: nat)
    requires Shape(s) && Fine(s) && Enabled(s, Work(w))
    ensures Fine(WorkerNext(s, w))
  {
    if s.open { PoppedUpdate(s.workers, w, WorkerNext(s, w).workers[w]); }
  }

  lemma SubmitAlone(s: State, posted: bool, t: nat)
    requires Shape(s) && Fine(s) && |s.submitters| == 1 && Enabled(s, SubmitStep(0, posted, t))
    ensures Fine(SubmitterNext(s, 0, posted, t))
  {
    if Window(s) || (!s.st.Stopping? && s.max > 0) {
      NonePoppedIfClosed(s);
      AloneStep(s, posted, t);
      ReservedUpdate(s.submitters, 0, SubmitterNext(s, 0, posted, t).submitters[0]);
    }
  }

  lemma NonePoppedIfClosed(s: State)
    requires Closed(s)
    ensures !s.open ==> Popped(s.workers) == 0
  {
    if !s.open { NonePopped(s.workers); }
  }

  lemma AloneStep(s: State, posted: bool, t: nat)
    requires Shape(s) && |s.submitters| == 1 && Enabled(s, SubmitStep(0, posted, t)) && AloneOk(s) && (!s.open ==> Popped(s.workers) == 0)
    requires Window(s) || s.max > 0
    ensures var s' := SubmitterNext(s, 0, posted, t); var x' := s'.submitters[0];
      && s' == s.(cur := s'.cur, queue := s'.queue, submitters := [x'])
      && (!Window(s) ==> s'.cur <= s.max && AloneFine(x', s'.cur, s.max))
      && s'.cur - s.cur == |s'.queue| - |s.queue| + Reserves(x') - Reserves(s.submitters[0])
  {
    assert Reserved(s.submitters) == Reserves(s.submitters[0]) by { assert s.submitters[1..] == []; }
    match s.submitters[0]
    case SUnlimited =>
    case SRead(_) =>
    case STry(_) =>
    case SReserved =>
    case SRefused =>
    case _ =>
  }

  lemma SubmitFrame(s: State, k: nat, posted: bool, t: nat)
    requires k < |s.submitters|
    ensures var s' := SubmitterNext(s, k, posted, t);
      s' == s.(cur := s'.cur, queue := s'.queue, submitters := s'.submitters) && |s'.submitters| == |s.submitters|
  {
  }

  lemma SubmitFine(s: State, k: nat, posted: bool, t: nat)
    requires Shape(s) && Fine(s) && |s.submitters| >= 2 && Enabled(s, SubmitStep(k, posted, t))
    ensures Fine(SubmitterNext(s, k, posted, t))
  {
    var s' := SubmitterNext(s, k, posted, t);
    SubmitFrame(s, k, posted, t);
    if s.manager.MResetMax? {
      SubmitterOldLimit(s, k, posted, t);
      assert OldLimitOk(s');
    } else if Window(s) {
      SubmitterWindow(s, k, posted, t);
      assert NoLimitOk(s');
    } else if s.max > 0 && !s.st.Stopping? {
      SubmitterBounded(s, k, posted, t);
      assert BoundedOk(s');
    }
  }

  lemma ResetFine(s: State)
    requires Closed(s) && s.manager.MResetSize? && !Harmful(s)
    ensures Fine(ManagerNext(s))
  {
    NoReserves(s.submitters);
    NonePopped(s.workers);
  }

  lemma InitFine(s: State)
    requires Init(s)
    ensures Shape(s) && Fine(s)
  {
    NoneReserved(s.submitters);
    NonePopped(s.workers);
  }

  /** No Reset so far found a stale submitter, or a pair. */
  ghost predicate HarmlessResets(s: State, acts: seq<Action>)
    decreases acts
  {
    acts == [] || (
      && Enabled(s, acts[0]) && (Resets(s, acts[0]) ==> !Harmful(s))
      && HarmlessResets(Next(s, acts[0]), acts[1..]))
  }

  lemma {:induction false} RunFine(s: State, acts: seq<Action>, s': State)
    requires Shape(s) && Fine(s) && Runs(s, acts, s') && HarmlessResets(s, acts)
    ensures Fine(s')
    decreases acts
  {
    if acts != [] {
      ShapeKept(s, acts[0]);
      FineKept(s, acts[0]);
      RunFine(Next(s, acts[0]), acts[1..], s');
    }
  }

  /** Over any number of cycles whose Resets are harmless: while a bounded pool is at work,
      the counter is the number of tasks in flight, never above the limit, and above 0
      whenever it is about to be lowered. */
  lemma LimitKept(s: State, acts: seq<Action>, s': State)
    requires Init(s) && Runs(s, acts, s') && HarmlessResets(s, acts)
    ensures s'.st.Started? && s'.max > 0 ==> s'.cur == InFlight(s') <= s'.max
    ensures s'.st.Started? && s'.max > 0 && (exists k | 0 <= k < |s'.submitters| :: s'.submitters[k].SRefused?) ==> s'.cur > 0
    ensures s'.st.Started? && s'.max > 0 && (exists w | 0 <= w < |s'.workers| :: s'.workers[w].WPopped?) ==> s'.cur > 0
  {
    InitFine(s);
    RunFine(s, acts, s');
    RunShape(s, acts, s');
    if k :| 0 <= k < |s'.submitters| && s'.submitters[k].SRefused? { ReservesLess(s'.submitters, k); }
    if w :| 0 <= w < |s'.workers| && s'.workers[w].WPopped? { PoppedUpdate(s'.workers, w, WIdle); }
  }

  lemma {:induction false} RunShape(s: State, acts: seq<Action>, s': State)
    requires Shape(s) && Runs(s, acts, s')
    ensures Shape(s')
    decreases acts
  {
    if acts != [] {
      ShapeKept(s, acts[0]);
      RunShape(Next(s, acts[0]), acts[1..], s');
    }
  }

  lemma {:induction false} NoResetIsHarmless(s: State, acts: seq<Action>)
    requires NoReset(s, acts)
    ensures HarmlessResets(s, acts)
    decreases acts
  {
    if acts != [] { NoResetIsHarmless(Next(s, acts[0]), acts[1..]); }
  }

  // ---------------------------------------------------------------- a harmful Reset

  /** After the Reset that `s` is about to begin, and before another, the limit can be passed. */
  ghost predicate CanPass(s: State)
    requires Enabled(s, Manage)
  {
    exists acts, s' :: Runs(Next(s, Manage), acts, s') && NoReset(Next(s, Manage), acts) && Over(s')
  }

  lemma {:induction false} Go(s: State, acts: seq<Action>, mid: State, a: Action) returns (acts': seq<Action>, s': State)
    requires Runs(s, acts, mid) && NoReset(s, acts) && Enabled(mid, a) && !Resets(mid, a)
    ensures acts' == acts + [a] && s' == Next(mid, a) && Runs(s, acts', s') && NoReset(s, acts')
    decreases acts
  {
    acts', s' := acts + [a], Next(mid, a);
    if acts == [] {
      assert acts' == [a] && [a][1..] == [];
      assert Runs(Next(s, a), [], s') && NoReset(Next(s, a), []);
    } else {
      var more, _ := Go(Next(s, acts[0]), acts[1..], mid, a);
      assert acts'[1..] == more;
    }
  }

  /** The old limit goes. */
  lemma Clears(s0: State, acts0: seq<Action>, s: State) returns (acts: seq<Action>, s': State)
    requires Runs(s0, acts0, s) && NoReset(s0, acts0) && s.manager.MResetMax?
    ensures Runs(s0, acts, s') && NoReset(s0, acts) && s' == s.(manager := MResetState, max := 0)
  {
    acts, s' := Go(s0, acts0, s, Manage);
  }

  /** The next cycle begins. */
  lemma Restarts(s0: State, acts0: seq<Action>, s: State, max: nat) returns (acts: seq<Action>, s': State)
    requires Runs(s0, acts0, s) && NoReset(s0, acts0) && s.manager.MResetState? && max < DWORD
    ensures Runs(s0, acts, s') && NoReset(s0, acts) && s' == s.(manager := MIdle, st := Started, max := max, open := true)
  {
    acts, s' := Go(s0, acts0, s, Manage);
    acts, s' := Go(s0, acts, s', CallStart(max));
    acts, s' := Go(s0, acts, s', Manage);
  }

  /** How far a submitter that acts alone, in a started pool below its limit, is from
      raising the counter. */
  function Distance(x: Submitter, cur: nat, max: nat): nat {
    match x
    case SUnlimited => 1
    case STry(q) => if q == cur then 1 else 7
    case SRead(q) => if q == cur then 2 else 8
    case SLoop => 3
    case SStarted | SAgain => 4
    case SIdle => 5
    case SMissed(v) => if v == max then 6 else 5
    case SReserved | SRefused => 9
  }

  /** Submitter `j` alone brings the counter up to the limit. */
  lemma {:induction false} FillsUp(s0: State, acts0: seq<Action>, s: State, j: nat) returns (acts: seq<Action>, s': State)
    requires Runs(s0, acts0, s) && NoReset(s0, acts0)
    requires s.st.Started? && s.manager.MIdle? && s.open && 0 < s.max < DWORD && s.cur <= s.max
    requires j < |s.submitters| && !s.submitters[j].SRefused?
    ensures Runs(s0, acts, s') && NoReset(s0, acts) && |s'.submitters| == |s.submitters|
    ensures s'.st.Started? && s'.max == s'.cur == s.max
    ensures forall k | 0 <= k < |s.submitters| && k != j :: s'.submitters[k] == s.submitters[k]
    decreases s.max - s.cur, Distance(s.submitters[j], s.cur, s.max)
  {
    acts, s' := acts0, s;
    if s.cur < s.max {
      var a := if s.submitters[j].SIdle? then Submit(j) else SubmitStep(j, true, 0);
      acts, s' := Go(s0, acts, s', a);
      Nearer(s, j, a);
      acts, s' := FillsUp(s0, acts, s', j);
    }
  }

  lemma Nearer(s: State, j: nat, a: Action)
    requires s.st.Started? && s.manager.MIdle? && s.open && 0 < s.max < DWORD && s.cur < s.max
    requires j < |s.submitters| && !s.submitters[j].SRefused?
    requires a == if s.submitters[j].SIdle? then Submit(j) else SubmitStep(j, true, 0)
    ensures Enabled(s, a)
    ensures var s', x' := Next(s, a), Next(s, a).submitters[j];
      && s' == s.(cur := s'.cur, queue := s'.queue, submitters := s.submitters[j := x']) && !x'.SRefused?
      && (s'.cur == s.cur + 1 || (s'.cur == s.cur && Distance(x', s.cur, s.max) < Distance(s.submitters[j], s.cur, s.max)))
  {
  }

  /** A reservation that the counter forgets: the post fails, and the counter is lowered
      below 0. */
  lemma ForgottenPasses(s: State, k: nat)
    requires s.manager.MResetSize? && k < |s.submitters| && Reserves(s.submitters[k]) == 1
    ensures CanPass(s)
  {
    var s1 := Next(s, Manage);
    var acts, s' := Clears(s1, [], s1);
    acts, s' := Restarts(s1, acts, s', 1);
    if s'.submitters[k].SReserved? {
      acts, s' := Go(s1, acts, s', SubmitStep(k, false, 0));
    }
    acts, s' := Go(s1, acts, s', SubmitStep(k, false, 0));
    assert Over(s');
  }

  /** A submitter that has taken the cleared limit for no limit, or will. */
  lemma UnlimitedPasses(s: State, j: nat, k: nat)
    requires s.manager.MResetSize? && j < |s.submitters| && k < |s.submitters| && j != k && !s.submitters[j].SRefused?
    requires s.submitters[k].SStarted? || s.submitters[k].SUnlimited?
    ensures CanPass(s)
  {
    var s1 := Next(s, Manage);
    var acts, s' := Clears(s1, [], s1);
    if s'.submitters[k].SStarted? {
      acts, s' := Go(s1, acts, s', SubmitStep(k, true, 0));
    }
    acts, s' := Restarts(s1, acts, s', 1);
    acts, s' := FillsUp(s1, acts, s', j);
    acts, s' := Go(s1, acts, s', SubmitStep(k, true, 0));
    assert Over(s');
  }

  /** A swap prepared under the old limit, from a number that is the new limit. */
  lemma SwapPasses(s: State, acts0: seq<Action>, s1: State, j: nat, k: nat, q: nat)
    requires Enabled(s, Manage) && Runs(Next(s, Manage), acts0, s1) && NoReset(Next(s, Manage), acts0)
    requires s1.manager.MResetMax? && s1.cur == 0
    requires j < |s1.submitters| && k < |s1.submitters| && j != k && !s1.submitters[j].SRefused?
    requires s1.submitters[k] == STry(q) && 0 < q && q + 1 < DWORD
    ensures CanPass(s)
  {
    var s0 := Next(s, Manage);
    var acts, s' := Clears(s0, acts0, s1);
    acts, s' := Restarts(s0, acts, s', q);
    acts, s' := FillsUp(s0, acts, s', j);
    acts, s' := Go(s0, acts, s', SubmitStep(k, true, 0));
    assert Over(s');
  }

  /** Under the old limit, one of two raises the reset counter. */
  lemma RaisesFirst(s1: State, j: nat, k: nat) returns (acts: seq<Action>, s': State)
    requires s1.manager.MResetMax? && s1.max >= 2 && s1.cur == 0
    requires j < |s1.submitters| && k < |s1.submitters| && j != k && Raises(s1.submitters[j])
    ensures Runs(s1, acts, s') && NoReset(s1, acts) && s' == s1.(cur := 1, submitters := s1.submitters[j := SReserved])
  {
    acts, s' := [], s1;
    if s'.submitters[j].SLoop? {
      acts, s' := Go(s1, acts, s', SubmitStep(j, false, 0));
    }
    if s'.submitters[j].SRead? {
      acts, s' := Go(s1, acts, s', SubmitStep(j, false, 0));
    }
    acts, s' := Go(s1, acts, s', SubmitStep(j, false, 0));
  }

  /** Two submitters in the loop prepare such a swap between them. */
  lemma PairPasses(s: State, j: nat, k: nat)
    requires s.manager.MResetSize? && 2 <= s.max < DWORD
    requires j < |s.submitters| && k < |s.submitters| && j != k && s.submitters[k].SLoop? && Raises(s.submitters[j])
    ensures CanPass(s)
  {
    var s1 := Next(s, Manage);
    var acts, s' := RaisesFirst(s1, j, k);
    acts, s' := Go(s1, acts, s', SubmitStep(k, false, 0));
    acts, s' := Go(s1, acts, s', SubmitStep(k, false, 0));
    acts, s' := Go(s1, acts, s', SubmitStep(j, false, 0));
    acts, s' := Go(s1, acts, s', SubmitStep(j, false, 0));
    SwapPasses(s, acts, s', j, k, 1);
  }

  lemma StalePasses(s: State, j: nat, k: nat)
    requires Shape(s) && s.manager.MResetSize? && j < |s.submitters| && k < |s.submitters| && j != k
    requires Stale(s.submitters[k], s.max) && forall i | 0 <= i < |s.submitters| :: Reserves(s.submitters[i]) == 0
    ensures CanPass(s)
  {
    var s1 := Next(s, Manage);
    if s.submitters[k].STry? {
      SwapPasses(s, [], s1, j, k, s.submitters[k].q);
    } else if s.submitters[k].SRead? {
      var acts, s' := Go(s1, [], s1, SubmitStep(k, false, 0));
      SwapPasses(s, acts, s', j, k, s.submitters[k].q);
    } else {
      UnlimitedPasses(s, j, k);
    }
  }

  /** The limit of the next cycle can be passed exactly if Reset finds one of these: a
      submitter that holds a reservation; or, beside at least one other, a submitter that has
      seen the pool started and not read the limit, or read it as unlimited; one that has read
      the counter above 0, and is to compare it with the old limit or to swap; or one that is
      about to read the counter while another can still raise it. */
  lemma LimitIff(s0: State, before: seq<Action>, s: State)
    requires Init(s0) && Runs(s0, before, s) && s.manager.MResetSize?
    ensures CanPass(s) <==> Harmful(s)
  {
    InitFine(s0);
    RunShape(s0, before, s);
    if k :| 0 <= k < |s.submitters| && Reserves(s.submitters[k]) == 1 {
      ForgottenPasses(s, k);
    } else if k :| 0 <= k < |s.submitters| && |s.submitters| >= 2 && Stale(s.submitters[k], s.max) {
      StalePasses(s, if k == 0 then 1 else 0, k);
    } else if Harmful(s) {
      var j, k :| 0 <= j < |s.submitters| && 0 <= k < |s.submitters| && j != k && s.submitters[k].SLoop? && Raises(s.submitters[j]);
      PairPasses(s, j, k);
    } else if CanPass(s) {
      var acts, s' :| Runs(Next(s, Manage), acts, s') && NoReset(Next(s, Manage), acts) && Over(s');
      Harmless(s, acts, s');
    }
  }

  lemma Harmless(s: State, acts: seq<Action>, s': State)
    requires Shape(s) && s.manager.MResetSize? && !Harmful(s)
    requires Runs(Next(s, Manage), acts, s') && NoReset(Next(s, Manage), acts)
    ensures !Over(s')
  {
    ShapeKept(s, Manage);
    ResetFine(s);
    NoResetIsHarmless(Next(s, Manage), acts);
    RunFine(Next(s, Manage), acts, s');
    RunShape(Next(s, Manage), acts, s');
  }

  // ---------------------------------------------------------------- an example

  lemma {:induction false} OneMore(s: State, acts: seq<Action>, mid: State, a: Action) returns (acts': seq<Action>, s': State)
    requires Runs(s, acts, mid) && Enabled(mid, a)
    ensures acts' == acts + [a] && s' == Next(mid, a) && Runs(s, acts', s')
    decreases acts
  {
    acts', s' := acts + [a], Next(mid, a);
    if acts == [] {
      assert acts' == [a] && [a][1..] == [];
      assert Runs(Next(s, a), [], s');
    } else {
      var more, _ := OneMore(Next(s, acts[0]), acts[1..], mid, a);
      assert acts'[1..] == more;
    }
  }

  const TWO := State(Stopped, 0, 0, false, [], [SIdle, SIdle], [], MIdle, 0)

  /** Submitter 0 has seen the first cycle started, and the second one's limit is 1. */
  const RESTARTED := TWO.(st := Started, max := 1, open := true, submitters := [SUnlimited, SIdle])

  lemma UpToRestarted() returns (acts: seq<Action>)
    ensures Runs(TWO, acts, RESTARTED)
  {
    var s';
    acts, s' := OneMore(TWO, [], TWO, CallStart(1));
    acts, s' := OneMore(TWO, acts, s', Manage);
    acts, s' := OneMore(TWO, acts, s', Submit(0));
    acts, s' := OneMore(TWO, acts, s', CallStop);
    acts, s' := OneMore(TWO, acts, s', Manage);
    acts, s' := OneMore(TWO, acts, s', Manage);
    acts, s' := OneMore(TWO, acts, s', Manage);
    assert s' == TWO.(st := Stopping, manager := MResetState, submitters := [SStarted, SIdle]);
    acts, s' := OneMore(TWO, acts, s', SubmitStep(0, true, 0));
    acts, s' := OneMore(TWO, acts, s', Manage);
    acts, s' := OneMore(TWO, acts, s', CallStart(1));
    acts, s' := OneMore(TWO, acts, s', Manage);
    assert s' == RESTARTED;
  }

  /** No reservation stands at the Reset, and yet two tasks are queued where one is allowed. */
  lemma LimitPassed() returns (acts: seq<Action>, s': State)
    ensures Init(TWO) && Runs(TWO, acts, s')
    ensures s'.st.Started? && s'.queue == [8, 7] && s'.cur == 2 && s'.max == 1
  {
    acts := UpToRestarted();
    acts, s' := OneMore(TWO, acts, RESTARTED, Submit(1));
    acts, s' := OneMore(TWO, acts, s', SubmitStep(1, true, 8));
    acts, s' := OneMore(TWO, acts, s', SubmitStep(1, true, 8));
    acts, s' := OneMore(TWO, acts, s', SubmitStep(1, true, 8));
    acts, s' := OneMore(TWO, acts, s', SubmitStep(1, true, 8));
    assert s' == RESTARTED.(cur := 1, submitters := [SUnlimited, SReserved]);
    acts, s' := OneMore(TWO, acts, s', SubmitStep(1, true, 8));
    acts, s' := OneMore(TWO, acts, s', SubmitStep(0, true, 7));
    acts, s' := OneMore(TWO, acts, s', SubmitStep(0, true, 7));
    assert s'.queue == [8, 7];
  }
}

/** When an untimed call of `rmw_wait` ends with every slot null although nothing is taken during the call. */
module UntimedWaits {
  import opened Options
  import opened WaitProtocol
  import opened WaitSafety
  import opened WaitResults

  // ----- the condition at the start of the call

  predicate SomeReadyFrom(s: State, i: nat) {
    exists j: nat | i <= j < |s.entries| :: s.entries[j] in s.ready
  }

  /** A notifier holds the mutex of a queue of the wait set, and will fill that queue before it lets go. */
  predicate OwedQueue(s: State) {
    exists k | 0 <= k < |s.notifiers| :: s.notifiers[k].outer.Some? && Queue(s.notifiers[k].outer.value) in s.entries
  }

  /** A notifier has written the status of an event of the wait set and has not announced it yet. */
  predicate WrittenEvent(s: State) {
    exists k | 0 <= k < |s.notifiers| :: s.notifiers[k].pc.Written? && s.notifiers[k].pc.e in s.entries
  }

  /** The call is about to begin, nothing waits to be reported, and an event of the wait set that has already
      been taken is still to be announced. */
  predicate StaleAtStart(s: State) {
    !SomeReadyFrom(s, 0) && !OwedQueue(s) && WrittenEvent(s)
  }

  /** Some run of the other threads, without takers, lets the call return with every slot null. */
  ghost predicate CanTimeOut(s: State) {
    exists acts :: TimesOut(s, acts)
  }

  predicate TimesOut(s: State, acts: seq<Action>) {
    && ValidRun(s, acts) && NoTakes(acts) && NoEnter(acts)
    && Final(s, acts).pc == Outside && true !in Final(s, acts).slots
  }

  // ----- only if: a queue that is owed will be reported

  predicate Owed(s: State, i: nat) {
    && |s.slots| <= i < |s.entries| && s.entries[i].Queue?
    && exists k | 0 <= k < |s.notifiers| :: s.notifiers[k].outer == Some(s.entries[i].q)
  }

  /** The waiter cannot read the queue while it is owed: the notifier holds its mutex. */
  lemma ReadIsNotOwed(s: State)
    requires Inv(s) && s.pc.Reading?
    ensures !Owed(s, s.pc.i)
  {
    if Owed(s, s.pc.i) {
      var k :| 0 <= k < |s.notifiers| && s.notifiers[k].outer == Some(s.entries[s.pc.i].q);
      Exclusive(s, Waiter, Notifier(k), MutexOf(s.entries[s.pc.i]));
    }
  }

  lemma WaiterKeepsOwed(s: State, a: Action, i: nat)
    requires Inv(s) && Enabled(s, a) && IsWaiterAction(a) && !a.Enter? && s.pc != Outside && Owed(s, i)
    ensures Owed(Step(s, a), i)
  {
    if a.Read? {
      ReadIsNotOwed(s);
    }
  }

  /** The notifier that owes fills the queue when it lets go of the event. */
  lemma NotifierKeepsOwed(s: State, a: Action, i: nat)
    requires Inv(s) && Enabled(s, a) && !IsWaiterAction(a) && !a.Take? && Owed(s, i)
    ensures Owed(Step(s, a), i) || Pending(Step(s, a), i)
  {
    var k :| 0 <= k < |s.notifiers| && s.notifiers[k].outer == Some(s.entries[i].q);
    assert NotifierShape(s.notifiers[k]);
    if !(a.Release? && a.k == k) {
      assert Step(s, a).notifiers[k].outer == s.notifiers[k].outer;
    }
  }

  lemma {:induction false} OwedReported(s: State, acts: seq<Action>, i: nat)
    requires Inv(s) && s.pc != Outside && ValidRun(s, acts) && NoTakes(acts) && NoEnter(acts)
    requires Owed(s, i) && forall j | 0 <= j < i :: s.entries[j] != s.entries[i]
    requires Final(s, acts).pc == Outside
    ensures true in Final(s, acts).slots
    decreases acts
  {
    var s' := Step(s, acts[0]);
    StepInv(s, acts[0]);
    if IsWaiterAction(acts[0]) { WaiterKeepsOwed(s, acts[0], i); } else { NotifierKeepsOwed(s, acts[0], i); }
    EntriesFixed(s, acts[0]);
    if s'.pc == Outside {
      StaysOutside(s', acts[1..]);
    } else if Pending(s', i) {
      AllReadyReported(s', acts[1..], i);
    } else {
      OwedReported(s', acts[1..], i);
    }
  }

  lemma {:induction false} FirstSlot(es: seq<Entity>, i: nat) returns (first: nat)
    requires i < |es|
    ensures first <= i && es[first] == es[i] && forall j | 0 <= j < first :: es[j] != es[first]
  {
    if j :| 0 <= j < i && es[j] == es[i] {
      first := FirstSlot(es, j);
    } else {
      first := i;
    }
  }

  // ----- only if: what is announced is there

  /** A notifier that is to announce an entity of the wait set has data to announce. One that has locked an entity
      which is not attached will announce nothing. */
  predicate Announces(s: State, n: NotifierState) {
    (n.pc.Written? || n.pc.AtCondition? || (n.pc.Inspecting? && n.pc.e in s.attached)) && n.pc.e in s.entries
    ==> n.pc.e in s.ready
  }

  predicate NoStaleNotifier(s: State) {
    forall k | 0 <= k < |s.notifiers| :: Announces(s, s.notifiers[k])
  }

  predicate Untimed(s: State) {
    match s.pc
    case Outside => true in s.slots
    case Asleep(_) => s.timeout == Never && (s.triggered ==> SomeReadyFrom(s, 0))
    case Detaching(i) => true in s.slots || SomeReadyFrom(s, i)
    case Reading(i) => true in s.slots || SomeReadyFrom(s, i)
    case _ => s.timeout == Never
  }

  lemma NobodyInspectsOwn(s: State, k: nat, e: Entity)
    requires Inv(s) && k < |s.notifiers| && WaiterHolds(s, MutexOf(e))
    ensures s.notifiers[k].pc != Inspecting(e) && s.notifiers[k].pc != AtCondition(e)
  {
    if s.notifiers[k].pc == Inspecting(e) || s.notifiers[k].pc == AtCondition(e) {
      Exclusive(s, Waiter, Notifier(k), MutexOf(e));
    }
  }

  lemma WaiterKeepsNoStale(s: State, a: Action)
    requires Inv(s) && NoStaleNotifier(s) && Enabled(s, a) && IsWaiterAction(a) && !a.Enter?
    ensures NoStaleNotifier(Step(s, a))
  {
    forall k | 0 <= k < |s.notifiers| ensures Announces(Step(s, a), s.notifiers[k]) {
      assert Announces(s, s.notifiers[k]) && NotifierShape(s.notifiers[k]);
      if a.Attach? || a.Read? {
        NobodyInspectsOwn(s, k, s.entries[s.pc.i]);
      }
    }
  }

  lemma NotifierKeepsNoStale(s: State, a: Action)
    requires Inv(s) && NoStaleNotifier(s) && Enabled(s, a) && !IsWaiterAction(a) && !a.Take?
    ensures NoStaleNotifier(Step(s, a))
  {
    forall k | 0 <= k < |s.notifiers| ensures Announces(Step(s, a), Step(s, a).notifiers[k]) {
      assert Announces(s, s.notifiers[k]) && NotifierShape(s.notifiers[k]);
    }
  }

  lemma WaiterKeepsUntimed(s: State, a: Action)
    requires Inv(s) && Untimed(s) && s.pc != Outside && Enabled(s, a) && IsWaiterAction(a)
    ensures Untimed(Step(s, a))
  {
    var s' := Step(s, a);
    match a {
      case Check =>
        assert s.entries[s.pc.i] in s.ready ==> SomeReadyFrom(s', 0);
      case Wake =>
        if s.triggered {
          var j :| 0 <= j < |s.entries| && s.entries[j] in s.ready;
          assert s'.entries[j] in s'.ready;
        }
      case Detach =>
        if SomeReadyFrom(s, s.pc.i) {
          var j :| s.pc.i <= j < |s.entries| && s.entries[j] in s.ready;
          assert s'.entries[j] in s'.ready;
        }
      case Read =>
        assert s'.slots[|s.slots|] == (s.entries[s.pc.i] in s.ready);
        assert true in s.slots ==> true in s'.slots;
        if SomeReadyFrom(s, s.pc.i) && s.entries[s.pc.i] !in s.ready {
          var j :| s.pc.i <= j < |s.entries| && s.entries[j] in s.ready;
          assert s'.entries[j] in s'.ready;
        }
      case _ =>
    }
  }

  lemma NotifierKeepsUntimed(s: State, a: Action)
    requires Inv(s) && Untimed(s) && NoStaleNotifier(s) && s.pc != Outside
    requires Enabled(s, a) && !IsWaiterAction(a) && !a.Take?
    ensures Untimed(Step(s, a))
  {
    var s' := Step(s, a);
    forall i: nat | SomeReadyFrom(s, i) ensures SomeReadyFrom(s', i) {
      var j :| i <= j < |s.entries| && s.entries[j] in s.ready;
      assert s'.entries[j] in s'.ready;
    }
    if a.Signal? && s.pc.Asleep? {
      var e := s.notifiers[a.k].pc.e;
      assert Announces(s, s.notifiers[a.k]) && e in Entries(s.entries);
      var j :| 0 <= j < |s.entries| && s.entries[j] == e;
      assert s'.entries[j] in s'.ready;
    }
  }

  /** An untimed wait without concurrent takers and without a stale notifier returns `RMW_RET_OK`, from wherever in
      the call these hold: some slot stays non-null. */
  lemma {:induction false} UntimedWaitReturnsOk(s: State, acts: seq<Action>)
    requires Inv(s) && NoStaleNotifier(s) && Untimed(s)
    requires s.pc != Outside && ValidRun(s, acts) && NoTakes(acts) && NoEnter(acts)
    requires Final(s, acts).pc == Outside
    ensures true in Final(s, acts).slots
    decreases acts
  {
    var a, s' := acts[0], Step(s, acts[0]);
    StepInv(s, a);
    if IsWaiterAction(a) {
      WaiterKeepsNoStale(s, a);
      WaiterKeepsUntimed(s, a);
    } else {
      NotifierKeepsNoStale(s, a);
      NotifierKeepsUntimed(s, a);
    }
    if s'.pc == Outside {
      StaysOutside(s', acts[1..]);
    } else {
      UntimedWaitReturnsOk(s', acts[1..]);
    }
  }

  lemma StartsNotStale(s: State)
    requires Inv(s) && s.pc == Entering && !WrittenEvent(s)
    ensures NoStaleNotifier(s)
  {
    forall k | 0 <= k < |s.notifiers| ensures Announces(s, s.notifiers[k]) {
    }
  }

  lemma OnlyStaleTimesOut(s: State, acts: seq<Action>)
    requires Inv(s) && s.pc == Entering && s.timeout == Never && TimesOut(s, acts)
    ensures StaleAtStart(s)
  {
    if SomeReadyFrom(s, 0) {
      var j :| 0 <= j < |s.entries| && s.entries[j] in s.ready;
      var i := FirstSlot(s.entries, j);
      AllReadyReported(s, acts, i);
    } else if OwedQueue(s) {
      var k :| 0 <= k < |s.notifiers| && s.notifiers[k].outer.Some? && Queue(s.notifiers[k].outer.value) in s.entries;
      var j :| 0 <= j < |s.entries| && s.entries[j] == Queue(s.notifiers[k].outer.value);
      var i := FirstSlot(s.entries, j);
      assert Owed(s, i);
      OwedReported(s, acts, i);
    } else if !WrittenEvent(s) {
      StartsNotStale(s);
      UntimedWaitReturnsOk(s, acts);
    }
  }

  // ----- if: a run in which the waiter sleeps, is woken and finds nothing, built from its end

  lemma Before(s: State, a: Action)
    requires Enabled(s, a) && !a.Take? && !a.Enter? && CanTimeOut(Step(s, a))
    ensures CanTimeOut(s)
  {
    var acts :| TimesOut(Step(s, a), acts);
    RunCons(s, a, acts);
    assert forall i | 0 < i < |[a] + acts| :: ([a] + acts)[i] == acts[i - 1];
    assert TimesOut(s, [a] + acts);
  }

  /** The notifier holds no mutex that the waiter needs. */
  predicate OutOfTheWay(s: State, n: NotifierState) {
    forall j | 0 <= j < |s.entries| :: !NotifierHolds(n, MutexOf(s.entries[j]))
  }

  predicate WayFree(s: State) {
    forall k | 0 <= k < |s.notifiers| :: OutOfTheWay(s, s.notifiers[k])
  }

  lemma SomeoneHolds(s: State, m: Mutex)
    requires LocksAgree(s)
    ensures m in s.locks ==> exists t :: Holds(s, t, m)
  {
    assert m in s.locks ==> Holds(s, s.locks[m], m);
  }

  lemma MutexFree(s: State, i: nat)
    requires Inv(s) && WayFree(s) && i < |s.entries| && !s.pc.Checked? && !s.pc.Reading?
    ensures Free(s, MutexOf(s.entries[i]))
  {
    var m := MutexOf(s.entries[i]);
    SomeoneHolds(s, m);
  }

  lemma ConditionFree(s: State)
    requires Inv(s) && !s.pc.Attaching? && !s.pc.Checked?
    ensures Free(s, Condition)
  {
    SomeoneHolds(s, Condition);
  }

  lemma {:induction false} FindsNothing(s: State)
    requires Inv(s) && s.pc.Detaching? && WayFree(s) && !SomeReadyFrom(s, 0) && true !in s.slots
    ensures CanTimeOut(s)
    decreases |s.entries| - s.pc.i
  {
    if s.pc.i == |s.entries| {
      assert TimesOut(Step(s, Return), []);
      Before(s, Return);
    } else {
      MutexFree(s, s.pc.i);
      var t := Step(s, Detach);
      StepInv(s, Detach);
      var u := Step(t, Read);
      StepInv(t, Read);
      FindsNothing(u);
      Before(t, Read);
      Before(s, Detach);
    }
  }

  lemma WokenForNothing(s: State)
    requires Inv(s) && s.pc.Asleep? && s.triggered && WayFree(s) && !SomeReadyFrom(s, 0)
    ensures CanTimeOut(s)
  {
    ConditionFree(s);
    StepInv(s, Wake);
    FindsNothing(Step(s, Wake));
    Before(s, Wake);
  }

  lemma ReleaseClears(s: State, k: nat)
    requires Inv(s) && k < |s.notifiers| && s.notifiers[k].pc.Finishing? && !OwedQueue(s) && !SomeReadyFrom(s, 0)
    ensures !OwedQueue(Step(s, Release(k))) && !SomeReadyFrom(Step(s, Release(k)), 0)
    ensures OutOfTheWay(s, Step(s, Release(k)).notifiers[k])
  {
    var n, s' := s.notifiers[k], Step(s, Release(k));
    assert NotifierShape(n);
    if n.outer.Some? {
      assert Queue(n.outer.value) !in s.entries;
    }
    forall j | 0 <= j < |s.notifiers| && s'.notifiers[j].outer.Some?
      ensures Queue(s'.notifiers[j].outer.value) !in s.entries
    {
      assert j != k ==> s'.notifiers[j] == s.notifiers[j];
    }
    forall j: nat | j < |s.entries| ensures s.entries[j] !in s'.ready {
    }
  }

  /** The stale notifier wakes the sleeping waiter. */
  lemma AnnouncedLate(s: State, k: nat)
    requires Inv(s) && s.pc.Asleep? && WayFree(s) && !SomeReadyFrom(s, 0) && !OwedQueue(s)
    requires k < |s.notifiers| && s.notifiers[k].pc.Written? && s.notifiers[k].pc.e in s.entries
    ensures CanTimeOut(s)
  {
    var e := s.notifiers[k].pc.e;
    var i :| 0 <= i < |s.entries| && s.entries[i] == e;
    MutexFree(s, i);
    var t := Step(s, LockEvent(k));
    StepInv(s, LockEvent(k));
    assert e in t.attached;
    var u := Step(t, Inspect(k));
    StepInv(t, Inspect(k));
    WakesForNothing(u, k);
    Before(t, Inspect(k));
    Before(s, LockEvent(k));
  }

  lemma WakesForNothing(s: State, k: nat)
    requires Inv(s) && s.pc.Asleep? && !SomeReadyFrom(s, 0) && !OwedQueue(s)
    requires k < |s.notifiers| && s.notifiers[k].pc.AtCondition?
    requires forall j | 0 <= j < |s.notifiers| && j != k :: OutOfTheWay(s, s.notifiers[j])
    ensures CanTimeOut(s)
  {
    ConditionFree(s);
    var t := Step(s, Signal(k));
    StepInv(s, Signal(k));
    assert !OwedQueue(t) && !SomeReadyFrom(t, 0);
    ReleaseClears(t, k);
    var u := Step(t, Release(k));
    StepInv(t, Release(k));
    forall j | 0 <= j < |u.notifiers| ensures OutOfTheWay(u, u.notifiers[j]) {
      assert j != k ==> u.notifiers[j] == s.notifiers[j];
    }
    WokenForNothing(u);
    Before(t, Release(k));
    Before(s, Signal(k));
  }

  lemma {:induction false} FallsAsleep(s: State, k: nat)
    requires Inv(s) && s.pc.Attaching? && s.timeout == Never && WayFree(s) && !SomeReadyFrom(s, 0) && !OwedQueue(s)
    requires k < |s.notifiers| && s.notifiers[k].pc.Written? && s.notifiers[k].pc.e in s.entries
    ensures CanTimeOut(s)
    decreases |s.entries| - s.pc.i
  {
    if s.pc.i == |s.entries| {
      StepInv(s, FinishAttach);
      AnnouncedLate(Step(s, FinishAttach), k);
      Before(s, FinishAttach);
    } else {
      MutexFree(s, s.pc.i);
      var t := Step(s, Check);
      StepInv(s, Check);
      var u := Step(t, Attach);
      StepInv(t, Attach);
      FallsAsleep(u, k);
      Before(t, Attach);
      Before(s, Check);
    }
  }

  /** The notifiers from `k` on let go of the mutexes the waiter needs; before it starts they find no wait set. */
  lemma {:induction false} WayIsFreed(s: State, k: nat, stale: nat)
    requires Inv(s) && s.pc == Entering && s.timeout == Never && !SomeReadyFrom(s, 0) && !OwedQueue(s)
    requires stale < |s.notifiers| && s.notifiers[stale].pc.Written? && s.notifiers[stale].pc.e in s.entries
    requires k <= |s.notifiers| && forall j | 0 <= j < k :: OutOfTheWay(s, s.notifiers[j])
    ensures CanTimeOut(s)
    decreases |s.notifiers| - k
  {
    if k == |s.notifiers| {
      ConditionFree(s);
      StepInv(s, LockCondition);
      FallsAsleep(Step(s, LockCondition), stale);
      Before(s, LockCondition);
    } else if OutOfTheWay(s, s.notifiers[k]) {
      WayIsFreed(s, k + 1, stale);
    } else if s.notifiers[k].pc.Inspecting? {
      var t := Step(s, Inspect(k));
      StepInv(s, Inspect(k));
      assert !OwedQueue(t);
      NotifierLetsGo(t, k, stale);
      Before(s, Inspect(k));
    } else {
      NotifierLetsGo(s, k, stale);
    }
  }

  lemma NotifierLetsGo(s: State, k: nat, stale: nat)
    requires Inv(s) && s.pc == Entering && s.timeout == Never && !SomeReadyFrom(s, 0) && !OwedQueue(s)
    requires stale < |s.notifiers| && s.notifiers[stale].pc.Written? && s.notifiers[stale].pc.e in s.entries
    requires k < |s.notifiers| && s.notifiers[k].pc.Finishing?
    requires forall j | 0 <= j < k :: OutOfTheWay(s, s.notifiers[j])
    ensures CanTimeOut(s)
    decreases |s.notifiers| - k, 0
  {
    var t := Step(s, Release(k));
    StepInv(s, Release(k));
    ReleaseClears(s, k);
    forall j | 0 <= j <= k ensures OutOfTheWay(t, t.notifiers[j]) {
      assert j != k ==> t.notifiers[j] == s.notifiers[j];
    }
    WayIsFreed(t, k + 1, stale);
    Before(s, Release(k));
  }

  // ----- exactly when

  /** An untimed call without takers may end with every slot null if and only if, when it begins, no entity of the
      wait set has data, no notifier owes one of its queues a message, and the status of one of its events has been
      taken between being written and being announced. */
  lemma TimesOutIff(s: State)
    requires Inv(s) && s.pc == Entering && s.timeout == Never
    ensures CanTimeOut(s) <==> StaleAtStart(s)
  {
    if CanTimeOut(s) {
      var acts :| TimesOut(s, acts);
      OnlyStaleTimesOut(s, acts);
    }
    if StaleAtStart(s) {
      var k :| 0 <= k < |s.notifiers| && s.notifiers[k].pc.Written? && s.notifiers[k].pc.e in s.entries;
      WayIsFreed(s, 0, k);
    }
  }

  /** A wait set without event slots is safe: from whatever state the call begins, it returns `RMW_RET_OK`. */
  lemma WithoutEventsReturnsOk(s: State, acts: seq<Action>)
    requires Reachable(s) && s.pc == Entering && s.timeout == Never
    requires forall i | 0 <= i < |s.entries| :: !s.entries[i].Event?
    requires ValidRun(s, acts) && NoTakes(acts) && NoEnter(acts) && Final(s, acts).pc == Outside
    ensures true in Final(s, acts).slots
  {
    ReachableInv(s);
    forall k | 0 <= k < |s.notifiers| && s.notifiers[k].pc.Written? ensures s.notifiers[k].pc.e !in s.entries {
      assert NotifierShape(s.notifiers[k]);
    }
    if TimesOut(s, acts) {
      OnlyStaleTimesOut(s, acts);
    }
  }

  // ----- the condition occurs for every wait set with an event slot

  /** The status of an event is written, taken, and then a call begins. */
  lemma StaleNotifierRun(es: seq<Entity>, e: Entity) returns (acts: seq<Action>)
    requires e.Event?
    ensures ValidRun(Init(1), acts)
    ensures Final(Init(1), acts) ==
      State(map[], {}, {}, false, Entering, es, Never, [], [NotifierState(Written(e), None)])
  {
    var s0 := Init(1);
    var s1 := s0.(notifiers := [NotifierState(Start(e), None)]);
    var s2 := s0.(notifiers := [NotifierState(Written(e), None)], ready := {e});
    var s3 := s2.(ready := {});
    var s4 := s3.(pc := Entering, entries := es);
    assert Step(s0, Spawn(0, e)) == s1 && Step(s1, WriteEvent(0)) == s2;
    assert Step(s2, Take(e)) == s3 && Step(s3, Enter(es, Never)) == s4;
    acts := [Spawn(0, e)] + ([WriteEvent(0)] + ([Take(e)] + ([Enter(es, Never)] + [])));
    RunCons(s3, Enter(es, Never), []);
    RunCons(s2, Take(e), [Enter(es, Never)] + []);
    RunCons(s1, WriteEvent(0), [Take(e)] + ([Enter(es, Never)] + []));
    RunCons(s0, Spawn(0, e), [WriteEvent(0)] + ([Take(e)] + ([Enter(es, Never)] + [])));
  }

  lemma RunCons(s: State, a: Action, rest: seq<Action>)
    requires Enabled(s, a) && ValidRun(Step(s, a), rest)
    ensures ValidRun(s, [a] + rest) && Final(s, [a] + rest) == Final(Step(s, a), rest)
  {
    assert ([a] + rest)[1..] == rest;
  }

  predicate HasEventSlot(es: seq<Entity>) {
    exists i :: 0 <= i < |es| && es[i].Event?
  }

  /** An untimed call on `es` is about to begin. */
  ghost predicate Begins(s: State, es: seq<Entity>) {
    Reachable(s) && s.pc == Entering && s.timeout == Never && s.entries == es
  }

  /** There are calls with an event slot that end with every slot null although nothing is taken while they run. */
  lemma SpuriousTimeout(es: seq<Entity>) returns (s: State, acts: seq<Action>)
    requires HasEventSlot(es)
    ensures Begins(s, es) && TimesOut(s, acts)
  {
    var i :| 0 <= i < |es| && es[i].Event?;
    var before := StaleNotifierRun(es, es[i]);
    s := Final(Init(1), before);
    assert Reachable(s);
    ReachableInv(s);
    assert s.notifiers[0].pc == Written(es[i]) && es[i] in s.entries;
    TimesOutIff(s);
    acts :| TimesOut(s, acts);
  }

  /** Whether an untimed call can end with every slot null is decided by the wait set: it can if and only if there is
      an event slot. */
  lemma EventSlotIff(es: seq<Entity>)
    ensures (exists s :: Begins(s, es) && CanTimeOut(s)) <==> HasEventSlot(es)
  {
    if s :| Begins(s, es) && CanTimeOut(s) {
      var acts :| TimesOut(s, acts);
      if !HasEventSlot(es) {
        WithoutEventsReturnsOk(s, acts);
      }
    }
    if HasEventSlot(es) {
      var s, acts := SpuriousTimeout(es);
      assert CanTimeOut(s);
    }
  }
}

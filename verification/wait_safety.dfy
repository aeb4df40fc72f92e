/** What every step of the wait protocol keeps, and what follows for every run. */
module WaitSafety {
  import opened EventIds
  import opened WaitProtocol

  // ----- shape and lock ownership

  function Entries(es: seq<Entity>): set<Entity> {
    set i | 0 <= i < |es| :: es[i]
  }

  predicate WaiterHolds(s: State, m: Mutex) {
    match s.pc
    case Attaching(_) => m == Condition
    case Checked(i) => m == Condition || (i < |s.entries| && m == MutexOf(s.entries[i]))
    case Reading(i) => i < |s.entries| && m == MutexOf(s.entries[i])
    case _ => false
  }

  predicate NotifierHolds(n: NotifierState, m: Mutex) {
    || (n.outer.Some? && m == QueueMutex(n.outer.value))
    || ((n.pc.Inspecting? || n.pc.AtCondition? || n.pc.Finishing?) && m == MutexOf(n.pc.e))
  }

  predicate Holds(s: State, t: Thread, m: Mutex) {
    match t
    case Waiter => WaiterHolds(s, m)
    case Notifier(k) => k < |s.notifiers| && NotifierHolds(s.notifiers[k], m)
  }

  predicate NotifierShape(n: NotifierState) {
    && (n.outer.Some? ==> !n.pc.Idle? && n.pc.e == Event(n.outer.value, MESSAGE_LOST))
    && (n.pc.Written? ==> n.pc.e.Event?)
  }

  predicate WaiterShape(s: State) {
    match s.pc
    case Attaching(i) => i <= |s.entries| && s.slots == []
    case Checked(i) => i < |s.entries| && s.slots == []
    case Detaching(i) => i <= |s.entries| && |s.slots| == i
    case Reading(i) => i < |s.entries| && |s.slots| == i
    case Outside => |s.slots| == |s.entries|
    case _ => s.slots == []
  }

  /** The lock table agrees with the program counters. */
  ghost predicate LocksAgree(s: State) {
    forall m: Mutex, t: Thread :: (m in s.locks && s.locks[m] == t) <==> Holds(s, t, m)
  }

  ghost predicate Sound(s: State) {
    && WaiterShape(s)
    && (forall k | 0 <= k < |s.notifiers| :: NotifierShape(s.notifiers[k]))
    && LocksAgree(s)
  }

  // ----- what is attached

  predicate AttachedWell(s: State) {
    match s.pc
    case Attaching(i) => i <= |s.entries| && s.attached == Entries(s.entries[..i])
    case Checked(i) => i <= |s.entries| && s.attached == Entries(s.entries[..i])
    case Asleep(_) => s.attached == Entries(s.entries)
    case Detaching(i) => i <= |s.entries| && s.attached <= Entries(s.entries[i..])
    case Reading(i) => i < |s.entries| && s.attached <= Entries(s.entries[i + 1..])
    case _ => s.attached == {}
  }

  /** A notifier that stands at the condition mutex notifies an entity that is still attached. */
  predicate BlockedAttached(s: State) {
    forall k | 0 <= k < |s.notifiers| ::
      s.notifiers[k].pc.AtCondition? ==> s.notifiers[k].pc.e in s.attached
  }

  // ----- wake-ups

  /** The notifier has published data of `e` and has not yet set `triggered` for it. */
  predicate Notifying(n: NotifierState, e: Entity) {
    n.pc == Written(e) || n.pc == Inspecting(e) || n.pc == AtCondition(e)
  }

  predicate InFlight(s: State, e: Entity) {
    exists k | 0 <= k < |s.notifiers| :: Notifying(s.notifiers[k], e)
  }

  predicate Covered(s: State) {
    forall e | e in s.attached && e in s.ready :: InFlight(s, e)
  }

  predicate WrittenFor(s: State, e: Entity) {
    exists k | 0 <= k < |s.notifiers| :: s.notifiers[k].pc == Written(e)
  }

  predicate WakeSafe(s: State) {
    match s.pc
    case Attaching(_) => Covered(s)
    case Checked(i) =>
      Covered(s) && i < |s.entries| && (s.entries[i] in s.ready ==> WrittenFor(s, s.entries[i]))
    case Asleep(notified) => (s.triggered ==> notified) && (s.triggered || Covered(s))
    case _ => true
  }

  ghost predicate Inv(s: State) {
    Sound(s) && AttachedWell(s) && BlockedAttached(s) && WakeSafe(s)
  }

  // ----- preservation

  lemma InitInv(n: nat)
    ensures Inv(Init(n))
  {
  }

  /** The lock table follows the program counters when only thread `t` moves: it may take a free mutex and
      drop mutexes of its own. */
  lemma LocksFollow(s: State, s': State, t: Thread, taken: set<Mutex>, dropped: set<Mutex>)
    requires LocksAgree(s)
    requires forall u: Thread, m: Mutex | u != t :: Holds(s', u, m) == Holds(s, u, m)
    requires forall m | m in taken :: Free(s, m)
    requires forall m | m in dropped :: Holds(s, t, m)
    requires s'.locks == (s.locks - dropped) + map m | m in taken :: t
    requires forall m: Mutex :: Holds(s', t, m) == (m in taken || (Holds(s, t, m) && m !in dropped))
    ensures LocksAgree(s')
  {
    forall m: Mutex, u: Thread ensures (m in s'.locks && s'.locks[m] == u) <==> Holds(s', u, m) {
      assert (m in s.locks && s.locks[m] == u) <==> Holds(s, u, m);
      assert (m in s.locks && s.locks[m] == t) <==> Holds(s, t, m);
    }
  }

  lemma WaiterKeepsSound(s: State, a: Action)
    requires Sound(s) && Enabled(s, a) && IsWaiterAction(a)
    ensures Sound(Step(s, a))
  {
    var s' := Step(s, a);
    var taken, dropped := {}, {};
    match a {
      case LockCondition => taken := {Condition};
      case Check =>
        var e := s.entries[s.pc.i];
        if e in s.ready { dropped := {Condition}; } else { taken := {MutexOf(e)}; }
      case Attach => dropped := {MutexOf(s.entries[s.pc.i])};
      case FinishAttach => dropped := {Condition};
      case Detach => taken := {MutexOf(s.entries[s.pc.i])};
      case Read => dropped := {MutexOf(s.entries[s.pc.i])};
      case _ =>
    }
    forall m: Mutex ensures Holds(s', Waiter, m) == (m in taken || (Holds(s, Waiter, m) && m !in dropped)) {
    }
    LocksFollow(s, s', Waiter, taken, dropped);
  }

  lemma NotifierKeepsShape(s: State, a: Action)
    requires Sound(s) && Enabled(s, a) && !IsWaiterAction(a)
    ensures WaiterShape(Step(s, a))
    ensures forall k | 0 <= k < |Step(s, a).notifiers| :: NotifierShape(Step(s, a).notifiers[k])
  {
  }

  /** A notifier takes the mutex of its entity, gives it back, or touches no mutex. */
  lemma NotifierTakes(s: State, a: Action, m: Mutex)
    requires Sound(s) && Enabled(s, a) && (a.LockEntity? || a.LockEvent?)
    requires m == MutexOf(s.notifiers[a.k].pc.e)
    ensures LocksAgree(Step(s, a))
  {
    assert NotifierShape(s.notifiers[a.k]);
    LocksFollow(s, Step(s, a), Notifier(a.k), {m}, {});
  }

  lemma NotifierDrops(s: State, a: Action, m: Mutex)
    requires Sound(s) && Enabled(s, a) && a.Release?
    requires m == MutexOf(s.notifiers[a.k].pc.e)
    ensures LocksAgree(Step(s, a))
  {
    assert NotifierShape(s.notifiers[a.k]);
    LocksFollow(s, Step(s, a), Notifier(a.k), {}, {m});
  }

  lemma NotifierMoves(s: State, a: Action)
    requires Sound(s) && Enabled(s, a) && !IsWaiterAction(a)
    requires !a.LockEntity? && !a.LockEvent? && !a.Release?
    ensures LocksAgree(Step(s, a))
  {
    LocksFollow(s, Step(s, a), if a.Take? then Waiter else Notifier(a.k), {}, {});
  }

  lemma NotifierKeepsSound(s: State, a: Action)
    requires Sound(s) && Enabled(s, a) && !IsWaiterAction(a)
    ensures Sound(Step(s, a))
  {
    NotifierKeepsShape(s, a);
    match a {
      case LockEntity(k, _) => NotifierTakes(s, a, MutexOf(s.notifiers[k].pc.e));
      case LockEvent(k) => NotifierTakes(s, a, MutexOf(s.notifiers[k].pc.e));
      case Release(k) => NotifierDrops(s, a, MutexOf(s.notifiers[k].pc.e));
      case _ => NotifierMoves(s, a);
    }
  }

  lemma EntriesSnoc(es: seq<Entity>, i: nat)
    requires i < |es|
    ensures Entries(es[..i + 1]) == Entries(es[..i]) + {es[i]}
    ensures Entries(es[i..]) == Entries(es[i + 1..]) + {es[i]}
  {
    assert forall j | 0 <= j < i :: es[..i + 1][j] == es[..i][j];
    assert es[..i + 1][i] == es[i] && es[i..][0] == es[i];
    assert es[i..] == [es[i]] + es[i + 1..];
  }

  lemma EntriesPrefix(es: seq<Entity>, i: nat)
    requires i <= |es|
    ensures Entries(es[..i]) <= Entries(es)
    ensures i == |es| ==> Entries(es[..i]) == Entries(es)
    ensures Entries(es[0..]) == Entries(es) && Entries(es[..0]) == {} && Entries(es[|es|..]) == {}
  {
    assert forall j | 0 <= j < i :: es[..i][j] == es[j];
    assert es[0..] == es;
    if i == |es| { assert es[..i] == es; }
  }

  /** Two threads never hold the same mutex. */
  lemma Exclusive(s: State, t: Thread, u: Thread, m: Mutex)
    requires Sound(s) && Holds(s, t, m) && Holds(s, u, m)
    ensures t == u
  {
    assert s.locks[m] == t && s.locks[m] == u;
  }

  lemma DetachKeepsAttachment(s: State)
    requires Sound(s) && AttachedWell(s) && BlockedAttached(s) && Enabled(s, Detach)
    ensures AttachedWell(Step(s, Detach)) && BlockedAttached(Step(s, Detach))
  {
    var e := s.entries[s.pc.i];
    EntriesSnoc(s.entries, s.pc.i);
    forall k | 0 <= k < |s.notifiers| && s.notifiers[k].pc.AtCondition?
      ensures s.notifiers[k].pc.e != e
    {
      assert Holds(s, Notifier(k), MutexOf(s.notifiers[k].pc.e));
    }
  }

  lemma WaiterKeepsAttachment(s: State, a: Action)
    requires AttachedWell(s) && BlockedAttached(s) && Enabled(s, a) && IsWaiterAction(a) && !a.Detach?
    ensures AttachedWell(Step(s, a)) && BlockedAttached(Step(s, a))
  {
    match a {
      case Attach => EntriesSnoc(s.entries, s.pc.i);
      case LockCondition => EntriesPrefix(s.entries, 0);
      case Check => EntriesPrefix(s.entries, s.pc.i);
      case FinishAttach => EntriesPrefix(s.entries, s.pc.i);
      case Wake => EntriesPrefix(s.entries, 0);
      case TimeUp => EntriesPrefix(s.entries, 0);
      case Return => EntriesPrefix(s.entries, 0);
      case _ =>
    }
  }

  lemma NotifierKeepsAttachment(s: State, a: Action)
    requires AttachedWell(s) && BlockedAttached(s) && Enabled(s, a) && !IsWaiterAction(a)
    ensures AttachedWell(Step(s, a)) && BlockedAttached(Step(s, a))
  {
    var s' := Step(s, a);
    assert s'.attached == s.attached && s'.entries == s.entries;
    forall k | 0 <= k < |s'.notifiers| && s'.notifiers[k].pc.AtCondition?
      ensures s'.notifiers[k].pc.e in s'.attached
    {
      assert a.Inspect? || s'.notifiers[k] == s.notifiers[k];
    }
  }

  lemma KeepsAttachment(s: State, a: Action)
    requires Sound(s) && AttachedWell(s) && BlockedAttached(s) && Enabled(s, a)
    ensures AttachedWell(Step(s, a)) && BlockedAttached(Step(s, a))
  {
    if a.Detach? {
      DetachKeepsAttachment(s);
    } else if IsWaiterAction(a) {
      WaiterKeepsAttachment(s, a);
    } else {
      NotifierKeepsAttachment(s, a);
    }
  }

  // ----- the wake-up invariant

  /** A notifier that keeps its place, or moves on while still notifying `e`, keeps `e` in flight. */
  lemma StillInFlight(s: State, s': State, k: nat, e: Entity)
    requires InFlight(s, e) && k < |s.notifiers| == |s'.notifiers|
    requires forall j | 0 <= j < |s.notifiers| && j != k :: s'.notifiers[j] == s.notifiers[j]
    requires Notifying(s.notifiers[k], e) ==> Notifying(s'.notifiers[k], e)
    ensures InFlight(s', e)
  {
    var j :| 0 <= j < |s.notifiers| && Notifying(s.notifiers[j], e);
    assert Notifying(s'.notifiers[j], e);
  }

  lemma StillWritten(s: State, s': State, k: nat, e: Entity)
    requires WrittenFor(s, e) && k < |s.notifiers| == |s'.notifiers|
    requires forall j | 0 <= j < |s.notifiers| && j != k :: s'.notifiers[j] == s.notifiers[j]
    requires s.notifiers[k].pc == Written(e) ==> s'.notifiers[k].pc == Written(e)
    ensures WrittenFor(s', e)
  {
    var j :| 0 <= j < |s.notifiers| && s.notifiers[j].pc == Written(e);
    assert s'.notifiers[j].pc == Written(e);
  }

  lemma WaiterKeepsWakeSafe(s: State, a: Action)
    requires Inv(s) && Enabled(s, a) && IsWaiterAction(a)
    ensures WakeSafe(Step(s, a))
  {
    var s' := Step(s, a);
    if a.Attach? {
      forall e | e in s'.attached && e in s'.ready ensures InFlight(s', e) {
        if e in s.attached {
          assert InFlight(s, e);
          var j :| 0 <= j < |s.notifiers| && Notifying(s.notifiers[j], e);
          assert Notifying(s'.notifiers[j], e);
        } else {
          assert WrittenFor(s, e);
          var j :| 0 <= j < |s.notifiers| && s.notifiers[j].pc == Written(e);
          assert Notifying(s'.notifiers[j], e);
        }
      }
    } else if a.Check? || a.FinishAttach? || a.Wake? {
      assert s'.notifiers == s.notifiers;
      forall e | InFlight(s, e) ensures InFlight(s', e) {
        var j :| 0 <= j < |s.notifiers| && Notifying(s.notifiers[j], e);
        assert Notifying(s'.notifiers[j], e);
      }
    } else if a.LockCondition? {
      EntriesPrefix(s.entries, 0);
    }
  }

  /** During the attach phase the waiter holds the condition mutex, and the mutex of a checked slot. */
  lemma NotifierKeepsWakeSafe(s: State, a: Action)
    requires Inv(s) && Enabled(s, a) && !IsWaiterAction(a)
    ensures WakeSafe(Step(s, a))
  {
    var s' := Step(s, a);
    if a.Take? {
      forall e | InFlight(s, e) ensures InFlight(s', e) {
        var j :| 0 <= j < |s.notifiers| && Notifying(s.notifiers[j], e);
        assert Notifying(s'.notifiers[j], e);
      }
      if s.pc.Checked? && WrittenFor(s, s.entries[s.pc.i]) {
        var j :| 0 <= j < |s.notifiers| && s.notifiers[j].pc == Written(s.entries[s.pc.i]);
        assert s'.notifiers[j].pc == Written(s.entries[s.pc.i]);
      }
    } else {
      var k := a.k;
      if a.Signal? {
        assert !WaiterHolds(s, Condition) by { assert Holds(s, Waiter, Condition) ==> Condition in s.locks; }
      }
      if (s.pc.Attaching? || s.pc.Checked? || s.pc.Asleep?) && !a.Signal? && (s.pc.Asleep? ==> !s.triggered) {
        NotifierKeepsCovered(s, a);
      }
      if s.pc.Checked? && !a.Signal? {
        NotifierKeepsWritten(s, a);
      }
    }
  }

  lemma NotifierKeepsCovered(s: State, a: Action)
    requires Inv(s) && Enabled(s, a) && !IsWaiterAction(a) && !a.Take? && !a.Signal? && Covered(s)
    ensures Covered(Step(s, a))
  {
    var s' := Step(s, a);
    var k := a.k;
    forall e | e in s'.attached && e in s'.ready ensures InFlight(s', e) {
      if Notifying(s'.notifiers[k], e) {
      } else {
        assert e in s.ready;
        StillInFlight(s, s', k, e);
      }
    }
  }

  lemma NotifierKeepsWritten(s: State, a: Action)
    requires Inv(s) && Enabled(s, a) && !IsWaiterAction(a) && !a.Take? && s.pc.Checked?
    ensures var e := s.entries[s.pc.i]; e in Step(s, a).ready ==> WrittenFor(Step(s, a), e)
  {
    var s' := Step(s, a);
    var k := a.k;
    var e := s.entries[s.pc.i];
    assert Holds(s, Waiter, MutexOf(e));
    assert MutexOf(e) in s.locks && s.locks[MutexOf(e)] == Waiter;
    if e in s'.ready {
      if s'.notifiers[k].pc == Written(e) {
      } else if e in s.ready {
        StillWritten(s, s', k, e);
      } else if a.Release? {
        assert Holds(s, Notifier(k), QueueMutex(s.notifiers[k].outer.value));
        assert false;
      }
    }
  }

  lemma StepInv(s: State, a: Action)
    requires Inv(s) && Enabled(s, a)
    ensures Inv(Step(s, a))
  {
    if IsWaiterAction(a) {
      WaiterKeepsSound(s, a);
      WaiterKeepsWakeSafe(s, a);
    } else {
      NotifierKeepsSound(s, a);
      NotifierKeepsWakeSafe(s, a);
    }
    KeepsAttachment(s, a);
  }

  lemma {:induction false} RunInv(s: State, acts: seq<Action>)
    requires Inv(s) && ValidRun(s, acts)
    ensures Inv(Final(s, acts))
    decreases acts
  {
    if acts != [] {
      StepInv(s, acts[0]);
      RunInv(Step(s, acts[0]), acts[1..]);
    }
  }

  lemma ReachableInv(s: State)
    requires Reachable(s)
    ensures Inv(s)
  {
    var n: nat, acts :| ValidRun(Init(n), acts) && Final(Init(n), acts) == s;
    InitInv(n);
    RunInv(Init(n), acts);
  }

  /** No lost wake-up: a waiter blocked in the condition variable with no wake-up pending has, for every entity
      of its wait set that has data, a notifier that will still set `triggered`. */
  lemma NoLostWakeup(s: State, e: Entity)
    requires Reachable(s) && s.pc == Asleep(false) && e in s.entries && e in s.ready
    ensures InFlight(s, e)
  {
    ReachableInv(s);
  }

  /** On return no entity keeps a pointer to the wait set, and every slot has its answer. */
  lemma ReturnDetachesAll(s: State)
    requires Reachable(s) && s.pc == Outside
    ensures s.attached == {} && |s.slots| == |s.entries|
  {
    ReachableInv(s);
  }
}

/** Which wait sets can deadlock `rmw_wait` against the notifiers, and why no other can. */
module WaitDeadlock {
  import opened EventIds
  import opened Options
  import opened WaitProtocol
  import opened WaitSafety

  /** The mutex a thread is about to lock. */
  function Wants(s: State, t: Thread): Option<Mutex> {
    match t
    case Waiter =>
      (match s.pc
       case Entering => Some(Condition)
       case Attaching(i) => if i < |s.entries| then Some(MutexOf(s.entries[i])) else None
       case Asleep(notified) => if notified then Some(Condition) else None
       case Detaching(i) => if i < |s.entries| then Some(MutexOf(s.entries[i])) else None
       case _ => None)
    case Notifier(k) =>
      if k >= |s.notifiers| then None else
      match s.notifiers[k].pc
      case Start(e) => if e.Event? then None else Some(MutexOf(e))
      case Written(e) => Some(MutexOf(e))
      case AtCondition(_) => Some(Condition)
      case _ => None
  }

  predicate Blocked(s: State, t: Thread) {
    Wants(s, t).Some? && Wants(s, t).value in s.locks
  }

  function Blocker(s: State, t: Thread): Thread
    requires Blocked(s, t)
  {
    s.locks[Wants(s, t).value]
  }

  /** A group of threads each waiting for a mutex held inside the group. */
  predicate ClosedGroup(s: State, group: set<Thread>) {
    group != {} && forall t | t in group :: Blocked(s, t) && Blocker(s, t) in group
  }

  ghost predicate Deadlocked(s: State) {
    exists group :: ClosedGroup(s, group)
  }

  /** Two slots whose order of attachment can close a cycle: they share a mutex, or a subscription comes after
      an event of its own events manager. */
  predicate Conflict(first: Entity, later: Entity) {
    MutexOf(first) == MutexOf(later) || (first.Event? && later == Queue(first.manager))
  }

  predicate Independent(es: seq<Entity>) {
    forall i, j | 0 <= i < j < |es| :: !Conflict(es[i], es[j])
  }

  /** Which pairs conflict, without mention of mutexes: a slot and itself, two events of one manager, and a
      subscription after an event of its own manager. */
  lemma ConflictMeans(first: Entity, later: Entity)
    ensures Conflict(first, later) <==>
            || first == later
            || (first.Event? && later.Event? && first.manager == later.manager)
            || (first.Event? && later.Queue? && first.manager == later.q)
  {
  }

  // ----- a deadlock is for ever

  /** The thread that takes a step; takers are none of the threads here. */
  predicate Takes(a: Action, t: Thread) {
    if a.Take? then false
    else if IsWaiterAction(a) then t == Waiter
    else t == Notifier(a.k)
  }

  lemma BlockedCannotStep(s: State, t: Thread, a: Action)
    requires Inv(s) && Blocked(s, t) && Takes(a, t)
    ensures !Enabled(s, a)
  {
    assert Holds(s, Blocker(s, t), Wants(s, t).value);
  }

  /** A thread's place, and the waiter's wait set, change by its own steps only, but for a sleeper being notified. */
  lemma PlaceKept(s: State, a: Action, t: Thread)
    requires Enabled(s, a) && !Takes(a, t)
    ensures t.Waiter? ==> Step(s, a).entries == s.entries && (Step(s, a).pc == s.pc || s.pc == Asleep(false))
    ensures t.Notifier? ==> |Step(s, a).notifiers| == |s.notifiers|
    ensures t.Notifier? && t.k < |s.notifiers| ==> Step(s, a).notifiers[t.k] == s.notifiers[t.k]
  {
    if t.Notifier? && !IsWaiterAction(a) && !a.Take? {
      assert a.k != t.k;
    }
  }

  lemma WantsKept(s: State, a: Action, t: Thread)
    requires Enabled(s, a) && Wants(s, t).Some? && !Takes(a, t)
    ensures Wants(Step(s, a), t) == Wants(s, t)
  {
    PlaceKept(s, a, t);
    SamePlace(s, Step(s, a), t);
  }

  lemma SamePlace(s: State, s': State, t: Thread)
    requires Wants(s, t).Some?
    requires t.Waiter? ==> s'.entries == s.entries && s'.pc == s.pc
    requires t.Notifier? ==> |s'.notifiers| == |s.notifiers|
    requires t.Notifier? && t.k < |s.notifiers| ==> s'.notifiers[t.k] == s.notifiers[t.k]
    ensures Wants(s', t) == Wants(s, t)
  {
  }

  lemma HoldsKept(s: State, a: Action, u: Thread, m: Mutex)
    requires Enabled(s, a) && Holds(s, u, m) && !Takes(a, u)
    ensures Holds(Step(s, a), u, m)
  {
    PlaceKept(s, a, u);
    SamePlaceHolds(s, Step(s, a), u, m);
  }

  lemma SamePlaceHolds(s: State, s': State, u: Thread, m: Mutex)
    requires Holds(s, u, m)
    requires u.Waiter? ==> s'.entries == s.entries && s'.pc == s.pc
    requires u.Notifier? ==> |s'.notifiers| == |s.notifiers|
    requires u.Notifier? && u.k < |s.notifiers| ==> s'.notifiers[u.k] == s.notifiers[u.k]
    ensures Holds(s', u, m)
  {
  }

  lemma MemberStaysBlocked(s: State, a: Action, t: Thread)
    requires Inv(s) && Enabled(s, a) && Blocked(s, t) && !Takes(a, t) && !Takes(a, Blocker(s, t))
    ensures Blocked(Step(s, a), t) && Blocker(Step(s, a), t) == Blocker(s, t)
  {
    var m := Wants(s, t).value;
    var u := Blocker(s, t);
    assert Holds(s, u, m);
    StepInv(s, a);
    HoldsKept(s, a, u, m);
    WantsKept(s, a, t);
  }

  /** No member of a closed group ever takes a step again, whatever the threads outside it do. */
  lemma {:induction false} DeadlockIsForEver(s: State, group: set<Thread>, acts: seq<Action>)
    requires Inv(s) && ClosedGroup(s, group) && ValidRun(s, acts)
    ensures ClosedGroup(Final(s, acts), group)
    ensures forall i, t | 0 <= i < |acts| && t in group :: !Takes(acts[i], t)
    decreases acts
  {
    if acts != [] {
      var a := acts[0];
      forall t | t in group ensures !Takes(a, t) {
        if Takes(a, t) { BlockedCannotStep(s, t, a); }
      }
      forall t | t in group ensures Blocked(Step(s, a), t) && Blocker(Step(s, a), t) in group {
        MemberStaysBlocked(s, a, t);
      }
      StepInv(s, a);
      DeadlockIsForEver(Step(s, a), group, acts[1..]);
      assert forall i | 0 < i < |acts| :: acts[i] == acts[1..][i - 1];
    }
  }

  // ----- independent wait sets: every blocked thread waits for one of greater rank

  predicate EventAttached(s: State, q: nat) {
    exists e | e in s.attached :: e.Event? && e.manager == q
  }

  function Rank(s: State, t: Thread): nat {
    match t
    case Waiter =>
      (match s.pc
       case Attaching(_) => 3
       case Checked(_) => 5
       case Reading(_) => 5
       case _ => 0)
    case Notifier(k) =>
      if k >= |s.notifiers| then 0 else
      var n := s.notifiers[k];
      match n.pc
      case AtCondition(_) => 2
      case Written(_) => if n.outer.None? then 0 else if EventAttached(s, n.outer.value) then 1 else 4
      case Start(_) => if n.outer.None? then 0 else 5
      case Idle => 0
      case _ => 5
  }

  lemma AttachedDoesNotConflict(s: State, e: Entity)
    requires AttachedWell(s) && s.pc.Attaching? && s.pc.i < |s.entries| && Independent(s.entries)
    requires e in s.attached
    ensures !Conflict(e, s.entries[s.pc.i])
  {
    var es := s.entries[..s.pc.i];
    var i :| 0 <= i < |es| && es[i] == e;
    assert s.entries[i] == e;
  }

  lemma WaiterBlockerRanksHigher(s: State)
    requires Inv(s) && Independent(s.entries) && Blocked(s, Waiter)
    ensures Rank(s, Blocker(s, Waiter)) > Rank(s, Waiter)
  {
    var m := Wants(s, Waiter).value;
    var u := Blocker(s, Waiter);
    assert Holds(s, u, m);
    assert u.Notifier?;
    var n := s.notifiers[u.k];
    assert NotifierShape(n);
    if s.pc.Attaching? {
      if n.pc.AtCondition? {
        AttachedDoesNotConflict(s, n.pc.e);
      } else if n.pc.Written? && n.outer.Some? {
        forall e | e in s.attached ensures !Conflict(e, s.entries[s.pc.i]) { AttachedDoesNotConflict(s, e); }
      }
    }
  }

  lemma NotifierBlockerRanksHigher(s: State, k: nat)
    requires Inv(s) && Blocked(s, Notifier(k))
    ensures Rank(s, Blocker(s, Notifier(k))) > Rank(s, Notifier(k))
  {
    var m := Wants(s, Notifier(k)).value;
    var u := Blocker(s, Notifier(k));
    assert Holds(s, u, m);
    assert NotifierShape(s.notifiers[k]);
    if u.Notifier? {
      var n := s.notifiers[u.k];
      assert NotifierShape(n);
      if n.pc.AtCondition? {
        assert n.pc.e in s.attached;
      }
    }
  }

  lemma BlockerRanksHigher(s: State, t: Thread)
    requires Inv(s) && Independent(s.entries) && Blocked(s, t)
    ensures Rank(s, Blocker(s, t)) > Rank(s, t)
  {
    match t
    case Waiter => WaiterBlockerRanksHigher(s);
    case Notifier(k) => NotifierBlockerRanksHigher(s, k);
  }

  lemma {:induction false} RanksBounded(s: State, group: set<Thread>, bound: nat)
    requires Inv(s) && Independent(s.entries) && ClosedGroup(s, group) && bound <= 5
    ensures forall t | t in group :: Rank(s, t) <= bound
    decreases 5 - bound
  {
    if bound < 5 {
      RanksBounded(s, group, bound + 1);
      forall t | t in group ensures Rank(s, t) <= bound { BlockerRanksHigher(s, t); }
    }
  }

  lemma NoDeadlock(s: State)
    requires Inv(s) && Independent(s.entries)
    ensures !Deadlocked(s)
  {
    if Deadlocked(s) {
      var group :| ClosedGroup(s, group);
      RanksBounded(s, group, 0);
      var t :| t in group;
      BlockerRanksHigher(s, t);
    }
  }

  predicate Active(s: State, t: Thread) {
    match t
    case Waiter => s.pc != Outside && s.pc != Asleep(false)
    case Notifier(k) => k < |s.notifiers| && !s.notifiers[k].pc.Idle?
  }

  predicate ContinuesCall(a: Action) {
    !a.Enter? && !a.Spawn? && !a.Take? && !a.TimeUp?
  }

  lemma UnblockedCanStep(s: State, t: Thread) returns (a: Action)
    requires Inv(s) && Active(s, t) && !Blocked(s, t)
    ensures ContinuesCall(a) && Enabled(s, a)
  {
    match t {
      case Waiter =>
        match s.pc {
          case Entering => a := LockCondition;
          case Attaching(i) => a := if i < |s.entries| then Check else FinishAttach;
          case Checked(_) => a := Attach;
          case Asleep(_) => a := Wake;
          case Detaching(i) => a := if i < |s.entries| then Detach else Return;
          case _ => a := Read;
        }
      case Notifier(k) =>
        assert NotifierShape(s.notifiers[k]);
        match s.notifiers[k].pc {
          case Start(e) => a := if e.Event? then WriteEvent(k) else LockEntity(k, false);
          case Written(_) => a := LockEvent(k);
          case Inspecting(_) => a := Inspect(k);
          case AtCondition(_) => a := Signal(k);
          case _ => a := Release(k);
        }
    }
  }

  /** As long as some call is under way and not waiting for data, some step that continues a call is possible. */
  lemma Progress(s: State, t: Thread) returns (a: Action)
    requires Inv(s) && Independent(s.entries) && Active(s, t)
    ensures ContinuesCall(a) && Enabled(s, a)
    decreases 5 - Rank(s, t)
  {
    if Blocked(s, t) {
      BlockerRanksHigher(s, t);
      var u := Blocker(s, t);
      assert Holds(s, u, Wants(s, t).value);
      if u.Notifier? { assert NotifierShape(s.notifiers[u.k]); }
      a := Progress(s, u);
    } else {
      a := UnblockedCanStep(s, t);
    }
  }

  // ----- conflicting wait sets: a run into a deadlock

  function AttachingState(es: seq<Entity>, j: nat, notifiers: seq<NotifierState>): State
    requires j <= |es|
  {
    State(map[Condition := Waiter], {}, Entries(es[..j]), false, Attaching(j), es, Never, [], notifiers)
  }

  const IDLE := NotifierState(Idle, None)

  ghost predicate ReachableFrom(s: State, t: State) {
    exists acts :: ValidRun(s, acts) && Final(s, acts) == t
  }

  lemma Reflexive(s: State)
    ensures ReachableFrom(s, s)
  {
    assert ValidRun(s, []) && Final(s, []) == s;
  }

  lemma OneMore(s: State, t: State, a: Action, u: State)
    requires ReachableFrom(s, t) && Enabled(t, a) && Step(t, a) == u
    ensures ReachableFrom(s, u)
  {
    var acts :| ValidRun(s, acts) && Final(s, acts) == t;
    assert [a][1..] == [] && ValidRun(u, [][..]) && ValidRun(t, [a]) && Final(t, [a]) == u;
    RunAppend(s, acts, [a]);
  }

  lemma {:induction false} AttachUpTo(es: seq<Entity>, j: nat)
    requires j <= |es|
    ensures ReachableFrom(Init(2), AttachingState(es, j, [IDLE, IDLE]))
  {
    var s := Init(2);
    if j == 0 {
      Reflexive(s);
      var t := s.(pc := Entering, entries := es);
      OneMore(s, s, Enter(es, Never), t);
      EntriesPrefix(es, 0);
      OneMore(s, t, LockCondition, AttachingState(es, 0, [IDLE, IDLE]));
    } else {
      AttachUpTo(es, j - 1);
      var t := AttachingState(es, j - 1, [IDLE, IDLE]);
      var m := MutexOf(es[j - 1]);
      var u := t.(locks := map[Condition := Waiter, m := Waiter], pc := Checked(j - 1));
      OneMore(s, t, Check, u);
      EntriesSnoc(es, j - 1);
      var v := AttachingState(es, j, [IDLE, IDLE]);
      assert u.locks - {m} == v.locks;
      OneMore(s, u, Attach, v);
    }
  }

  /** Notifier 0 publishes an attached entity and stops at the condition mutex, holding the entity's mutex. */
  lemma NotifyUpToCondition(es: seq<Entity>, j: nat, e: Entity)
    requires j <= |es| && e in Entries(es[..j])
    ensures ReachableFrom(Init(2), AtConditionState(es, j, e))
  {
    var s := Init(2);
    AttachUpTo(es, j);
    var t := AttachingState(es, j, [IDLE, IDLE]);
    var started := t.(notifiers := [NotifierState(Start(e), None), IDLE]);
    OneMore(s, t, Spawn(0, e), started);
    var locked := started.(
      locks := map[Condition := Waiter, MutexOf(e) := Notifier(0)],
      ready := {e},
      notifiers := [NotifierState(Inspecting(e), None), IDLE]);
    if e.Event? {
      var written := started.(ready := {e}, notifiers := [NotifierState(Written(e), None), IDLE]);
      OneMore(s, started, WriteEvent(0), written);
      OneMore(s, written, LockEvent(0), locked);
    } else {
      OneMore(s, started, LockEntity(0, false), locked);
    }
    OneMore(s, locked, Inspect(0), AtConditionState(es, j, e));
  }

  function AtConditionState(es: seq<Entity>, j: nat, e: Entity): State
    requires j <= |es|
  {
    AttachingState(es, j, [NotifierState(AtCondition(e), None), IDLE]).(
      locks := map[Condition := Waiter, MutexOf(e) := Notifier(0)],
      ready := {e})
  }

  lemma SharedMutexDeadlocks(es: seq<Entity>, i: nat, j: nat)
    requires i < j < |es| && MutexOf(es[i]) == MutexOf(es[j])
    ensures Deadlocked(AtConditionState(es, j, es[i]))
  {
    var s := AtConditionState(es, j, es[i]);
    assert Wants(s, Notifier(0)) == Some(Condition);
    assert ClosedGroup(s, {Waiter, Notifier(0)});
  }

  /** Notifier 1 has locked the subscription and is reporting a lost message to its events manager. */
  function LostMessageState(es: seq<Entity>, j: nat, e: Entity): State
    requires j <= |es| && e.Event?
  {
    var s := AtConditionState(es, j, e);
    var lost := Event(e.manager, MESSAGE_LOST);
    s.(locks := s.locks[QueueMutex(e.manager) := Notifier(1)],
       ready := {e, lost},
       notifiers := [s.notifiers[0], NotifierState(Written(lost), Some(e.manager))])
  }

  lemma OwnEventDeadlocks(es: seq<Entity>, i: nat, j: nat)
    requires i < j < |es| && es[i].Event? && es[j] == Queue(es[i].manager)
    requires es[i] in Entries(es[..j])
    ensures ReachableFrom(Init(2), LostMessageState(es, j, es[i]))
    ensures Deadlocked(LostMessageState(es, j, es[i]))
  {
    var e := es[i];
    var q := e.manager;
    NotifyUpToCondition(es, j, e);
    var s := AtConditionState(es, j, e);
    var end := LostMessageState(es, j, e);
    var lost := Event(q, MESSAGE_LOST);
    var started := s.(notifiers := [s.notifiers[0], NotifierState(Start(Queue(q)), None)]);
    OneMore(Init(2), s, Spawn(1, Queue(q)), started);
    var locked := started.(
      locks := end.locks, notifiers := [s.notifiers[0], NotifierState(Start(lost), Some(q))]);
    OneMore(Init(2), started, LockEntity(1, true), locked);
    OneMore(Init(2), locked, WriteEvent(1), end);
    assert Wants(end, Waiter) == Some(QueueMutex(q)) && Blocker(end, Waiter) == Notifier(1);
    assert Wants(end, Notifier(1)) == Some(EventConditionMutex(q)) && Blocker(end, Notifier(1)) == Notifier(0);
    assert Wants(end, Notifier(0)) == Some(Condition) && Blocker(end, Notifier(0)) == Waiter;
    assert ClosedGroup(end, {Waiter, Notifier(0), Notifier(1)});
  }

  /** A wait set can deadlock exactly when two of its slots conflict. */
  lemma DeadlockIff(es: seq<Entity>)
    ensures (exists s :: Reachable(s) && s.entries == es && Deadlocked(s)) <==> !Independent(es)
  {
    if Independent(es) {
      forall s | Reachable(s) && s.entries == es ensures !Deadlocked(s) {
        ReachableInv(s);
        NoDeadlock(s);
      }
    } else {
      var i, j :| 0 <= i < j < |es| && Conflict(es[i], es[j]);
      assert es[..j][i] == es[i];
      var s;
      if MutexOf(es[i]) == MutexOf(es[j]) {
        s := AtConditionState(es, j, es[i]);
        NotifyUpToCondition(es, j, es[i]);
        SharedMutexDeadlocks(es, i, j);
      } else {
        s := LostMessageState(es, j, es[i]);
        OwnEventDeadlocks(es, i, j);
      }
      assert s.entries == es;
      var acts :| ValidRun(Init(2), acts) && Final(Init(2), acts) == s;
      assert Reachable(s);
    }
  }
}

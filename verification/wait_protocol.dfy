/**
 The protocol between `rmw_wait` and the threads that make an entity ready, as an interleaving step system:
 one waiter with one wait set, any number of entities, any number of notifier threads.

 A step is one critical section, or the part of one between two blocking points. Memory is sequentially
 consistent. `ready` stands for `has_triggered_`, for a non-empty queue and for `changed`; `attached` for a
 non-null `wait_set_data_`. The `event_mutex_` of an events manager guards single accesses to `changed` and
 is never held while blocking, so those accesses are plain steps that need no mutex of the wait protocol.
 */
module WaitProtocol {
  import opened EventIds
  import opened Options

  /** Subscription `q` owns the events manager `q`; publishers own managers whose number is no queue's. */
  datatype Entity = Guard(g: nat) | Queue(q: nat) | Event(manager: nat, event: nat)

  datatype Mutex = Condition | GuardMutex(g: nat) | QueueMutex(q: nat) | EventConditionMutex(manager: nat)

  datatype Thread = Waiter | Notifier(k: nat)

  function MutexOf(e: Entity): Mutex {
    match e
    case Guard(g) => GuardMutex(g)
    case Queue(q) => QueueMutex(q)
    case Event(m, _) => EventConditionMutex(m)
  }

  datatype NotifierPc =
    | Idle
    | Start(e: Entity)        // about to notify e
    | Written(e: Entity)      // event status written, condition mutex of the manager not yet taken
    | Inspecting(e: Entity)   // data written, mutex of e held, about to look at the wait set pointer
    | AtCondition(e: Entity)  // saw a wait set, about to take its mutex
    | Finishing(e: Entity)    // about to release the mutex of e

  /** `outer` is the subscription whose mutex is held while it notifies its message-lost event, on a gap in the
      sequence numbers. */
  datatype NotifierState = NotifierState(pc: NotifierPc, outer: Option<nat>)

  datatype WaiterPc =
    | Outside
    | Entering
    | Attaching(i: nat)       // holds the condition mutex, slots below i attached
    | Checked(i: nat)         // also holds the mutex of slot i, whose entity had no data when read
    | Asleep(notified: bool)  // inside the condition variable
    | Detaching(i: nat)
    | Reading(i: nat)         // slot i detached, its mutex held, data flag not yet read

  datatype Timeout = Never | Zero | Finite

  datatype State = State(
    locks: map<Mutex, Thread>,
    ready: set<Entity>,
    attached: set<Entity>,
    triggered: bool,
    pc: WaiterPc,
    entries: seq<Entity>,
    timeout: Timeout,
    slots: seq<bool>,         // for each slot already read: did it stay non-null
    notifiers: seq<NotifierState>)

  datatype Action =
    | Enter(entries: seq<Entity>, timeout: Timeout)
    | LockCondition
    | Check
    | Attach
    | FinishAttach
    | Wake
    | TimeUp
    | Detach
    | Read
    | Return
    | Spawn(k: nat, e: Entity)
    | LockEntity(k: nat, lost: bool)
    | WriteEvent(k: nat)
    | LockEvent(k: nat)
    | Inspect(k: nat)
    | Signal(k: nat)
    | Release(k: nat)
    | Take(e: Entity)

  function Init(n: nat): State {
    State(map[], {}, {}, false, Outside, [], Never, [], seq(n, _ => NotifierState(Idle, None)))
  }

  predicate Free(s: State, m: Mutex) {
    m !in s.locks
  }

  predicate NotifierAt(s: State, k: nat) {
    k < |s.notifiers|
  }

  predicate Enabled(s: State, a: Action) {
    match a
    case Enter(_, _) => s.pc == Outside
    case LockCondition => s.pc == Entering && Free(s, Condition)
    case Check => s.pc.Attaching? && s.pc.i < |s.entries| && Free(s, MutexOf(s.entries[s.pc.i]))
    case Attach => s.pc.Checked? && s.pc.i < |s.entries|
    case FinishAttach => s.pc.Attaching? && s.pc.i == |s.entries|
    case Wake => s.pc.Asleep? && Free(s, Condition)
    case TimeUp => s.pc.Asleep? && s.timeout == Finite && Free(s, Condition)
    case Detach => s.pc.Detaching? && s.pc.i < |s.entries| && Free(s, MutexOf(s.entries[s.pc.i]))
    case Read => s.pc.Reading? && s.pc.i < |s.entries|
    case Return => s.pc.Detaching? && s.pc.i == |s.entries|
    case Spawn(k, _) => NotifierAt(s, k) && s.notifiers[k].pc.Idle?
    case LockEntity(k, lost) =>
      NotifierAt(s, k) && s.notifiers[k].pc.Start? && !s.notifiers[k].pc.e.Event?
      && (lost ==> s.notifiers[k].pc.e.Queue?) && Free(s, MutexOf(s.notifiers[k].pc.e))
    case WriteEvent(k) => NotifierAt(s, k) && s.notifiers[k].pc.Start? && s.notifiers[k].pc.e.Event?
    case LockEvent(k) => NotifierAt(s, k) && s.notifiers[k].pc.Written? && Free(s, MutexOf(s.notifiers[k].pc.e))
    case Inspect(k) => NotifierAt(s, k) && s.notifiers[k].pc.Inspecting?
    case Signal(k) => NotifierAt(s, k) && s.notifiers[k].pc.AtCondition? && Free(s, Condition)
    case Release(k) => NotifierAt(s, k) && s.notifiers[k].pc.Finishing?
    case Take(e) => !e.Guard? && (e.Queue? ==> Free(s, QueueMutex(e.q)))
  }

  function Acquire(s: State, m: Mutex, t: Thread): State {
    s.(locks := s.locks[m := t])
  }

  function Unlock(s: State, m: Mutex): State {
    s.(locks := s.locks - {m})
  }

  function SetNotifier(s: State, k: nat, pc: NotifierPc, outer: Option<nat>): State
    requires NotifierAt(s, k)
  {
    s.(notifiers := s.notifiers[k := NotifierState(pc, outer)])
  }

  function MarkReady(s: State, e: Entity): State {
    s.(ready := s.ready + {e})
  }

  /** The waiter's own code: `check_and_attach_condition` and `rmw_wait`. */
  function WaiterStep(s: State, a: Action): State
    requires Enabled(s, a)
  {
    match a
    case Enter(entries, timeout) =>
      s.(pc := Entering, entries := entries, timeout := timeout, slots := [])
    case LockCondition =>
      Acquire(s, Condition, Waiter).(pc := Attaching(0))
    case Check =>
      var e := s.entries[s.pc.i];
      if e in s.ready
      then Unlock(s, Condition).(pc := Detaching(0))
      else Acquire(s, MutexOf(e), Waiter).(pc := Checked(s.pc.i))
    case Attach =>
      var e := s.entries[s.pc.i];
      Unlock(s, MutexOf(e)).(attached := s.attached + {e}, pc := Attaching(s.pc.i + 1))
    case FinishAttach =>
      Unlock(s, Condition).(triggered := false, pc := if s.timeout == Zero then Detaching(0) else Asleep(false))
    case Wake =>
      if s.triggered then s.(triggered := false, pc := Detaching(0)) else s.(pc := Asleep(false))
    case TimeUp =>
      s.(triggered := false, pc := Detaching(0))
    case Detach =>
      var e := s.entries[s.pc.i];
      Acquire(s, MutexOf(e), Waiter).(attached := s.attached - {e}, pc := Reading(s.pc.i))
    case Read =>
      var e := s.entries[s.pc.i];
      Unlock(s, MutexOf(e)).(
        slots := s.slots + [e in s.ready],
        ready := if e.Guard? then s.ready - {e} else s.ready,
        pc := Detaching(s.pc.i + 1))
    case Return =>
      s.(pc := Outside)
    case _ => s
  }

  /** The notifiers: `GuardCondition::trigger`, the `add_new_*` methods and `update_event_status`. */
  function NotifierStep(s: State, a: Action): State
    requires Enabled(s, a)
  {
    match a
    case Spawn(k, e) =>
      SetNotifier(s, k, Start(e), None)
    case LockEntity(k, lost) =>
      var e := s.notifiers[k].pc.e;
      var t := Acquire(s, MutexOf(e), Notifier(k));
      if lost
      then SetNotifier(t, k, Start(Event(e.q, MESSAGE_LOST)), Some(e.q))
      else SetNotifier(MarkReady(t, e), k, Inspecting(e), None)
    case WriteEvent(k) =>
      var n := s.notifiers[k];
      SetNotifier(MarkReady(s, n.pc.e), k, Written(n.pc.e), n.outer)
    case LockEvent(k) =>
      var n := s.notifiers[k];
      SetNotifier(Acquire(s, MutexOf(n.pc.e), Notifier(k)), k, Inspecting(n.pc.e), n.outer)
    case Inspect(k) =>
      var n := s.notifiers[k];
      SetNotifier(s, k, if n.pc.e in s.attached then AtCondition(n.pc.e) else Finishing(n.pc.e), n.outer)
    case Signal(k) =>
      var n := s.notifiers[k];
      SetNotifier(s, k, Finishing(n.pc.e), n.outer).(
        triggered := true,
        pc := if s.pc.Asleep? then Asleep(true) else s.pc)
    case Release(k) =>
      var n := s.notifiers[k];
      var t := Unlock(s, MutexOf(n.pc.e));
      if n.outer.None?
      then SetNotifier(t, k, Idle, None)
      else SetNotifier(MarkReady(t, Queue(n.outer.value)), k, Inspecting(Queue(n.outer.value)), None)
    case Take(e) => s.(ready := s.ready - {e})
    case _ => s
  }

  predicate IsWaiterAction(a: Action) {
    a.Enter? || a.LockCondition? || a.Check? || a.Attach? || a.FinishAttach? || a.Wake? || a.TimeUp?
    || a.Detach? || a.Read? || a.Return?
  }

  function Step(s: State, a: Action): State
    requires Enabled(s, a)
  {
    if IsWaiterAction(a) then WaiterStep(s, a) else NotifierStep(s, a)
  }

  // ----- runs

  predicate ValidRun(s: State, acts: seq<Action>)
    decreases acts
  {
    acts == [] || (Enabled(s, acts[0]) && ValidRun(Step(s, acts[0]), acts[1..]))
  }

  function Final(s: State, acts: seq<Action>): State
    requires ValidRun(s, acts)
    decreases acts
  {
    if acts == [] then s else Final(Step(s, acts[0]), acts[1..])
  }

  ghost predicate Reachable(s: State) {
    exists n: nat, acts :: ValidRun(Init(n), acts) && Final(Init(n), acts) == s
  }

  lemma {:induction false} RunAppend(s: State, a: seq<Action>, b: seq<Action>)
    requires ValidRun(s, a) && ValidRun(Final(s, a), b)
    ensures ValidRun(s, a + b) && Final(s, a + b) == Final(Final(s, a), b)
    decreases a
  {
    if a == [] {
      assert a + b == b;
    } else {
      RunAppend(Step(s, a[0]), a[1..], b);
      assert (a + b)[1..] == a[1..] + b;
    }
  }
}

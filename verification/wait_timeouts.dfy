/** What the timeout of a call of `rmw_wait` decides: whether it sleeps, and whether it ends without being told. */
module WaitTimeouts {
  import opened WaitProtocol
  import opened WaitSafety
  import opened WaitResults
  import opened WaitDeadlock
  import opened UntimedWaits

  // ----- a timeout of zero does not sleep

  predicate AwakeIfZero(s: State) {
    s.timeout == Zero ==> !s.pc.Asleep?
  }

  lemma {:induction false} RunKeepsAwake(s: State, acts: seq<Action>)
    requires AwakeIfZero(s) && ValidRun(s, acts)
    ensures AwakeIfZero(Final(s, acts))
    decreases acts
  {
    if acts != [] {
      RunKeepsAwake(Step(s, acts[0]), acts[1..]);
    }
  }

  lemma ZeroIsAwake(s: State)
    requires Reachable(s) && s.timeout == Zero
    ensures !s.pc.Asleep?
  {
    var n: nat, acts :| ValidRun(Init(n), acts) && Final(Init(n), acts) == s;
    RunKeepsAwake(Init(n), acts);
  }

  lemma {:induction false} CallKeepsItsArguments(s: State, acts: seq<Action>)
    requires ValidRun(s, acts) && NoEnter(acts)
    ensures Final(s, acts).timeout == s.timeout && Final(s, acts).entries == s.entries
    decreases acts
  {
    if acts != [] {
      CallKeepsItsArguments(Step(s, acts[0]), acts[1..]);
    }
  }

  /** A call entered with a timeout of zero is never asleep, whatever the other threads do. */
  lemma ZeroCallNeverSleeps(s: State, es: seq<Entity>, acts: seq<Action>)
    requires Enabled(s, Enter(es, Zero)) && ValidRun(Step(s, Enter(es, Zero)), acts) && NoEnter(acts)
    ensures !Final(Step(s, Enter(es, Zero)), acts).pc.Asleep?
  {
    RunKeepsAwake(Step(s, Enter(es, Zero)), acts);
    CallKeepsItsArguments(Step(s, Enter(es, Zero)), acts);
  }

  // ----- a call makes a bounded number of steps

  /** How many steps of its own the waiter has before it at most, spurious wake-ups apart. */
  function Left(s: State): nat
    requires WaiterShape(s)
  {
    var n := |s.entries|;
    match s.pc
    case Outside => 0
    case Entering => 4 * n + 4
    case Attaching(i) => 2 * (n - i) + 2 * n + 3
    case Checked(i) => 2 * (n - i) + 2 * n + 2
    case Asleep(_) => 2 * n + 2
    case Detaching(i) => 2 * (n - i) + 1
    case Reading(i) => 2 * (n - i)
  }

  function WaiterSteps(acts: seq<Action>): nat
    decreases acts
  {
    if acts == [] then 0 else (if IsWaiterAction(acts[0]) then 1 else 0) + WaiterSteps(acts[1..])
  }

  lemma WaiterStepCounts(s: State, a: Action)
    requires Inv(s) && Enabled(s, a) && !a.Enter?
    ensures WaiterShape(Step(s, a)) && Left(Step(s, a)) <= Left(s)
    ensures IsWaiterAction(a) && !(a.Wake? && !s.triggered) ==> Left(Step(s, a)) < Left(s)
  {
    StepInv(s, a);
  }

  /** A call with a timeout of zero returns after a number of its own steps that its wait set bounds, however they
      interleave with those of other threads. */
  lemma {:induction false} ZeroCallBounded(s: State, acts: seq<Action>)
    requires Inv(s) && s.timeout == Zero && !s.pc.Asleep? && ValidRun(s, acts) && NoEnter(acts)
    ensures WaiterShape(Final(s, acts)) && WaiterSteps(acts) + Left(Final(s, acts)) <= Left(s)
    decreases acts
  {
    if acts != [] {
      StepInv(s, acts[0]);
      WaiterStepCounts(s, acts[0]);
      RunKeepsAwake(s, [acts[0]]);
      ZeroCallBounded(Step(s, acts[0]), acts[1..]);
    }
  }

  /** And it can always make its next step, unless another thread holds the mutex it wants. */
  lemma ZeroCallGoesOn(s: State) returns (a: Action)
    requires Inv(s) && s.timeout == Zero && !s.pc.Asleep? && s.pc != Outside
    ensures if Blocked(s, Waiter) then Blocker(s, Waiter).Notifier? else IsWaiterAction(a) && !a.Enter? && Enabled(s, a)
  {
    if Blocked(s, Waiter) {
      assert Holds(s, Blocker(s, Waiter), Wants(s, Waiter).value);
      a := LockCondition;
    } else {
      a := NextOfWaiter(s);
    }
  }

  lemma NextOfWaiter(s: State) returns (a: Action)
    requires Inv(s) && s.pc != Outside && !s.pc.Asleep? && !Blocked(s, Waiter)
    ensures IsWaiterAction(a) && !a.Enter? && !a.Wake? && !a.TimeUp? && Enabled(s, a)
  {
    match s.pc {
      case Entering => a := LockCondition;
      case Attaching(i) => a := if i < |s.entries| then Check else FinishAttach;
      case Checked(_) => a := Attach;
      case Detaching(i) => a := if i < |s.entries| then Detach else Return;
      case _ => a := Read;
    }
  }

  // ----- with a timeout a call ends without being told

  /** A sleeping call with a finite timeout may time out at any moment. */
  lemma FiniteSleepEnds(s: State)
    requires Inv(s) && s.pc.Asleep? && s.timeout == Finite
    ensures Enabled(s, TimeUp) && !Step(s, TimeUp).pc.Asleep?
  {
    ConditionFree(s);
  }

  predicate OnlyWaiter(acts: seq<Action>) {
    forall i | 0 <= i < |acts| :: IsWaiterAction(acts[i]) && !acts[i].Enter?
  }

  /** The waiter alone can take the call to its end. */
  ghost predicate ReturnsAlone(s: State) {
    exists acts :: OnlyWaiter(acts) && ValidRun(s, acts) && Final(s, acts).pc == Outside
  }

  lemma FirstAlone(s: State, a: Action)
    requires Enabled(s, a) && IsWaiterAction(a) && !a.Enter? && ReturnsAlone(Step(s, a))
    ensures ReturnsAlone(s)
  {
    var acts :| OnlyWaiter(acts) && ValidRun(Step(s, a), acts) && Final(Step(s, a), acts).pc == Outside;
    RunCons(s, a, acts);
    assert forall i | 0 < i < |[a] + acts| :: ([a] + acts)[i] == acts[i - 1];
    assert OnlyWaiter([a] + acts);
  }

  lemma WayFreeUnblocked(s: State)
    requires Inv(s) && WayFree(s) && !s.pc.Asleep?
    ensures !Blocked(s, Waiter)
  {
    match s.pc {
      case Entering => ConditionFree(s);
      case Attaching(i) => if i < |s.entries| { MutexFree(s, i); }
      case Detaching(i) => if i < |s.entries| { MutexFree(s, i); }
      case _ =>
    }
  }

  /** A call with a timeout, zero or not, comes to its end by its own steps, sleeping or not, when no notifier stands
      in the way. */
  lemma {:induction false} TimedCallReturns(s: State)
    requires Inv(s) && WayFree(s) && s.timeout != Never && AwakeIfZero(s)
    ensures ReturnsAlone(s)
    decreases Left(s)
  {
    if s.pc == Outside {
      assert OnlyWaiter([]) && ValidRun(s, []) && Final(s, []) == s;
    } else {
      var a;
      if s.pc.Asleep? {
        FiniteSleepEnds(s);
        a := TimeUp;
      } else {
        WayFreeUnblocked(s);
        a := NextOfWaiter(s);
      }
      StepInv(s, a);
      WaiterStepCounts(s, a);
      RunKeepsAwake(s, [a]);
      TimedCallReturns(Step(s, a));
      FirstAlone(s, a);
    }
  }

  // ----- without one it waits to be told

  predicate NoSignals(acts: seq<Action>) {
    forall i | 0 <= i < |acts| :: !acts[i].Signal?
  }

  /** A sleeping call without timeout sleeps until a notifier signals. */
  lemma {:induction false} UntimedSleepsOn(s: State, acts: seq<Action>)
    requires s.pc.Asleep? && !s.triggered && s.timeout == Never
    requires ValidRun(s, acts) && NoSignals(acts)
    ensures Final(s, acts).pc.Asleep? && !Final(s, acts).triggered
    decreases acts
  {
    if acts != [] {
      UntimedSleepsOn(Step(s, acts[0]), acts[1..]);
    }
  }
}

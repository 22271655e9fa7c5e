/**
 `wait_for_state` against the reader thread, step by step: the reader writes the cache and then
 notifies the bus; a waiter subscribes, checks the cache, and then waits for its event.
 */
module Wakeups {
  import opened Options
  import opened Properties
  import opened UpdateBus

  /** Where a call of `wait_for_state` is. */
  datatype Phase = Entered | Subscribed | Waiting | Leaving(success: bool) | Returned(success: bool)

  datatype Waiter = Waiter(key: Key, target: State, phase: Phase, matched: bool)

  /** The reader thread: idle, between cache write and notify, or part of the way through the fan-out. */
  datatype Reader = Resting | Written(key: Key, state: State) | Notifying(key: Key, state: State, todo: seq<nat>)

  /** silent: the properties whose cached state was last written without a notification to follow. */
  datatype System = System(
    cache: map<Key, State>, silent: set<Key>, reader: Reader, waiters: map<nat, Waiter>, subscribers: seq<nat>)

  datatype Step =
    | Enter(id: nat, key: Key, target: State)
    | Subscribe(id: nat)
    | Check(id: nat)
    | Wake(id: nat)
    | GiveUp(id: nat)                                  // deadline, cancellation or immediate pause
    | Leave(id: nat)                                   // the finally clause
    | WriteUpdate(key: Key, state: State, cached: bool)  // updateProperty; not cached if the device is not
    | WriteSilently(key: Key, state: State)            // a first definition, or BLOB data
    | Forget(keys: set<Key>)                           // delDevice, or connectServer
    | TakeSnapshot
    | CallNext
    | Finish

  predicate InPhase(s: System, id: nat, phase: Phase) {
    id in s.waiters && s.waiters[id].phase == phase
  }

  function Move(s: System, id: nat, phase: Phase): System
    requires id in s.waiters
  {
    s.(waiters := s.waiters[id := s.waiters[id].(phase := phase)])
  }

  predicate Holds(s: System, key: Key, state: State) {
    key in s.cache && s.cache[key] == state
  }

  predicate Enabled(s: System, step: Step) {
    match step
    case Enter(id, _, _) => id !in s.waiters
    case Subscribe(id) => InPhase(s, id, Entered)
    case Check(id) => InPhase(s, id, Subscribed)
    case Wake(id) => InPhase(s, id, Waiting) && s.waiters[id].matched
    case GiveUp(id) => InPhase(s, id, Waiting)
    case Leave(id) => id in s.waiters && s.waiters[id].phase.Leaving?
    case WriteUpdate(_, _, _) => s.reader.Resting?
    case WriteSilently(_, _) => s.reader.Resting?
    case Forget(_) => true
    case TakeSnapshot => s.reader.Written?
    case CallNext => s.reader.Notifying? && s.reader.todo != []
    case Finish => s.reader.Notifying? && s.reader.todo == []
  }

  /** One step; a step that is not enabled changes nothing. */
  function After(s: System, step: Step): System {
    if !Enabled(s, step) then s
    else
      match step
      case Enter(id, key, target) => s.(waiters := s.waiters[id := Waiter(key, target, Entered, false)])
      case Subscribe(id) => Move(s, id, Subscribed).(subscribers := s.subscribers + [id])
      case Check(id) =>
        Move(s, id, if Holds(s, s.waiters[id].key, s.waiters[id].target) then Leaving(true) else Waiting)
      case Wake(id) => Move(s, id, Leaving(true))
      case GiveUp(id) => Move(s, id, Leaving(false))
      case Leave(id) => Move(s, id, Returned(s.waiters[id].phase.success)).(subscribers := Without(s.subscribers, id))
      case WriteUpdate(key, state, cached) =>
        var s' := s.(reader := Written(key, state));
        if cached then s'.(cache := s.cache[key := state], silent := s.silent - {key}) else s'
      case WriteSilently(key, state) => s.(cache := s.cache[key := state], silent := s.silent + {key})
      case Forget(keys) => s.(cache := s.cache - keys)
      case TakeSnapshot =>
        s.(reader := Notifying(s.reader.key, s.reader.state, s.subscribers))
      case CallNext =>
        var id := s.reader.todo[0];
        var rest := s.(reader := Notifying(s.reader.key, s.reader.state, s.reader.todo[1..]));
        if id in s.waiters && Matches(s.waiters[id].key, s.waiters[id].target, s.reader.key, s.reader.state) then
          rest.(waiters := s.waiters[id := s.waiters[id].(matched := true)])
        else rest
      case Finish => s.(reader := Resting)
  }

  /** Nothing waits and nothing is being notified; the cache may hold anything. */
  predicate Initial(s: System) {
    s.reader == Resting && s.waiters == map[] && s.subscribers == []
  }

  function Run(s: System, steps: seq<Step>): System {
    if |steps| == 0 then s else After(Run(s, steps[..|steps| - 1]), steps[|steps| - 1])
  }

  // ---------- no lost wakeup ----------

  /** A notification of this waiter's target that will still reach it. */
  predicate Pending(s: System, id: nat)
    requires id in s.waiters
  {
    var w := s.waiters[id];
    match s.reader
    case Resting => false
    case Written(key, state) => key == w.key && state == w.target && id in s.subscribers
    case Notifying(key, state, todo) => key == w.key && state == w.target && id in todo
  }

  /** Past its check, with the cache at its target, but not woken and with nothing on the way. */
  predicate Stranded(s: System, id: nat) {
    InPhase(s, id, Waiting) && Holds(s, s.waiters[id].key, s.waiters[id].target) && !s.waiters[id].matched && !Pending(s, id)
  }

  predicate Active(phase: Phase) {
    phase.Subscribed? || phase.Waiting?
  }

  predicate SubscribersOk(s: System) {
    && (forall i, j :: 0 <= i < j < |s.subscribers| ==> s.subscribers[i] != s.subscribers[j])
    && (forall id :: id in s.subscribers ==> id in s.waiters && (Active(s.waiters[id].phase) || s.waiters[id].phase.Leaving?))
    && (forall id :: id in s.waiters && Active(s.waiters[id].phase) ==> id in s.subscribers)
  }

  predicate NoneStranded(s: System) {
    forall id :: id in s.waiters && Stranded(s, id) ==> s.waiters[id].key in s.silent
  }

  /** The update being notified is one to this waiter's target. */
  predicate Concerns(s: System, id: nat)
    requires s.reader.Notifying? && id in s.waiters
  {
    s.waiters[id].key == s.reader.key && s.waiters[id].target == s.reader.state
  }

  lemma {:induction false} WithoutFacts(s: seq<nat>, x: nat)
    requires forall i, j :: 0 <= i < j < |s| ==> s[i] != s[j]
    ensures var r := Without(s, x);
            && (forall i, j :: 0 <= i < j < |r| ==> r[i] != r[j])
            && (forall y :: y in r <==> y in s && y != x)
  {
    if |s| == 0 {
    } else {
      var first, rest := s[0], s[1..];
      assert s == [first] + rest && first !in rest;
      if first != x {
        WithoutFacts(rest, x);
        var r := Without(rest, x);
        assert forall i :: 0 <= i < |r| ==> r[i] in r;
        assert Without(s, x) == [first] + r;
      }
    }
  }

  lemma LeavingKeepsSubscribers(s: System, leaver: nat)
    requires SubscribersOk(s)
    ensures SubscribersOk(After(s, Leave(leaver)))
  {
    WithoutFacts(s.subscribers, leaver);
  }

  lemma SubscribersStayOk(s: System, step: Step)
    requires SubscribersOk(s)
    ensures SubscribersOk(After(s, step))
  {
    if step.Leave? {
      LeavingKeepsSubscribers(s, step.id);
    }
  }

  /** Whoever is still to be called has entered. */
  predicate TodoOk(s: System) {
    s.reader.Notifying? ==> forall id :: id in s.reader.todo ==> id in s.waiters
  }

  predicate StrandedOnlySilently(s: System, id: nat) {
    id in s.waiters && Stranded(s, id) ==> s.waiters[id].key in s.silent
  }

  /** Steps of the reader, and of whoever empties the cache. */
  predicate CacheStep(step: Step) {
    step.WriteUpdate? || step.WriteSilently? || step.Forget? || step.TakeSnapshot? || step.CallNext? || step.Finish?
  }

  lemma CacheStepStrandsNone(s: System, step: Step, id: nat)
    requires SubscribersOk(s) && StrandedOnlySilently(s, id) && CacheStep(step)
    ensures StrandedOnlySilently(After(s, step), id)
  {
  }

  lemma LeavingStrandsNone(s: System, leaver: nat, id: nat)
    requires SubscribersOk(s) && StrandedOnlySilently(s, id)
    ensures StrandedOnlySilently(After(s, Leave(leaver)), id)
  {
    WithoutFacts(s.subscribers, leaver);
  }

  lemma WaiterStepStrandsNone(s: System, step: Step, id: nat)
    requires SubscribersOk(s) && StrandedOnlySilently(s, id) && !CacheStep(step) && !step.Leave?
    ensures StrandedOnlySilently(After(s, step), id)
  {
  }

  lemma WaitersStayUnstranded(s: System, step: Step)
    requires SubscribersOk(s) && NoneStranded(s)
    ensures NoneStranded(After(s, step))
  {
    var s' := After(s, step);
    forall id | id in s'.waiters && Stranded(s', id)
      ensures s'.waiters[id].key in s'.silent
    {
      assert StrandedOnlySilently(s, id);
      if CacheStep(step) {
        CacheStepStrandsNone(s, step, id);
      } else if step.Leave? {
        LeavingStrandsNone(s, step.id, id);
      } else {
        WaiterStepStrandsNone(s, step, id);
      }
    }
  }

  lemma TodoStaysOk(s: System, step: Step)
    requires SubscribersOk(s) && TodoOk(s)
    ensures TodoOk(After(s, step))
  {
  }

  predicate Inv(s: System) {
    SubscribersOk(s) && NoneStranded(s) && TodoOk(s)
  }

  lemma {:induction false} RunKeeps(s: System, steps: seq<Step>)
    requires Initial(s)
    ensures Inv(Run(s, steps))
  {
    if |steps| == 0 {
    } else {
      var before, step := Run(s, steps[..|steps| - 1]), steps[|steps| - 1];
      RunKeeps(s, steps[..|steps| - 1]);
      SubscribersStayOk(before, step);
      WaitersStayUnstranded(before, step);
      TodoStaysOk(before, step);
    }
  }

  /**
   No lost wakeup, over every interleaving: a waiter past its check whose target is in the cache has
   been woken, or a notification that will reach it is pending, unless the cache got there silently.
   */
  lemma {:induction false} NoLostWakeup(s: System, steps: seq<Step>, id: nat)
    requires Initial(s)
    requires InPhase(Run(s, steps), id, Waiting)
    requires var r := Run(s, steps); Holds(r, r.waiters[id].key, r.waiters[id].target) && r.waiters[id].key !in r.silent
    ensures var r := Run(s, steps); r.waiters[id].matched || Pending(r, id)
  {
    RunKeeps(s, steps);
    assert NoneStranded(Run(s, steps));
  }

  // ---------- no false success ----------

  /** At some step of the run, the waiter checked the cache and the target was there. */
  ghost predicate FoundTarget(s: System, steps: seq<Step>, id: nat, key: Key, target: State) {
    exists j :: 0 <= j < |steps| && steps[j] == Check(id) && Holds(Run(s, steps[..j]), key, target)
  }

  /** At some step of the run, an update to the target went out to subscribers that included the waiter. */
  ghost predicate HandedUpdate(s: System, steps: seq<Step>, id: nat, key: Key, target: State) {
    exists j :: 0 <= j < |steps| && steps[j] == TakeSnapshot
                && Run(s, steps[..j]).reader == Written(key, target) && id in Run(s, steps[..j]).subscribers
  }

  /** What must have happened to a waiter that is woken, succeeds, or is about to be called. */
  predicate Justified(s: System, id: nat, found: bool, handed: bool)
    requires id in s.waiters
  {
    var w := s.waiters[id];
    && (w.matched ==> handed)
    && (w.phase == Leaving(true) || w.phase == Returned(true) ==> found || handed)
    && (s.reader.Notifying? && id in s.reader.todo && Concerns(s, id) ==> handed)
  }

  lemma StepJustifies(s: System, step: Step, id: nat, found: bool, handed: bool)
    requires TodoOk(s) && id in After(s, step).waiters
    requires id in s.waiters ==> Justified(s, id, found, handed)
    ensures var s' := After(s, step);
            var key, target := s'.waiters[id].key, s'.waiters[id].target;
            Justified(s', id, found || (step == Check(id) && Holds(s, key, target)),
                      handed || (step == TakeSnapshot && s.reader == Written(key, target) && id in s.subscribers))
  {
  }

  lemma HistoryGrows(s: System, front: seq<Step>, step: Step, id: nat, key: Key, target: State)
    ensures FoundTarget(s, front, id, key, target) ==> FoundTarget(s, front + [step], id, key, target)
    ensures HandedUpdate(s, front, id, key, target) ==> HandedUpdate(s, front + [step], id, key, target)
    ensures step == Check(id) && Holds(Run(s, front), key, target) ==> FoundTarget(s, front + [step], id, key, target)
    ensures step == TakeSnapshot && Run(s, front).reader == Written(key, target) && id in Run(s, front).subscribers ==>
              HandedUpdate(s, front + [step], id, key, target)
  {
    var steps := front + [step];
    assert steps[..|front|] == front && steps[|front|] == step;
    assert forall j :: 0 <= j < |front| ==> steps[j] == front[j] && steps[..j] == front[..j];
  }

  lemma {:induction false} RunJustifies(s: System, steps: seq<Step>, id: nat)
    requires Initial(s) && id in Run(s, steps).waiters
    ensures var w := Run(s, steps).waiters[id];
            Justified(Run(s, steps), id, FoundTarget(s, steps, id, w.key, w.target), HandedUpdate(s, steps, id, w.key, w.target))
  {
    if |steps| == 0 {
    } else {
      var front, step := steps[..|steps| - 1], steps[|steps| - 1];
      var before, w := Run(s, front), Run(s, steps).waiters[id];
      assert front + [step] == steps;
      HistoryGrows(s, front, step, id, w.key, w.target);
      RunKeeps(s, front);
      if id in before.waiters {
        RunJustifies(s, front, id);
        StepKeepsAim(before, step, id);
      }
      StepJustifies(before, step, id, FoundTarget(s, front, id, w.key, w.target), HandedUpdate(s, front, id, w.key, w.target));
    }
  }

  lemma StepKeepsAim(s: System, step: Step, id: nat)
    requires id in s.waiters
    ensures var s' := After(s, step);
            id in s'.waiters && s'.waiters[id].key == s.waiters[id].key && s'.waiters[id].target == s.waiters[id].target
  {
  }

  /**
   No false success, over every interleaving: a waiter that succeeds found its target in the cache at
   its check, or was subscribed when an update to its target went out.
   */
  lemma {:induction false} SuccessIsReal(s: System, steps: seq<Step>, id: nat)
    requires Initial(s) && InPhase(Run(s, steps), id, Returned(true))
    ensures var w := Run(s, steps).waiters[id];
            FoundTarget(s, steps, id, w.key, w.target) || HandedUpdate(s, steps, id, w.key, w.target)
  {
    RunJustifies(s, steps, id);
  }

  // ---------- what is pending arrives ----------

  predicate WokenOrPending(s: System, id: nat) {
    id in s.waiters && (s.waiters[id].matched || Pending(s, id))
  }

  lemma LeavingKeepsPending(s: System, leaver: nat, id: nat)
    requires SubscribersOk(s) && WokenOrPending(s, id) && leaver != id
    ensures WokenOrPending(After(s, Leave(leaver)), id)
  {
    WithoutFacts(s.subscribers, leaver);
  }

  lemma StepKeepsPending(s: System, step: Step, id: nat)
    requires SubscribersOk(s) && WokenOrPending(s, id) && step != Leave(id)
    ensures WokenOrPending(After(s, step), id)
    ensures s.waiters[id].matched ==> After(s, step).waiters[id].matched
  {
    if step.Leave? {
      LeavingKeepsPending(s, step.id, id);
    } else if step.CallNext? && Enabled(s, step) {
      var todo := s.reader.todo;
      assert id in todo ==> id == todo[0] || id in todo[1..];
    }
  }

  /** The reader has been through with the notification at some point of the run. */
  ghost predicate HasRested(s: System, steps: seq<Step>) {
    exists j :: 0 <= j <= |steps| && Run(s, steps[..j]).reader == Resting
  }

  /**
   What is pending arrives, whatever other waiters do, whatever else the reader writes and whoever
   empties the cache meanwhile: until its waiter leaves, the notification stays pending or has woken it,
   and once the reader is through with it, it has.
   */
  lemma {:induction false} PendingArrives(s: System, steps: seq<Step>, id: nat)
    requires SubscribersOk(s) && WokenOrPending(s, id) && Leave(id) !in steps
    ensures SubscribersOk(Run(s, steps)) && WokenOrPending(Run(s, steps), id)
    ensures HasRested(s, steps) ==> Run(s, steps).waiters[id].matched
  {
    if |steps| == 0 {
      assert forall j :: 0 <= j <= |steps| ==> steps[..j] == steps;
    } else {
      var front, step := steps[..|steps| - 1], steps[|steps| - 1];
      PendingArrives(s, front, id);
      SubscribersStayOk(Run(s, front), step);
      StepKeepsPending(Run(s, front), step, id);
      if HasRested(s, steps) {
        var j :| 0 <= j <= |steps| && Run(s, steps[..j]).reader == Resting;
        assert if j == |steps| then steps[..j] == steps else steps[..j] == front[..j];
      }
    }
  }

  // ---------- no false failure ----------

  /** At some step of the run, the waiter gave up while it was waiting. */
  ghost predicate HasGivenUp(s: System, steps: seq<Step>, id: nat) {
    exists j :: 0 <= j < |steps| && steps[j] == GiveUp(id) && InPhase(Run(s, steps[..j]), id, Waiting)
  }

  lemma GivingUpIsRemembered(s: System, front: seq<Step>, step: Step, id: nat)
    ensures HasGivenUp(s, front, id) ==> HasGivenUp(s, front + [step], id)
    ensures step == GiveUp(id) && InPhase(Run(s, front), id, Waiting) ==> HasGivenUp(s, front + [step], id)
  {
    var steps := front + [step];
    assert steps[..|front|] == front && steps[|front|] == step;
    assert forall j :: 0 <= j < |front| ==> steps[j] == front[j] && steps[..j] == front[..j];
  }

  predicate Failed(s: System, id: nat) {
    InPhase(s, id, Leaving(false)) || InPhase(s, id, Returned(false))
  }

  lemma StepFails(s: System, step: Step, id: nat)
    requires Failed(After(s, step), id) && !Failed(s, id)
    ensures step == GiveUp(id) && InPhase(s, id, Waiting)
  {
  }

  /** A wait that returns False has given up while waiting: its deadline, a cancellation or a pause came first. */
  lemma {:induction false} FailureIsGivingUp(s: System, steps: seq<Step>, id: nat)
    requires Initial(s) && Failed(Run(s, steps), id)
    ensures HasGivenUp(s, steps, id)
  {
    if |steps| == 0 {
      assert false;
    } else {
      var front, step := steps[..|steps| - 1], steps[|steps| - 1];
      assert front + [step] == steps;
      GivingUpIsRemembered(s, front, step, id);
      if Failed(Run(s, front), id) {
        FailureIsGivingUp(s, front, id);
      } else {
        StepFails(Run(s, front), step, id);
      }
    }
  }

  /** Still waiting, with the notification pending or delivered; or successful. */
  predicate OnItsWay(s: System, id: nat) {
    (InPhase(s, id, Waiting) && WokenOrPending(s, id)) || InPhase(s, id, Leaving(true)) || InPhase(s, id, Returned(true))
  }

  lemma StepKeepsOnItsWay(s: System, step: Step, id: nat)
    requires SubscribersOk(s) && OnItsWay(s, id) && step != GiveUp(id)
    ensures OnItsWay(After(s, step), id)
  {
    if InPhase(s, id, Waiting) {
      if step == Leave(id) {
        assert After(s, step) == s;
      } else {
        StepKeepsPending(s, step, id);
      }
    }
  }

  /**
   A waiter whose notification is pending and that does not give up cannot fail: whatever else happens, it
   goes on waiting for what is pending or has woken it, or it succeeds; and once the reader has been at
   rest it has been woken, so that its next two steps return True.
   */
  lemma {:induction false} PatienceIsRewarded(s: System, steps: seq<Step>, id: nat)
    requires SubscribersOk(s) && OnItsWay(s, id) && GiveUp(id) !in steps
    ensures var r := Run(s, steps);
            && SubscribersOk(r) && OnItsWay(r, id)
            && (HasRested(s, steps) && InPhase(r, id, Waiting) ==>
                  r.waiters[id].matched && InPhase(Run(r, [Wake(id), Leave(id)]), id, Returned(true)))
  {
    if |steps| == 0 {
      assert forall j :: 0 <= j <= |steps| ==> steps[..j] == steps;
    } else {
      var front, step := steps[..|steps| - 1], steps[|steps| - 1];
      PatienceIsRewarded(s, front, id);
      SubscribersStayOk(Run(s, front), step);
      StepKeepsOnItsWay(Run(s, front), step, id);
      if HasRested(s, steps) && InPhase(Run(s, steps), id, Waiting) {
        assert front + [step] == steps;
        RestedAndWaiting(s, front, step, id);
      }
    }
    var r := Run(s, steps);
    if InPhase(r, id, Waiting) && r.waiters[id].matched {
      WokenReturnsTrue(r, id);
    }
  }

  lemma RestedAndWaiting(s: System, front: seq<Step>, step: Step, id: nat)
    requires SubscribersOk(Run(s, front)) && OnItsWay(Run(s, front), id) && step != GiveUp(id)
    requires HasRested(s, front) && InPhase(Run(s, front), id, Waiting) ==> Run(s, front).waiters[id].matched
    requires HasRested(s, front + [step]) && InPhase(After(Run(s, front), step), id, Waiting)
    ensures After(Run(s, front), step).waiters[id].matched
  {
    var steps, before := front + [step], Run(s, front);
    assert steps[..|front|] == front;
    assert InPhase(before, id, Waiting) by {
      StaysBehind(before, step, id);
    }
    StepKeepsOnItsWay(before, step, id);
    var j :| 0 <= j <= |steps| && Run(s, steps[..j]).reader == Resting;
    assert if j == |steps| then steps[..j] == steps else steps[..j] == front[..j];
    if before.waiters[id].matched && step != Leave(id) {
      StepKeepsPending(before, step, id);
    }
  }

  /** Nobody comes back to waiting. */
  lemma StaysBehind(s: System, step: Step, id: nat)
    requires OnItsWay(s, id) && InPhase(After(s, step), id, Waiting)
    ensures InPhase(s, id, Waiting)
  {
  }

  lemma WokenReturnsTrue(s: System, id: nat)
    requires InPhase(s, id, Waiting) && s.waiters[id].matched
    ensures InPhase(Run(s, [Wake(id), Leave(id)]), id, Returned(true))
  {
    RunOne(s, Wake(id));
    RunMore(s, [Wake(id)], Leave(id));
    assert [Wake(id)] + [Leave(id)] == [Wake(id), Leave(id)];
  }

  // ---------- what the cache holds ----------

  /** The last step that wrote or forgot a property, if any. */
  function LastWrite(s: System, steps: seq<Step>, key: Key): Option<Step> {
    if |steps| == 0 then None
    else
      var front, step := steps[..|steps| - 1], steps[|steps| - 1];
      var resting := Run(s, front).reader == Resting;
      match step
      case WriteUpdate(k, _, cached) => if resting && k == key && cached then Some(step) else LastWrite(s, front, key)
      case WriteSilently(k, _) => if resting && k == key then Some(step) else LastWrite(s, front, key)
      case Forget(keys) => if key in keys then Some(step) else LastWrite(s, front, key)
      case _ => LastWrite(s, front, key)
  }

  /** The cache holds what was last written, and knows whether that was silent. */
  lemma {:induction false} CacheHoldsLastWrite(s: System, steps: seq<Step>, key: Key)
    ensures var r := Run(s, steps);
            match LastWrite(s, steps, key)
            case None => (key in r.cache <==> key in s.cache) && (key in s.cache ==> r.cache[key] == s.cache[key])
            case Some(WriteUpdate(_, state, _)) => key in r.cache && r.cache[key] == state && key !in r.silent
            case Some(WriteSilently(_, state)) => key in r.cache && r.cache[key] == state && key in r.silent
            case _ => key !in r.cache
  {
    if |steps| == 0 {
    } else {
      CacheHoldsLastWrite(s, steps[..|steps| - 1], key);
    }
  }

  function Calls(n: nat): seq<Step> {
    if n == 0 then [] else [CallNext] + Calls(n - 1)
  }

  /** The reader's own steps that complete the fan-out in progress. */
  function FanOut(s: System): seq<Step> {
    match s.reader
    case Resting => []
    case Written(_, _) => [TakeSnapshot] + (Calls(|s.subscribers|) + [Finish])
    case Notifying(_, _, todo) => Calls(|todo|) + [Finish]
  }

  lemma {:induction false} RunAppend(s: System, a: seq<Step>, b: seq<Step>)
    ensures Run(s, a + b) == Run(Run(s, a), b)
    decreases |b|
  {
    if |b| == 0 {
      assert a + b == a;
    } else {
      assert (a + b)[..|a + b| - 1] == a + b[..|b| - 1];
      RunAppend(s, a, b[..|b| - 1]);
    }
  }

  lemma RunOne(s: System, step: Step)
    ensures Run(s, [step]) == After(s, step)
  {
  }

  /** Calling the rest of the snapshot wakes every waiter in it that the update concerns. */
  lemma {:induction false} CallsWake(s: System, id: nat)
    requires s.reader.Notifying? && id in s.waiters
    ensures var s' := Run(s, Calls(|s.reader.todo|));
            && s'.reader == s.reader.(todo := [])
            && id in s'.waiters
            && (s.waiters[id].matched || (Concerns(s, id) && id in s.reader.todo) ==> s'.waiters[id].matched)
    decreases |s.reader.todo|
  {
    var todo := s.reader.todo;
    if |todo| == 0 {
    } else {
      var s1 := After(s, CallNext);
      CallsWake(s1, id);
      RunOne(s, CallNext);
      RunAppend(s, [CallNext], Calls(|todo| - 1));
    }
  }

  /** And the reader needs nobody else to get through: its own steps wake the waiter and end at rest. */
  lemma FanOutWakes(s: System, id: nat)
    requires id in s.waiters && Pending(s, id)
    ensures var r := Run(s, FanOut(s)); id in r.waiters && r.waiters[id].matched && r.reader == Resting
  {
    var n := if s.reader.Written? then After(s, TakeSnapshot) else s;
    var calls := Calls(|n.reader.todo|);
    CallsWake(n, id);
    RunAppend(n, calls, [Finish]);
    RunOne(Run(n, calls), Finish);
    if s.reader.Written? {
      RunOne(s, TakeSnapshot);
      RunAppend(s, [TakeSnapshot], calls + [Finish]);
    }
  }

  /** A silent write of its target while it waits, not woken, and the reader rests. */
  predicate StrandsWaiter(s: System, step: Step, id: nat) {
    id in s.waiters &&
    var w := s.waiters[id];
    w.phase == Waiting && !w.matched && s.reader == Resting && step == WriteSilently(w.key, w.target)
  }

  lemma WaiterStepStrands(s: System, step: Step, id: nat)
    requires SubscribersOk(s) && !Stranded(s, id) && !CacheStep(step)
    ensures !Stranded(After(s, step), id)
  {
    if step.Leave? && Enabled(s, step) {
      WithoutFacts(s.subscribers, step.id);
    }
  }

  /** The exception is real, and the only one: exactly such a step strands a waiter. */
  lemma StrandedExactlyBySilentWrite(s: System, step: Step, id: nat)
    requires SubscribersOk(s) && !Stranded(s, id)
    ensures Stranded(After(s, step), id) <==> StrandsWaiter(s, step, id)
  {
    if !CacheStep(step) {
      WaiterStepStrands(s, step, id);
    } else if step.CallNext? && Enabled(s, step) {
      var todo := s.reader.todo;
      assert id in todo ==> id == todo[0] || id in todo[1..];
    }
  }

  /** A step that gets this waiter going, or writes or forgets the property it waits for. */
  predicate Affects(s: System, step: Step, id: nat)
    requires id in s.waiters
  {
    match step
    case GiveUp(i) => i == id
    case WriteUpdate(key, _, _) => key == s.waiters[id].key
    case WriteSilently(key, _) => key == s.waiters[id].key
    case Forget(keys) => s.waiters[id].key in keys
    case _ => false
  }

  /** And it stays stranded, whatever other waiters and the reader do about other properties. */
  lemma StrandedStays(s: System, id: nat, step: Step)
    requires Stranded(s, id) && !Affects(s, step, id)
    ensures Stranded(After(s, step), id)
  {
    if step.Leave? && Enabled(s, step) {
      WithoutSubset(s.subscribers, step.id);
    }
  }

  lemma {:induction false} WithoutSubset(s: seq<nat>, x: nat)
    ensures forall y :: y in Without(s, x) ==> y in s
  {
    if |s| == 0 {
    } else {
      WithoutSubset(s[1..], x);
    }
  }

  /** A run that strands a waiter: it subscribes, finds nothing, and then the property is first defined in its target state. */
  lemma StrandingRun(key: Key, target: State)
    ensures var s := System(map[], {}, Resting, map[], []);
            var steps := [Enter(0, key, target), Subscribe(0), Check(0), WriteSilently(key, target)];
            Initial(s) && Stranded(Run(s, steps), 0)
  {
    var s := System(map[], {}, Resting, map[], []);
    var enter, write := Enter(0, key, target), WriteSilently(key, target);
    RunOne(s, enter);
    RunMore(s, [enter], Subscribe(0));
    RunMore(s, [enter, Subscribe(0)], Check(0));
    RunMore(s, [enter, Subscribe(0), Check(0)], write);
    assert [enter] + [Subscribe(0)] == [enter, Subscribe(0)];
    assert [enter, Subscribe(0)] + [Check(0)] == [enter, Subscribe(0), Check(0)];
    assert [enter, Subscribe(0), Check(0)] + [write] == [enter, Subscribe(0), Check(0), write];
  }

  lemma RunMore(s: System, front: seq<Step>, step: Step)
    ensures Run(s, front + [step]) == After(Run(s, front), step)
  {
    assert (front + [step])[..|front|] == front;
  }
}

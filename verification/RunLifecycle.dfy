/** Every interleaving of concurrent script runs with each other and with cancel and pause requests. */
module RunLifecycle {
  import opened Options
  import opened ScriptRunner

  /** How far a run has got; `_on_done` takes three steps. */
  datatype Stage =
    | Entered                       // in the table, not yet announced
    | Executing
    | Done(outcome: Outcome)        // the future is done
    | Taken(outcome: Outcome)       // out of the table
    | Cleaned(outcome: Outcome)     // out of the BLOB registry
    | Reported(outcome: Outcome)

  datatype RunState = RunState(name: string, stage: Stage)

  datatype System = System(tables: Tables, stages: map<RunId, RunState>)

  const START := System(Tables(map[], map[], []), map[])

  datatype Step =
    | Enter(id: RunId, name: string)
    | Start(id: RunId)
    | Log(id: RunId)
    | Claim(id: RunId, device: string, params: Params)
    | Cancel(id: RunId)
    | Pause(id: RunId, finishCurrent: bool)
    | End(id: RunId, outcome: Outcome)
    | Take(id: RunId)
    | Clean(id: RunId)
    | Report(id: RunId)

  predicate Enabled(s: System, step: Step) {
    match step
    case Enter(id, _) => id !in s.stages   // run ids are never reused
    case Cancel(_) => true
    case Pause(_, _) => true
    case _ =>
      step.id in s.stages &&
      var stage := s.stages[step.id].stage;
      match step
      case Start(_) => stage.Entered?
      case Log(_) => stage.Executing?
      case Claim(_, _, _) => stage.Executing?
      case End(_, _) => stage.Executing?
      case Take(_) => stage.Done?
      case Clean(_) => stage.Taken?
      case Report(_) => stage.Cleaned?
      case _ => false
  }

  function Move(s: System, id: RunId, stage: Stage, tables: Tables): System
    requires id in s.stages
  {
    System(tables, s.stages[id := s.stages[id].(stage := stage)])
  }

  /** One step; a step that is not enabled changes nothing. */
  function After(s: System, step: Step): System {
    if !Enabled(s, step) then s
    else
      var t := s.tables;
      match step
      case Enter(id, name) => System(Registered(t, id, name), s.stages[id := RunState(name, Entered)])
      case Start(id) => Move(s, id, Executing, Announced(t, id, Running))
      case Log(id) => s.(tables := Announced(t, id, Running))
      case Claim(id, device, params) => s.(tables := Claimed(t, device, id, params))
      case Cancel(id) => s.(tables := CancelRequested(t, id))
      case Pause(id, finishCurrent) => s.(tables := PauseRequested(t, id, finishCurrent))
      case End(id, outcome) => Move(s, id, Done(outcome), t)
      case Take(id) => Move(s, id, Taken(s.stages[id].stage.outcome), Popped(t, id))
      case Clean(id) => Move(s, id, Cleaned(s.stages[id].stage.outcome), Released(t, id))
      case Report(id) =>
        var outcome := s.stages[id].stage.outcome;
        Move(s, id, Reported(outcome), Announced(t, id, FinalStatus(s.stages[id].name, outcome)))
  }

  function Run(steps: seq<Step>): System {
    if |steps| == 0 then START else After(Run(steps[..|steps| - 1]), steps[|steps| - 1])
  }

  /** The statuses of one run, in the order broadcast. */
  function TraceOf(sent: seq<Status>, id: RunId): seq<StatusKind> {
    if |sent| == 0 then []
    else
      var last := sent[|sent| - 1];
      TraceOf(sent[..|sent| - 1], id) + if last.run == id then [last.kind] else []
  }

  predicate AllRunning(trace: seq<StatusKind>) {
    forall k :: 0 <= k < |trace| ==> trace[k] == Running
  }

  /** At least one running, then one final status, and nothing after. */
  predicate Complete(trace: seq<StatusKind>, final: StatusKind) {
    var n := |trace| - 1;
    n >= 1 && AllRunning(trace[..n]) && trace[n] == final != Running
  }

  /** The trace that belongs to a stage. */
  predicate TraceFits(run: RunState, trace: seq<StatusKind>) {
    match run.stage
    case Entered => trace == []
    case Reported(outcome) => Complete(trace, FinalStatus(run.name, outcome))
    case _ => trace != [] && AllRunning(trace)
  }

  predicate InTable(stage: Stage) {
    stage.Entered? || stage.Executing? || stage.Done?
  }

  /** Executing, or on the way out and not yet cleaned up. */
  predicate MayOwnDevices(stage: Stage) {
    stage.Executing? || stage.Done? || stage.Taken?
  }

  /** The statuses of one run so far belong to its stage; a run not yet entered has none. */
  predicate StatusesFit(s: System, id: RunId) {
    var trace := TraceOf(s.tables.sent, id);
    if id in s.stages then TraceFits(s.stages[id], trace) else trace == []
  }

  predicate TableFits(s: System) {
    && (forall id :: id in s.tables.runs ==> id in s.stages)
    && (forall id :: id in s.stages ==> (id in s.tables.runs <==> InTable(s.stages[id].stage)))
  }

  predicate DevicesFit(s: System) {
    forall d :: d in s.tables.blobs ==> s.tables.blobs[d].run in s.stages && MayOwnDevices(s.stages[s.tables.blobs[d].run].stage)
  }

  lemma OneMoreStatus(sent: seq<Status>, id: RunId, kind: StatusKind, other: RunId)
    ensures TraceOf(sent + [Status(id, kind)], other) == TraceOf(sent, other) + if other == id then [kind] else []
  {
  }

  lemma AnnouncingKeepsStatuses(s: System, mover: RunId, kind: StatusKind, stage: Stage, id: RunId)
    requires mover in s.stages && StatusesFit(s, id)
    requires mover == id ==> TraceFits(s.stages[id].(stage := stage), TraceOf(s.tables.sent, id) + [kind])
    ensures StatusesFit(Move(s, mover, stage, Announced(s.tables, mover, kind)), id)
  {
    OneMoreStatus(s.tables.sent, mover, kind, id);
    assert TraceOf(s.tables.sent, id) + [] == TraceOf(s.tables.sent, id);
  }

  lemma ReportCompletes(run: RunState, trace: seq<StatusKind>)
    requires run.stage.Cleaned? && TraceFits(run, trace)
    ensures Complete(trace + [FinalStatus(run.name, run.stage.outcome)], FinalStatus(run.name, run.stage.outcome))
  {
  }

  lemma RunningKeepsStatuses(s: System, step: Step, id: RunId)
    requires StatusesFit(s, id) && Enabled(s, step) && (step.Start? || step.Log?)
    ensures StatusesFit(After(s, step), id)
  {
    AnnouncingKeepsStatuses(s, step.id, Running, Executing, id);
    if step.Log? {
      assert s.stages[step.id := s.stages[step.id].(stage := Executing)] == s.stages;
    }
  }

  lemma ReportKeepsStatuses(s: System, mover: RunId, id: RunId)
    requires StatusesFit(s, id) && Enabled(s, Report(mover))
    ensures StatusesFit(After(s, Report(mover)), id)
  {
    var run := s.stages[mover];
    if mover == id {
      ReportCompletes(run, TraceOf(s.tables.sent, id));
    }
    AnnouncingKeepsStatuses(s, mover, FinalStatus(run.name, run.stage.outcome), Reported(run.stage.outcome), id);
  }

  /** What a step that announces nothing does to the stage of a run. */
  predicate SilentMove(before: Stage, after: Stage) {
    before == after || (!before.Entered? && !before.Reported? && !after.Entered? && !after.Reported?)
  }

  lemma SilentStep(s: System, step: Step, id: RunId)
    requires !step.Start? && !step.Log? && !step.Report?
    ensures var s' := After(s, step);
            && s'.tables.sent == s.tables.sent
            && (id in s.stages ==> id in s'.stages && s'.stages[id].name == s.stages[id].name && SilentMove(s.stages[id].stage, s'.stages[id].stage))
            && (id !in s.stages && id in s'.stages ==> s'.stages[id].stage == Entered)
  {
  }

  lemma StepKeepsStatuses(s: System, step: Step, id: RunId)
    requires StatusesFit(s, id)
    ensures StatusesFit(After(s, step), id)
  {
    if !Enabled(s, step) {
    } else if step.Start? || step.Log? {
      RunningKeepsStatuses(s, step, id);
    } else if step.Report? {
      ReportKeepsStatuses(s, step.id, id);
    } else {
      SilentStep(s, step, id);
    }
  }

  lemma {:induction false} RunKeepsStatuses(steps: seq<Step>, id: RunId)
    ensures StatusesFit(Run(steps), id)
  {
    if |steps| == 0 {
    } else {
      RunKeepsStatuses(steps[..|steps| - 1], id);
      StepKeepsStatuses(Run(steps[..|steps| - 1]), steps[|steps| - 1], id);
    }
  }

  lemma StepKeepsTables(s: System, step: Step)
    requires TableFits(s) && DevicesFit(s)
    ensures TableFits(After(s, step)) && DevicesFit(After(s, step))
  {
  }

  lemma {:induction false} RunKeepsTables(steps: seq<Step>)
    ensures TableFits(Run(steps)) && DevicesFit(Run(steps))
  {
    if |steps| == 0 {
    } else {
      RunKeepsTables(steps[..|steps| - 1]);
      StepKeepsTables(Run(steps[..|steps| - 1]), steps[|steps| - 1]);
    }
  }

  // ---------- the main results ----------

  /**
   On every interleaving, the statuses of a run are none before it is announced, then one or more
   running, then exactly the one final status of its outcome, with nothing after it.
   */
  lemma {:induction false} StatusTraceOfEveryRun(steps: seq<Step>, id: RunId)
    ensures var s := Run(steps);
            var trace := TraceOf(s.tables.sent, id);
            if id in s.stages then TraceFits(s.stages[id], trace) else trace == []
  {
    RunKeepsStatuses(steps, id);
  }

  /** Every entry of the BLOB registry belongs to a run that is executing or finishing. */
  lemma {:induction false} DevicesBelongToLiveRuns(steps: seq<Step>, device: string)
    requires device in Run(steps).tables.blobs
    ensures var s := Run(steps);
            var owner := s.tables.blobs[device].run;
            owner in s.stages && MayOwnDevices(s.stages[owner].stage)
  {
    RunKeepsTables(steps);
  }

  /** A request finds exactly the runs that have not left the table. */
  lemma {:induction false} RequestsFindLiveRuns(steps: seq<Step>, id: RunId)
    ensures var s := Run(steps);
            id in s.tables.runs <==> id in s.stages && InTable(s.stages[id].stage)
  {
    RunKeepsTables(steps);
  }

  /** A step leaves the stage and the statuses of a reported run alone. */
  lemma StepKeepsReported(s: System, step: Step, id: RunId)
    requires id in s.stages && s.stages[id].stage.Reported?
    ensures var s' := After(s, step);
            && id in s'.stages && s'.stages[id] == s.stages[id]
            && TraceOf(s'.tables.sent, id) == TraceOf(s.tables.sent, id)
  {
  }

  lemma {:induction false} MoreStepsKeepReported(steps: seq<Step>, more: seq<Step>, id: RunId)
    requires id in Run(steps).stages && Run(steps).stages[id].stage.Reported?
    ensures var s, s' := Run(steps), Run(steps + more);
            && id in s'.stages && s'.stages[id] == s.stages[id]
            && TraceOf(s'.tables.sent, id) == TraceOf(s.tables.sent, id)
    decreases |more|
  {
    if |more| == 0 {
      assert steps + more == steps;
    } else {
      var front, last := more[..|more| - 1], more[|more| - 1];
      assert (steps + more)[..|steps + more| - 1] == steps + front;
      MoreStepsKeepReported(steps, front, id);
      StepKeepsReported(Run(steps + front), last, id);
    }
  }

  /** Once reported, a run's statuses never change, and it owns nothing, whatever happens next. */
  lemma {:induction false} ReportedIsFinal(steps: seq<Step>, more: seq<Step>, id: RunId)
    requires id in Run(steps).stages && Run(steps).stages[id].stage.Reported?
    ensures var s, s' := Run(steps), Run(steps + more);
            && id in s'.stages && s'.stages[id] == s.stages[id]
            && TraceOf(s'.tables.sent, id) == TraceOf(s.tables.sent, id)
            && id !in s'.tables.runs
            && forall d :: d in s'.tables.blobs ==> s'.tables.blobs[d].run != id
  {
    MoreStepsKeepReported(steps, more, id);
    RunKeepsTables(steps + more);
  }

  // ---------- what the tables remember of the steps ----------

  /** The step happened: it is in the run, and it was possible then. */
  ghost predicate Happened(steps: seq<Step>, step: Step) {
    exists j :: 0 <= j < |steps| && steps[j] == step && Enabled(Run(steps[..j]), step)
  }

  lemma HappenedSnoc(front: seq<Step>, last: Step, step: Step)
    ensures Happened(front + [last], step) <==> Happened(front, step) || (last == step && Enabled(Run(front), step))
  {
    var steps := front + [last];
    assert steps[..|front|] == front && steps[|front|] == last;
    assert forall j :: 0 <= j < |front| ==> steps[j] == front[j] && steps[..j] == front[..j];
  }

  /** How a run in the later stages ended, and under which name it entered, is in the steps. */
  lemma {:induction false} StagesTellSteps(steps: seq<Step>, id: RunId)
    requires id in Run(steps).stages
    ensures var run := Run(steps).stages[id];
            && Happened(steps, Enter(id, run.name))
            && (!run.stage.Entered? && !run.stage.Executing? ==> Happened(steps, End(id, run.stage.outcome)))
  {
    if |steps| == 0 {
    } else {
      var front, last := steps[..|steps| - 1], steps[|steps| - 1];
      var before, run := Run(front), Run(steps).stages[id];
      assert front + [last] == steps;
      HappenedSnoc(front, last, Enter(id, run.name));
      if !run.stage.Entered? && !run.stage.Executing? {
        HappenedSnoc(front, last, End(id, run.stage.outcome));
      }
      if id in before.stages {
        StagesTellSteps(front, id);
        StepKeepsName(before, last, id);
      } else {
        assert last == Enter(id, run.name) && Enabled(before, last);
      }
    }
  }

  lemma StepKeepsName(s: System, step: Step, id: RunId)
    requires id in s.stages
    ensures var s' := After(s, step);
            && id in s'.stages && s'.stages[id].name == s.stages[id].name
            && (!s'.stages[id].stage.Entered? && !s'.stages[id].stage.Executing? ==>
                  || (step.End? && step == End(id, s'.stages[id].stage.outcome) && Enabled(s, step))
                  || (!s.stages[id].stage.Entered? && !s.stages[id].stage.Executing?
                      && s.stages[id].stage.outcome == s'.stages[id].stage.outcome))
  {
  }

  /**
   The last status of a reported run tells how its script ended, and the resume command of a paused one
   names the script that was run and carries the parameters it paused with.
   */
  lemma {:induction false} LastStatusTellsOutcome(steps: seq<Step>, id: RunId)
    requires id in Run(steps).stages && Run(steps).stages[id].stage.Reported?
    ensures var trace := TraceOf(Run(steps).tables.sent, id);
            && trace != []
            && match trace[|trace| - 1]
               case Running => false
               case Finished => Happened(steps, End(id, Returned))
               case Cancelled => Happened(steps, End(id, CancelledError))
               case Error => Happened(steps, End(id, OtherError))
               case Paused(None) => Happened(steps, End(id, PausedError(None)))
               case Paused(Some(command)) =>
                 Happened(steps, End(id, PausedError(Some(command.params)))) && Happened(steps, Enter(id, command.name))
  {
    StatusTraceOfEveryRun(steps, id);
    StagesTellSteps(steps, id);
  }

  /** A step is a request of this kind, made while the run is in the table. */
  predicate Requests(s: System, step: Step, request: Step) {
    step == request && request.id in s.tables.runs
  }

  /** The request has been made while the run was in the table. */
  predicate Requested(steps: seq<Step>, request: Step)
    requires request.Cancel? || request.Pause?
  {
    if |steps| == 0 then false
    else
      var front := steps[..|steps| - 1];
      Requests(Run(front), steps[|steps| - 1], request) || Requested(front, request)
  }

  lemma {:induction false} RequestedMeansEntered(steps: seq<Step>, request: Step)
    requires (request.Cancel? || request.Pause?) && Requested(steps, request)
    ensures request.id in Run(steps).stages
  {
    var front := steps[..|steps| - 1];
    RunKeepsTables(front);
    if Requested(front, request) {
      RequestedMeansEntered(front, request);
    }
  }

  lemma StepFlags(s: System, step: Step, id: RunId)
    requires id in After(s, step).tables.runs
    ensures id !in s.tables.runs ==> step.Enter? && step.id == id && id !in s.stages
                                     && After(s, step).tables.runs[id] == Handle(step.name, false, false, false)
    ensures id in s.tables.runs && TableFits(s) ==>
              var before, after := s.tables.runs[id], After(s, step).tables.runs[id];
              && after.cancel == (before.cancel || step == Cancel(id))
              && after.pauseImmediate == (before.pauseImmediate || step == Pause(id, false))
              && after.pauseDeferred == (before.pauseDeferred || step == Pause(id, true))
  {
  }

  /** The flags of a run in the table are exactly the requests that have been made for it. */
  lemma {:induction false} FlagsAreRequests(steps: seq<Step>, id: RunId)
    requires id in Run(steps).tables.runs
    ensures var handle := Run(steps).tables.runs[id];
            && (handle.cancel <==> Requested(steps, Cancel(id)))
            && (handle.pauseImmediate <==> Requested(steps, Pause(id, false)))
            && (handle.pauseDeferred <==> Requested(steps, Pause(id, true)))
  {
    if |steps| == 0 {
    } else {
      var front, last := steps[..|steps| - 1], steps[|steps| - 1];
      var before := Run(front);
      RunKeepsTables(front);
      StepFlags(before, last, id);
      if id in before.tables.runs {
        FlagsAreRequests(front, id);
      } else {
        if Requested(front, Cancel(id)) {
          RequestedMeansEntered(front, Cancel(id));
        }
        if Requested(front, Pause(id, false)) {
          RequestedMeansEntered(front, Pause(id, false));
        }
        if Requested(front, Pause(id, true)) {
          RequestedMeansEntered(front, Pause(id, true));
        }
      }
    }
  }

  /** The run that last claimed a device and has not been cleaned up since, with what it claimed it for. */
  function LastClaim(steps: seq<Step>, device: string): Option<BlobContext> {
    if |steps| == 0 then None
    else
      var front, last := steps[..|steps| - 1], steps[|steps| - 1];
      var claim := LastClaim(front, device);
      if last.Claim? && last.device == device && Enabled(Run(front), last) then Some(BlobContext(last.id, last.params))
      else if claim.Some? && last == Clean(claim.value.run) && Enabled(Run(front), last) then None
      else claim
  }

  /** The registry holds the last claims, so that a device taken over stays with the run that took it. */
  lemma {:induction false} RegistryHoldsLastClaims(steps: seq<Step>, device: string)
    ensures var blobs := Run(steps).tables.blobs;
            LastClaim(steps, device) == if device in blobs then Some(blobs[device]) else None
  {
    if |steps| == 0 {
    } else {
      RegistryHoldsLastClaims(steps[..|steps| - 1], device);
    }
  }

  /** How often a run was announced, logged or reported. */
  function Announcements(steps: seq<Step>, id: RunId): nat {
    if |steps| == 0 then 0
    else
      var front, last := steps[..|steps| - 1], steps[|steps| - 1];
      Announcements(front, id)
      + if (last.Start? || last.Log? || last.Report?) && last.id == id && Enabled(Run(front), last) then 1 else 0
  }

  /** Every announcement, log message and report is broadcast as one status of its run, and nothing else is. */
  lemma {:induction false} OneStatusEach(steps: seq<Step>, id: RunId)
    ensures |TraceOf(Run(steps).tables.sent, id)| == Announcements(steps, id)
  {
    if |steps| == 0 {
    } else {
      var front, last := steps[..|steps| - 1], steps[|steps| - 1];
      OneStatusEach(front, id);
      StepAnnounces(Run(front), last, id);
    }
  }

  lemma StepAnnounces(s: System, step: Step, id: RunId)
    ensures |TraceOf(After(s, step).tables.sent, id)| == |TraceOf(s.tables.sent, id)|
            + if (step.Start? || step.Log? || step.Report?) && step.id == id && Enabled(s, step) then 1 else 0
  {
    if Enabled(s, step) {
      if step.Start? || step.Log? {
        OneMoreStatus(s.tables.sent, step.id, Running, id);
      } else if step.Report? {
        OneMoreStatus(s.tables.sent, step.id, FinalStatus(s.stages[step.id].name, s.stages[step.id].stage.outcome), id);
      } else {
        assert After(s, step).tables.sent == s.tables.sent;
      }
    }
  }
}

/**
 The `capture_frame` script with the calls of `IndiScriptApi` and `TimeScriptApi` it makes: where it
 can be paused, and what its resume command then still has to do.
 */
module CaptureFrame {
  import opened Options

  /** The parameters that the script reads, besides the count. */
  datatype Key =
    | Device | Exposure | Delay | FrameType | Gain | Offset | BinX | BinY
    | FrameX | FrameY | FrameW | FrameH | Format | FilterDevice | FilterName
    | CoolerTemp | CoolerTolerance | CoolerTimeout
    | TelescopeName | FocalLength | Aperture | PixelSizeX | PixelSizeY | SensorWidth | SensorHeight | CameraName
    | TargetName | TargetRa | TargetDec | TargetEpoch

  datatype Value = Null | Num(number: real) | Text(text: string)

  function Default(k: Key): Value {
    match k
    case Device => Text("CCD Simulator")
    case Exposure => Num(10.0)
    case Delay => Num(0.0)
    case FrameType => Text("light")
    case BinX => Num(1.0)
    case BinY => Num(1.0)
    case CoolerTolerance => Num(0.5)
    case CoolerTimeout => Num(300.0)
    case TargetEpoch => Text("J2000")
    case _ => Null
  }

  /** The parameters of a run: the frame count, and those given among the rest. */
  datatype Params = Params(count: int, given: map<Key, Value>) {
    /** `params.get`, with the script's default. */
    function Get(k: Key): Value {
      if k in given then given[k] else Default(k)
    }
  }

  /** What both checkpoints write down, besides the count. */
  const CHECKPOINTED: set<Key> := {
    Device, Exposure, Delay, FrameType, Gain, Offset, BinX, BinY,
    FrameX, FrameY, FrameW, FrameH, Format, FilterDevice, FilterName, CoolerTemp,
    TelescopeName, FocalLength, Aperture, PixelSizeX, PixelSizeY, SensorWidth, SensorHeight, CameraName,
    TargetName, TargetRa, TargetDec, TargetEpoch
  }

  /** The parameters that a checkpoint stores. */
  function ResumeParams(p: Params, count: int): Params {
    Params(count, map k | k in CHECKPOINTED :: p.Get(k))
  }

  /** The script looks at this parameter: those of the cooler wait only when a temperature is set. */
  predicate Uses(p: Params, k: Key) {
    k == CoolerTolerance || k == CoolerTimeout ==> p.Get(CoolerTemp) != Null
  }

  /** Two runs look at the same parameters and find the same values, but for the count. */
  predicate SameSettings(p: Params, q: Params) {
    forall k: Key :: (Uses(p, k) <==> Uses(q, k)) && (Uses(p, k) ==> p.Get(k) == q.Get(k))
  }

  // ---------- the cooler wait ----------

  const POLL := 5.0

  predicate Near(temp: real, tolerance: real, reading: Option<real>) {
    reading.Some? && -tolerance <= reading.value - temp <= tolerance
  }

  /** Some reading taken before the timeout is near enough. */
  ghost predicate Reaches(temp: real, tolerance: real, timeout: real, readings: nat -> Option<real>) {
    exists j: nat :: j as real * POLL < timeout && Near(temp, tolerance, readings(j))
  }

  /** The loop of the cooler wait, when no request comes; the script fails if it does not end at its temperature. */
  method CoolerWait(temp: real, tolerance: real, timeout: real, readings: nat -> Option<real>) returns (reached: bool, polls: nat)
    ensures reached <==> Reaches(temp, tolerance, timeout, readings)
    ensures forall j: nat :: j < polls ==> !Near(temp, tolerance, readings(j))
    ensures reached ==> Near(temp, tolerance, readings(polls))
  {
    var elapsed := 0.0;
    polls := 0;
    while elapsed < timeout
      invariant elapsed == polls as real * POLL
      invariant forall j: nat :: j < polls ==> !Near(temp, tolerance, readings(j))
      decreases timeout - elapsed
    {
      var current := readings(polls);
      if current.Some? {
        var distance := if current.value < temp then temp - current.value else current.value - temp;
        if distance <= tolerance {
          return true, polls;
        }
      }
      elapsed := elapsed + POLL;
      polls := polls + 1;
    }
    return false, polls;
  }

  /** A run gets past the cooler wait: it has no temperature to wait for, or it reaches it. */
  ghost predicate PassesCooler(p: Params, readings: nat -> Option<real>) {
    p.Get(CoolerTemp) == Null ||
    (p.Get(CoolerTemp).Num? && p.Get(CoolerTolerance).Num? && p.Get(CoolerTimeout).Num?
     && Reaches(p.Get(CoolerTemp).number, p.Get(CoolerTolerance).number, p.Get(CoolerTimeout).number, readings))
  }

  /** With nothing but a temperature given, the wait is for half a degree, and sixty readings are taken. */
  lemma DefaultCoolerWait(count: int, temp: real, readings: nat -> Option<real>)
    ensures PassesCooler(Params(count, map[CoolerTemp := Num(temp)]), readings) <==>
            exists j: nat :: j < 60 && readings(j).Some? && -0.5 <= readings(j).value - temp <= 0.5
  {
    var p := Params(count, map[CoolerTemp := Num(temp)]);
    assert p.Get(CoolerTemp) == Num(temp) && p.Get(CoolerTolerance) == Num(0.5) && p.Get(CoolerTimeout) == Num(300.0);
    assert forall j: nat :: Near(temp, 0.5, readings(j)) <==> readings(j).Some? && -0.5 <= readings(j).value - temp <= 0.5;
  }

  /** The requests that have reached the script by the time of a call; they stay in force. */
  datatype Requests = Requests(cancel: bool, immediate: bool, deferred: bool)

  /** What a call to the script's API comes to. */
  datatype Result = Go | No | Cancelled | Paused(resume: Option<Params>) | Failed

  /** What ends a wait: the state, the deadline, or a request seen while polling. */
  datatype WaitEnd = Reached | Deadline | Polled

  class ScriptApi {
    var cancel: bool
    var immediate: bool
    var deferred: bool
    var lastCheckpoint: Option<Params>

    constructor ()
      ensures !cancel && !immediate && !deferred && lastCheckpoint == None
    {
      cancel, immediate, deferred, lastCheckpoint := false, false, false, None;
    }

    method Receive(r: Requests)
      modifies `cancel, `immediate, `deferred
      ensures cancel == (old(cancel) || r.cancel)
      ensures immediate == (old(immediate) || r.immediate)
      ensures deferred == (old(deferred) || r.deferred)
    {
      cancel, immediate, deferred := cancel || r.cancel, immediate || r.immediate, deferred || r.deferred;
    }

    /** `checkpoint` */
    method Checkpoint(params: Params, r: Requests) returns (result: Result)
      modifies this
      ensures cancel == (old(cancel) || r.cancel)
      ensures immediate == (old(immediate) || r.immediate)
      ensures deferred == (old(deferred) || r.deferred)
      ensures lastCheckpoint == if cancel then old(lastCheckpoint) else Some(params)
      ensures result == if cancel then Cancelled else if immediate || deferred then Paused(Some(params)) else Go
    {
      Receive(r);
      if cancel {
        return Cancelled;
      }
      lastCheckpoint := Some(params);
      if immediate || deferred {
        return Paused(Some(params));
      }
      return Go;
    }

    /** A command: refused after cancellation, and failing when there is no connection. */
    method Command(r: Requests, connected: bool) returns (result: Result)
      modifies `cancel, `immediate, `deferred
      ensures cancel == (old(cancel) || r.cancel)
      ensures immediate == (old(immediate) || r.immediate)
      ensures deferred == (old(deferred) || r.deferred)
      ensures result == if cancel then Cancelled else if connected then Go else Failed
    {
      Receive(r);
      if cancel {
        return Cancelled;
      }
      if !connected {
        return Failed;
      }
      return Go;
    }

    /**
     `wait_for_state`, and likewise `sleep`: requests are seen only while polling, and an immediate pause
     resumes from the last checkpoint. A deferred one is not looked at.
     */
    method Wait(r: Requests, end: WaitEnd) returns (result: Result)
      modifies `cancel, `immediate, `deferred
      ensures cancel == (old(cancel) || r.cancel)
      ensures immediate == (old(immediate) || (!old(cancel) && r.immediate))
      ensures deferred == (old(deferred) || (!old(cancel) && r.deferred))
      ensures result == if old(cancel) then Cancelled
                        else if end == Reached then Go
                        else if end == Deadline then No
                        else if cancel then Cancelled
                        else if immediate then Paused(lastCheckpoint)
                        else No
    {
      if cancel {
        return Cancelled;
      }
      Receive(r);
      match end
      case Reached => return Go;
      case Deadline => return No;
      case Polled =>
        if cancel {
          return Cancelled;
        }
        if immediate {
          return Paused(lastCheckpoint);
        }
        return No;
    }
  }

  // ---------- the script ----------

  /** What happens to the calls of one turn of the capture loop. */
  datatype Turn = Turn(
    top: Requests, metadata: Requests, expose: Requests, connected: bool, busy: Requests, busyEnd: WaitEnd,
    ok: Requests, okEnd: WaitEnd, bottom: Requests, delay: Requests, delayEnd: WaitEnd)

  /** How a run ends. A run whose exposure times out stops early, and is reported as finished. */
  datatype Ending = Finished | TimedOut | WasCancelled | WasPaused(resume: Option<Params>) | HasFailed

  /** What happens before the loop. */
  datatype Setup = Ready | SetupCancelled | SetupPaused | SetupFailed

  function Ended(r: Result): Ending
    requires r.Cancelled? || r.Paused? || r.Failed?
  {
    match r
    case Cancelled => WasCancelled
    case Paused(resume) => WasPaused(resume)
    case Failed => HasFailed
  }

  /** Frames captured by a run and frames left to its resume command account for the count. */
  predicate Conserves(p: Params, frames: nat, ending: Ending) {
    match ending
    case Finished => frames == if p.count < 0 then 0 else p.count
    case TimedOut => frames < p.count
    case WasCancelled => frames == 0 || frames < p.count
    case HasFailed => frames == 0 || frames < p.count
    case WasPaused(None) => frames == 0
    case WasPaused(Some(r)) => r == ResumeParams(p, r.count) && r.count >= 1 && frames + r.count == p.count
  }

  predicate NoRequest(r: Requests) {
    !r.cancel && !r.immediate && !r.deferred
  }

  /** No request comes during the turn. */
  predicate Quiet(t: Turn) {
    && NoRequest(t.top) && NoRequest(t.metadata) && NoRequest(t.expose) && NoRequest(t.busy) && NoRequest(t.ok)
    && NoRequest(t.bottom) && NoRequest(t.delay)
  }

  /** No request has come. */
  predicate Unasked(api: ScriptApi)
    reads api
  {
    !api.cancel && !api.immediate && !api.deferred
  }

  /** One turn of the loop, for frame `i`: whether the frame was captured, and how the run ends if it does. */
  method CaptureOne(api: ScriptApi, p: Params, hasDelay: bool, i: nat, t: Turn) returns (captured: bool, ending: Option<Ending>)
    requires i < p.count
    modifies api
    ensures ending.None? ==> captured
    ensures ending.Some? ==> ending.value in {TimedOut, WasCancelled, HasFailed} || ending.value.WasPaused?
    ensures ending == Some(TimedOut) ==> !captured
    ensures ending.Some? && ending.value.WasPaused? ==>
              ending.value.resume == Some(ResumeParams(p, p.count - i - if captured then 1 else 0))
    ensures captured && ending.Some? ==> i + 1 < p.count
    ensures captured ==> t.connected && t.okEnd == Reached
    ensures ending == Some(TimedOut) ==> t.connected && t.okEnd != Reached
    ensures old(api.cancel) || t.top.cancel ==> !captured && ending == Some(WasCancelled)
    ensures !old(api.cancel) && !t.top.cancel && (old(api.immediate) || t.top.immediate || old(api.deferred) || t.top.deferred) ==>
              !captured && ending.Some? && ending.value.WasPaused?
    ensures captured && i + 1 < p.count && t.bottom.cancel ==> ending == Some(WasCancelled)
    ensures captured && i + 1 < p.count && (t.bottom.immediate || t.bottom.deferred) ==>
              ending == Some(WasCancelled) || (ending.Some? && ending.value.WasPaused?)
    ensures old(Unasked(api)) && Quiet(t) ==>
              && Unasked(api)
              && (captured <==> t.connected && t.okEnd == Reached)
              && ending == if captured then None else if t.connected then Some(TimedOut) else Some(HasFailed)
  {
    captured := false;
    var r := api.Checkpoint(ResumeParams(p, p.count - i), t.top);
    if r != Go {
      return false, Some(Ended(r));
    }
    r := api.Command(t.metadata, true);
    if r != Go {
      return false, Some(Ended(r));
    }
    r := api.Command(t.expose, t.connected);
    if r != Go {
      return false, Some(Ended(r));
    }
    r := api.Wait(t.busy, t.busyEnd);
    if r.Cancelled? || r.Paused? {
      return false, Some(Ended(r));
    }
    r := api.Wait(t.ok, t.okEnd);
    if r.Cancelled? || r.Paused? {
      return false, Some(Ended(r));
    }
    if r == No {
      return false, Some(TimedOut);
    }
    captured := true;
    if i + 1 < p.count {
      r := api.Checkpoint(ResumeParams(p, p.count - (i + 1)), t.bottom);
      if r != Go {
        return true, Some(Ended(r));
      }
    }
    if hasDelay && i < p.count - 1 {
      r := api.Wait(t.delay, t.delayEnd);
      if r.Cancelled? || r.Paused? {
        return true, Some(Ended(r));
      }
    }
    return true, None;
  }

  /** The script: setup, then the capture loop. `turns(i)` is what happens during frame `i`. */
  method Capture(p: Params, hasDelay: bool, setup: Setup, turns: nat -> Turn) returns (frames: nat, ending: Ending)
    ensures Conserves(p, frames, ending)
    ensures setup.Ready? && ending.WasPaused? ==> ending.resume.Some?
    ensures forall j :: 0 <= j < frames ==> turns(j).connected && turns(j).okEnd == Reached
    ensures ending == TimedOut ==> turns(frames).connected && turns(frames).okEnd != Reached
    ensures setup.SetupCancelled? ==> ending == WasCancelled
    ensures setup.SetupPaused? ==> ending == WasPaused(None)
    ensures setup.SetupFailed? ==> ending == HasFailed
    ensures setup.Ready? && (forall j: nat :: j < p.count ==> Quiet(turns(j))) ==>
              if frames < p.count
              then ending == (if turns(frames).connected then TimedOut else HasFailed) && !(turns(frames).connected && turns(frames).okEnd == Reached)
              else ending == Finished
  {
    var api := new ScriptApi();
    frames := 0;
    match setup
    case SetupCancelled => return 0, WasCancelled;
    case SetupPaused => return 0, WasPaused(api.lastCheckpoint);
    case SetupFailed => return 0, HasFailed;
    case Ready =>
    var i := 0;
    while i < p.count
      invariant 0 <= i && (i <= p.count || i == 0) && frames == i
      invariant forall j :: 0 <= j < frames ==> turns(j).connected && turns(j).okEnd == Reached
      invariant (forall j: nat :: j < p.count ==> Quiet(turns(j))) ==> Unasked(api)
    {
      var captured, end := CaptureOne(api, p, hasDelay, i, turns(i));
      if captured {
        frames := frames + 1;
      }
      if end.Some? {
        return frames, end.value;
      }
      i := i + 1;
    }
    ending := Finished;
  }

  // ---------- chains of runs ----------

  /** One run of the script, as `Capture` ensures it. */
  datatype Segment = Segment(params: Params, frames: nat, ending: Ending)

  function Frames(chain: seq<Segment>): nat {
    if |chain| == 0 then 0 else chain[0].frames + Frames(chain[1..])
  }

  /** Runs each started from the resume command of the one before. */
  predicate IsChain(chain: seq<Segment>) {
    && (forall k :: 0 <= k < |chain| ==> Conserves(chain[k].params, chain[k].frames, chain[k].ending))
    && (forall k :: 0 < k < |chain| ==> chain[k - 1].ending == WasPaused(Some(chain[k].params)))
  }

  /** The frames of a chain and those left after its last run make up the original count. */
  lemma {:induction false} ChainConservesFrames(chain: seq<Segment>)
    requires IsChain(chain) && |chain| > 0 && chain[0].params.count >= 0
    ensures var end := chain[|chain| - 1].ending;
            && (end == Finished ==> Frames(chain) == chain[0].params.count)
            && (end == TimedOut ==> Frames(chain) < chain[0].params.count)
            && (end.WasPaused? && end.resume.Some? ==>
                  Frames(chain) + end.resume.value.count == chain[0].params.count && end.resume.value.count >= 1)
    decreases |chain|
  {
    if |chain| == 1 {
      assert Frames(chain[1..]) == 0;
    } else {
      var rest := chain[1..];
      assert chain[1 - 1].ending == WasPaused(Some(chain[1].params));
      ChainConservesFrames(rest);
      assert rest[|rest| - 1] == chain[|chain| - 1];
    }
  }

  predicate OfCoolerWait(k: Key) {
    k == CoolerTolerance || k == CoolerTimeout
  }

  /** What a resumed run finds is what its original found, except that the cooler wait is back at its defaults. */
  predicate Resumes(p: Params, q: Params) {
    forall k: Key :: q.Get(k) == if OfCoolerWait(k) then Default(k) else p.Get(k)
  }

  lemma ResumeParamsResume(p: Params, count: int)
    ensures Resumes(p, ResumeParams(p, count))
  {
  }

  /**
   However often a run is paused and resumed, it finds what the original found, but for the cooler wait,
   and has between 1 and the original number of frames to do.
   */
  lemma {:induction false} ResumedRunsKeepTheRest(chain: seq<Segment>, k: nat)
    requires IsChain(chain) && 0 < k < |chain|
    ensures Resumes(chain[0].params, chain[k].params)
    ensures 1 <= chain[k].params.count <= chain[0].params.count
  {
    assert chain[k - 1].ending == WasPaused(Some(chain[k].params));
    assert Conserves(chain[k - 1].params, chain[k - 1].frames, chain[k - 1].ending);
    ResumeParamsResume(chain[k - 1].params, chain[k].params.count);
    if k == 1 {
    } else {
      ResumedRunsKeepTheRest(chain, k - 1);
    }
  }

  lemma SameSettingsIff(p: Params, q: Params)
    requires Resumes(p, q)
    ensures SameSettings(p, q) <==>
            p.Get(CoolerTemp) == Null
            || (p.Get(CoolerTolerance) == Default(CoolerTolerance) && p.Get(CoolerTimeout) == Default(CoolerTimeout))
  {
    assert Uses(p, CoolerTolerance) == Uses(p, CoolerTimeout) == (p.Get(CoolerTemp) != Null);
    assert q.Get(CoolerTolerance) == Default(CoolerTolerance) && q.Get(CoolerTimeout) == Default(CoolerTimeout);
    assert q.Get(CoolerTemp) == p.Get(CoolerTemp);
  }

  /**
   However often a run is paused and resumed, it goes on with the settings it began with if and only if
   it sets no temperature or waits for it with the default tolerance and timeout.
   */
  lemma ResumeIsFaithfulIff(chain: seq<Segment>, k: nat)
    requires IsChain(chain) && 0 < k < |chain|
    ensures var p := chain[0].params;
            SameSettings(p, chain[k].params) <==>
            p.Get(CoolerTemp) == Null
            || (p.Get(CoolerTolerance) == Default(CoolerTolerance) && p.Get(CoolerTimeout) == Default(CoolerTimeout))
  {
    ResumedRunsKeepTheRest(chain, k);
    SameSettingsIff(chain[0].params, chain[k].params);
  }

  const EAGER := Params(2, map[CoolerTemp := Num(-10.0), CoolerTolerance := Num(2.5)])

  const WARM: nat -> Option<real> := (j: nat) => Some(-8.0)

  /**
   A pause that costs a run: with a tolerance of 2.5 degrees it starts at once and captures a frame, and
   resumed under the same readings it waits in vain for half a degree.
   */
  lemma ResumedRunAborts()
    ensures var q := ResumeParams(EAGER, 1);
            && IsChain([Segment(EAGER, 1, WasPaused(Some(q))), Segment(q, 0, HasFailed)])
            && PassesCooler(EAGER, WARM) && !PassesCooler(q, WARM)
            && !SameSettings(EAGER, q)
  {
    var q := ResumeParams(EAGER, 1);
    ResumeParamsResume(EAGER, 1);
    SameSettingsIff(EAGER, q);
    assert Near(-10.0, 2.5, WARM(0)) && 0 as real * POLL < 300.0;
    assert q.Get(CoolerTemp) == Num(-10.0) && q.Get(CoolerTolerance) == Num(0.5);
  }
}

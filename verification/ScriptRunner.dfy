/** `ScriptRunner`: concurrent runs, the registry of BLOB devices, and the statuses broadcast. */
module ScriptRunner {
  import opened Options

  type RunId = string
  type Params = map<string, string>

  datatype Handle = Handle(name: string, cancel: bool, pauseImmediate: bool, pauseDeferred: bool)

  datatype BlobContext = BlobContext(run: RunId, captureParams: Params)

  /** How a script ended: it returned, or the exception it raised. */
  datatype Outcome = Returned | CancelledError | PausedError(resume: Option<Params>) | OtherError

  /** The command that a paused status carries: run this script with these parameters. */
  datatype ResumeCommand = ResumeCommand(name: string, params: Params)

  datatype StatusKind = Running | Finished | Cancelled | Paused(resume: Option<ResumeCommand>) | Error

  datatype Status = Status(run: RunId, kind: StatusKind)

  /** The runner's tables and what it has broadcast. */
  datatype Tables = Tables(runs: map<RunId, Handle>, blobs: map<string, BlobContext>, sent: seq<Status>)

  // ---------- the sections that run under a lock, or broadcast ----------

  function Registered(t: Tables, id: RunId, name: string): Tables {
    t.(runs := t.runs[id := Handle(name, false, false, false)])
  }

  function Announced(t: Tables, id: RunId, kind: StatusKind): Tables {
    t.(sent := t.sent + [Status(id, kind)])
  }

  function Claimed(t: Tables, device: string, id: RunId, params: Params): Tables {
    t.(blobs := t.blobs[device := BlobContext(id, params)])
  }

  function CancelRequested(t: Tables, id: RunId): Tables {
    if id in t.runs then t.(runs := t.runs[id := t.runs[id].(cancel := true)]) else t
  }

  function PauseRequested(t: Tables, id: RunId, finishCurrent: bool): Tables {
    if id !in t.runs then t
    else if finishCurrent then t.(runs := t.runs[id := t.runs[id].(pauseDeferred := true)])
    else t.(runs := t.runs[id := t.runs[id].(pauseImmediate := true)])
  }

  function Popped(t: Tables, id: RunId): Tables {
    t.(runs := t.runs - {id})
  }

  /** The registry without the devices of one run. */
  function Released(t: Tables, id: RunId): Tables {
    t.(blobs := map d | d in t.blobs && t.blobs[d].run != id :: t.blobs[d])
  }

  /** The status that an outcome is reported with. */
  function FinalStatus(name: string, outcome: Outcome): StatusKind {
    match outcome
    case Returned => Finished
    case CancelledError => Cancelled
    case PausedError(None) => Paused(None)
    case PausedError(Some(params)) => Paused(Some(ResumeCommand(name, params)))
    case OtherError => Error
  }

  class Runner {
    var runs: map<RunId, Handle>
    var blobRegistry: map<string, BlobContext>
    var sent: seq<Status>

    function Abs(): Tables
      reads this
    {
      Tables(runs, blobRegistry, sent)
    }

    constructor ()
      ensures Abs() == Tables(map[], map[], [])
    {
      runs, blobRegistry, sent := map[], map[], [];
    }

    /** `run`, up to the submission: the run is entered before its first status is broadcast. */
    method Run(id: RunId, name: string)
      requires id !in runs
      modifies this
      ensures Abs() == Announced(Registered(old(Abs()), id, name), id, Running)
      ensures runs == old(runs)[id := Handle(name, false, false, false)] && sent == old(sent) + [Status(id, Running)]
    {
      runs := runs[id := Handle(name, false, false, false)];
      sent := sent + [Status(id, Running)];
    }

    /** `cancel` */
    method Cancel(id: RunId) returns (ok: bool)
      modifies `runs
      ensures ok <==> id in old(runs)
      ensures Abs() == CancelRequested(old(Abs()), id)
      ensures ok ==> runs == old(runs)[id := old(runs)[id].(cancel := true)]
    {
      if id in runs {
        runs := runs[id := runs[id].(cancel := true)];
        return true;
      }
      return false;
    }

    /** `pause` */
    method Pause(id: RunId, finishCurrent: bool) returns (ok: bool)
      modifies `runs
      ensures ok <==> id in old(runs)
      ensures Abs() == PauseRequested(old(Abs()), id, finishCurrent)
      ensures ok && finishCurrent ==> runs == old(runs)[id := old(runs)[id].(pauseDeferred := true)]
      ensures ok && !finishCurrent ==> runs == old(runs)[id := old(runs)[id].(pauseImmediate := true)]
    {
      if id !in runs {
        return false;
      }
      if finishCurrent {
        runs := runs[id := runs[id].(pauseDeferred := true)];
      } else {
        runs := runs[id := runs[id].(pauseImmediate := true)];
      }
      return true;
    }

    /** `register_blob_device` */
    method RegisterBlobDevice(device: string, id: RunId, params: Params)
      modifies `blobRegistry
      ensures Abs() == Claimed(old(Abs()), device, id, params)
      ensures blobRegistry == old(blobRegistry)[device := BlobContext(id, params)]
    {
      blobRegistry := blobRegistry[device := BlobContext(id, params)];
    }

    /** The registry part of `_on_done`: collect the run's devices, then delete them. */
    method ReleaseDevices(id: RunId)
      modifies `blobRegistry
      ensures Abs() == Released(old(Abs()), id)
      ensures forall d :: d in blobRegistry <==> d in old(blobRegistry) && old(blobRegistry)[d].run != id
      ensures forall d :: d in blobRegistry ==> blobRegistry[d] == old(blobRegistry)[d]
    {
      var stale := set d | d in blobRegistry && blobRegistry[d].run == id;
      var todo := stale;
      while todo != {}
        invariant todo <= stale && blobRegistry == old(blobRegistry) - (stale - todo)
        decreases todo
      {
        var d :| d in todo;
        todo := todo - {d};
        assert stale - todo == (stale - (todo + {d})) + {d};
        blobRegistry := blobRegistry - {d};
      }
      assert blobRegistry == Released(old(Abs()), id).blobs;
    }

    /** `_on_done`, when nothing else happens meanwhile. */
    method OnDone(id: RunId, name: string, outcome: Outcome)
      modifies this
      ensures Abs() == Announced(Released(Popped(old(Abs()), id), id), id, FinalStatus(name, outcome))
      ensures |sent| == |old(sent)| + 1 && sent[..|old(sent)|] == old(sent)
      ensures var last := sent[|old(sent)|];
              && last.run == id
              && (last.kind == Finished <==> outcome == Returned)
              && (last.kind == Cancelled <==> outcome == CancelledError)
              && (last.kind == Error <==> outcome == OtherError)
              && (last.kind.Paused? <==> outcome.PausedError?)
              && (outcome.PausedError? ==>
                    last.kind.resume == if outcome.resume.Some? then Some(ResumeCommand(name, outcome.resume.value)) else None)
      ensures forall d :: d in blobRegistry <==> d in old(blobRegistry) && old(blobRegistry)[d].run != id
      ensures forall d :: d in blobRegistry ==> blobRegistry[d] == old(blobRegistry)[d]
      ensures runs == old(runs) - {id}
    {
      runs := runs - {id};
      ReleaseDevices(id);
      match outcome
      case Returned => sent := sent + [Status(id, Finished)];
      case CancelledError => sent := sent + [Status(id, Cancelled)];
      case PausedError(resume) =>
        var command := None;
        if resume != None {
          command := Some(ResumeCommand(name, resume.value));
        }
        sent := sent + [Status(id, Paused(command))];
      case OtherError => sent := sent + [Status(id, Error)];
    }
  }
}

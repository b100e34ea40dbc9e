/** The progress record of few-shot voice training and the reducer that
    folds the training service's output lines into it: a status, the
    current stage and step, and a log bounded to its newest 500 lines.
    Also the worker's transitions around it: the reset when training
    starts, cancellation, and the training process closing its output. */
module TrainingManager {
  import opened Wrappers

  datatype TrainingStatus =
    | Idle
    | Running
    | Completed(gptWeights: string, sovitsWeights: string, referenceAudio: string, referenceText: string)
    | Failed(error: string)
    | Cancelled

  /** A JSON value as far as the reducer looks into it: a string, a number
      `as_u64` accepts, or anything else. */
  datatype JsonValue = JString(s: string) | JUnsigned(n: nat) | JOther

  /** The `data` member of an event: an object, or some other value. */
  datatype Data = Object(fields: map<string, JsonValue>) | NotObject

  /** A line of the service's standard output, as the JSON parser sees it:
      an event with a type, a message and optional data (JSON null counts
      as absent), or a line that is not an event. */
  datatype Line =
    | Event(eventType: string, message: string, data: Option<Data>)
    | RawLine(text: string)

  /** How launching the training service went. */
  datatype Launch =
    | Launched
    | SerializeFailed(reason: string)
    | SpawnFailed(reason: string)
    | SendFailed(reason: string)

  /** The shared progress record. `lastUpdated` is the clock reading of
      the latest change. */
  datatype Progress = Progress(
    status: TrainingStatus,
    currentStage: string,
    currentStep: nat,
    totalSteps: nat,
    logLines: seq<string>,
    lastUpdated: nat)

  const MaxLogLines: nat := 500
  const TotalSteps: nat := 7
  const StartingStage: string := "Starting..."
  const StartedLine: string := "[INFO] Training started"
  const CancelledLine: string := "[INFO] Training cancelled by user"
  const SuccessLine: string := "[SUCCESS] Training completed successfully"
  const ExitedError: string := "Training process exited unexpectedly"
  const ExitedLine: string := "[ERROR] Training process exited without completion event"

  /** The progress before any training: idle, step 0 of 7, no log. */
  function DefaultProgress(now: nat): (p: Progress)
    ensures p.status == Idle && p.currentStage == [] && p.currentStep == 0
    ensures p.totalSteps == TotalSteps && p.logLines == [] && p.lastUpdated == now
  {
    Progress(Idle, [], 0, TotalSteps, [], now)
  }

  function UnsignedField(d: Data, key: string): Option<nat>
  {
    match d
    case Object(fields) =>
      if key in fields && fields[key].JUnsigned? then Some(fields[key].n) else None
    case NotObject => None
  }

  function StringField(d: Data, key: string): Option<string>
  {
    match d
    case Object(fields) =>
      if key in fields && fields[key].JString? then Some(fields[key].s) else None
    case NotObject => None
  }

  /** The newest `n` lines of a log. */
  function KeepNewest(log: seq<string>, n: nat): (r: seq<string>)
    ensures |r| == if |log| <= n then |log| else n
    ensures log == log[..|log| - |r|] + r
  {
    if |log| > n then log[|log| - n..] else log
  }

  /** The log line an event adds, if any: every event adds one except a
      completion without data. */
  function EventLine(eventType: string, message: string, data: Option<Data>): Option<string>
  {
    if eventType == "STAGE" then Some("[STAGE] " + message)
    else if eventType == "INFO" || eventType == "LOG" then Some("[INFO] " + message)
    else if eventType == "WARNING" then Some("[WARNING] " + message)
    else if eventType == "ERROR" then Some("[ERROR] " + message)
    else if eventType == "COMPLETE" then (if data.Some? then Some(SuccessLine) else None)
    else Some("[" + eventType + "] " + message)
  }

  /** The status after an event. */
  function EventStatus(status: TrainingStatus, eventType: string, message: string,
                       data: Option<Data>): TrainingStatus
  {
    if eventType == "ERROR" then Failed(message)
    else if eventType == "COMPLETE" && data.Some? then
      var d := data.value;
      Completed(StringField(d, "gpt_weights").GetOr([]), StringField(d, "sovits_weights").GetOr([]),
                StringField(d, "reference_audio").GetOr([]), StringField(d, "reference_text").GetOr([]))
    else status
  }

  /** What an event records before the log is cut and the clock set:
      the stage, step and total of a stage event, the new status and the
      event's log line. */
  function Recorded(p: Progress, eventType: string, message: string, data: Option<Data>): Progress
  {
    var isStage := eventType == "STAGE";
    var step := if isStage && data.Some? then UnsignedField(data.value, "current") else None;
    var total := if isStage && data.Some? then UnsignedField(data.value, "total") else None;
    var added := match EventLine(eventType, message, data)
                 case Some(l) => [l]
                 case None => [];
    p.(status := EventStatus(p.status, eventType, message, data),
       currentStage := if isStage then message else p.currentStage,
       currentStep := step.GetOr(p.currentStep), totalSteps := total.GetOr(p.totalSteps),
       logLines := p.logLines + added)
  }

  /** The reducer: one line of output folded into the progress at clock
      reading `now`. */
  function Apply(p: Progress, line: Line, now: nat): Progress
  {
    match line
    case RawLine(text) => p.(logLines := p.logLines + [text], lastUpdated := now)
    case Event(eventType, message, data) =>
      var q := Recorded(p, eventType, message, data);
      q.(logLines := KeepNewest(q.logLines, MaxLogLines), lastUpdated := now)
  }

  /** After any event the log holds at most 500 lines, and they are the
      newest lines: the old log plus the event's own line, cut at the
      front. A line that is not an event is appended with no cut. */
  lemma ApplyLog(p: Progress, line: Line, now: nat)
    ensures var r := Apply(p, line, now);
      match line
      case RawLine(text) => r.logLines == p.logLines + [text]
      case Event(t, m, d) =>
        var added := if EventLine(t, m, d).Some? then [EventLine(t, m, d).value] else [];
        |r.logLines| <= MaxLogLines
        && |r.logLines| == (if |p.logLines| + |added| <= MaxLogLines then |p.logLines| + |added| else MaxLogLines)
        && p.logLines + added == (p.logLines + added)[..|p.logLines| + |added| - |r.logLines|] + r.logLines
  {
  }

  /** An error event fails the training whatever its state was. */
  lemma ErrorFails(p: Progress, message: string, data: Option<Data>, now: nat)
    ensures var r := Apply(p, Event("ERROR", message, data), now);
      r.status == Failed(message) && r.currentStage == p.currentStage
      && r.currentStep == p.currentStep && r.totalSteps == p.totalSteps
      && r.logLines[|r.logLines| - 1] == "[ERROR] " + message
  {
  }

  /** A stage event names the stage and takes the step and total only
      from the fields its data carries. */
  lemma StageProgress(p: Progress, message: string, data: Option<Data>, now: nat)
    ensures var r := Apply(p, Event("STAGE", message, data), now);
      r.status == p.status && r.currentStage == message
      && (data.Some? && UnsignedField(data.value, "current").Some? ==>
            r.currentStep == UnsignedField(data.value, "current").value)
      && (data.None? || UnsignedField(data.value, "current").None? ==> r.currentStep == p.currentStep)
      && (data.Some? && UnsignedField(data.value, "total").Some? ==>
            r.totalSteps == UnsignedField(data.value, "total").value)
      && (data.None? || UnsignedField(data.value, "total").None? ==> r.totalSteps == p.totalSteps)
  {
  }

  /** A completion with data logs the success line last. */
  lemma CompleteLogsSuccess(p: Progress, message: string, d: Data, now: nat)
    ensures var r := Apply(p, Event("COMPLETE", message, Some(d)), now);
      |r.logLines| > 0 && r.logLines[|r.logLines| - 1] == SuccessLine
  {
    var q := Recorded(p, "COMPLETE", message, Some(d));
    assert q.logLines == p.logLines + [SuccessLine];
    KeepNewestLast(q.logLines, MaxLogLines);
  }

  /** A completion without data changes nothing but the clock (the log is
      only cut when already over 500 lines). */
  lemma CompleteWithoutData(p: Progress, message: string, now: nat)
    ensures |p.logLines| <= MaxLogLines ==> Apply(p, Event("COMPLETE", message, None), now) == p.(lastUpdated := now)
  {
    var q := Recorded(p, "COMPLETE", message, None);
    assert q == p;
  }

  /** Cutting a log keeps its newest line. */
  lemma KeepNewestLast(log: seq<string>, n: nat)
    requires |log| > 0 && n > 0
    ensures var r := KeepNewest(log, n); |r| > 0 && r[|r| - 1] == log[|log| - 1]
  {
  }

  /** A completion with data completes the training with its four string
      fields, a missing or non-string field read as empty, and leaves the
      step and total alone. */
  lemma CompleteWithData(p: Progress, message: string, d: Data, now: nat)
    ensures var r := Apply(p, Event("COMPLETE", message, Some(d)), now);
      r.status == Completed(StringField(d, "gpt_weights").GetOr([]), StringField(d, "sovits_weights").GetOr([]),
                            StringField(d, "reference_audio").GetOr([]), StringField(d, "reference_text").GetOr([]))
      && r.currentStep == p.currentStep && r.totalSteps == p.totalSteps
  {
  }

  /** Only error and completion events, and none of the worker's
      transitions here, move the status away from Running. */
  lemma OnlyErrorOrCompleteEndsRun(p: Progress, line: Line, now: nat)
    requires p.status == Running
    requires line.RawLine? || (line.eventType != "ERROR" && line.eventType != "COMPLETE")
    ensures Apply(p, line, now).status == Running
  {
  }

  /** Folding many lines: the reducer applied in order. */
  function ApplyAll(p: Progress, lines: seq<Line>, clock: seq<nat>): Progress
    requires |clock| == |lines|
    decreases |lines|
  {
    if lines == [] then p
    else ApplyAll(Apply(p, lines[0], clock[0]), lines[1..], clock[1..])
  }

  /** Folding one more line after many. */
  lemma {:induction false} ApplyAllSnoc(p: Progress, lines: seq<Line>, clock: seq<nat>, line: Line, now: nat)
    requires |clock| == |lines|
    ensures ApplyAll(p, lines + [line], clock + [now]) == Apply(ApplyAll(p, lines, clock), line, now)
    decreases |lines|
  {
    if lines != [] {
      assert (lines + [line])[1..] == lines[1..] + [line];
      assert (clock + [now])[1..] == clock[1..] + [now];
      ApplyAllSnoc(Apply(p, lines[0], clock[0]), lines[1..], clock[1..], line, now);
    }
  }

  /** Events alone keep any log at most 500 lines long. */
  lemma {:induction false} EventsKeepLogBounded(p: Progress, lines: seq<Line>, clock: seq<nat>)
    requires |clock| == |lines| && |p.logLines| <= MaxLogLines
    requires forall k :: 0 <= k < |lines| ==> lines[k].Event?
    ensures |ApplyAll(p, lines, clock).logLines| <= MaxLogLines
    decreases |lines|
  {
    if lines != [] {
      ApplyLog(p, lines[0], clock[0]);
      EventsKeepLogBounded(Apply(p, lines[0], clock[0]), lines[1..], clock[1..]);
    }
  }

  /** The progress record, the training worker's process handle and the
      clock, as the worker and its output reader update them. */
  class Trainer {
    var status: TrainingStatus
    var currentStage: string
    var currentStep: nat
    var totalSteps: nat
    var logLines: seq<string>
    var lastUpdated: nat
    /** whether the worker holds a training process */
    var hasProcess: bool

    function State(): Progress
      reads this
    {
      Progress(status, currentStage, currentStep, totalSteps, logLines, lastUpdated)
    }

    constructor(now: nat)
      ensures State() == DefaultProgress(now) && !hasProcess
    {
      status, currentStage, currentStep, totalSteps := Idle, [], 0, TotalSteps;
      logLines, lastUpdated := [], now;
      hasProcess := false;
    }

    /** `handle_event`: one line of the service's output. */
    method HandleEvent(line: Line, now: nat)
      modifies this
      ensures State() == Apply(old(State()), line, now)
      ensures hasProcess == old(hasProcess)
    {
      match line
      case RawLine(text) =>
        logLines := logLines + [text];
        lastUpdated := now;
      case Event(eventType, message, data) =>
        Record(eventType, message, data);
        lastUpdated := now;
        if |logLines| > MaxLogLines {
          var drainCount := |logLines| - MaxLogLines;
          logLines := logLines[drainCount..];
        }
    }

    /** The dispatch on the event's type. */
    method Record(eventType: string, message: string, data: Option<Data>)
      modifies this
      ensures State() == Recorded(old(State()), eventType, message, data)
      ensures hasProcess == old(hasProcess)
    {
      if eventType == "STAGE" {
        currentStage := message;
        if data.Some? {
          var current := UnsignedField(data.value, "current");
          if current.Some? {
            currentStep := current.value;
          }
          var total := UnsignedField(data.value, "total");
          if total.Some? {
            totalSteps := total.value;
          }
        }
        logLines := logLines + ["[STAGE] " + message];
      } else if eventType == "INFO" || eventType == "LOG" {
        logLines := logLines + ["[INFO] " + message];
      } else if eventType == "WARNING" {
        logLines := logLines + ["[WARNING] " + message];
      } else if eventType == "ERROR" {
        status := Failed(message);
        logLines := logLines + ["[ERROR] " + message];
      } else if eventType == "COMPLETE" {
        if data.Some? {
          status := EventStatus(status, eventType, message, data);
          logLines := logLines + [SuccessLine];
        }
      } else {
        logLines := logLines + ["[" + eventType + "] " + message];
      }
    }

    /** A start command: any running process is killed, the progress is
        reset to a fresh run, then the service is launched; a launch that
        fails records the failure and leaves no process. */
    method Start(launch: Launch, now: nat)
      modifies this
      ensures hasProcess == launch.Launched?
      ensures currentStage == StartingStage && currentStep == 0 && totalSteps == TotalSteps
      ensures lastUpdated == now
      ensures launch.Launched? ==> status == Running && logLines == [StartedLine]
      ensures launch.SerializeFailed? ==>
        status == Failed("Failed to serialize request: " + launch.reason)
        && logLines == [StartedLine, "[ERROR] " + launch.reason]
      ensures launch.SpawnFailed? ==>
        status == Failed("Failed to spawn training service: " + launch.reason)
        && logLines == [StartedLine, "[ERROR] Failed to start Python: " + launch.reason]
      ensures launch.SendFailed? ==>
        status == Failed("Failed to send request: " + launch.reason)
        && logLines == [StartedLine, "[ERROR] " + launch.reason]
    {
      hasProcess := false;
      status := Running;
      currentStage := StartingStage;
      currentStep := 0;
      totalSteps := TotalSteps;
      logLines := [StartedLine];
      lastUpdated := now;
      match launch
      case Launched =>
        hasProcess := true;
      case SerializeFailed(reason) =>
        status := Failed("Failed to serialize request: " + reason);
        logLines := logLines + ["[ERROR] " + reason];
      case SpawnFailed(reason) =>
        status := Failed("Failed to spawn training service: " + reason);
        logLines := logLines + ["[ERROR] Failed to start Python: " + reason];
      case SendFailed(reason) =>
        status := Failed("Failed to send request: " + reason);
        logLines := logLines + ["[ERROR] " + reason];
    }

    /** A cancel command: with a process, it is killed and the training
        is marked cancelled with one log line; without one nothing changes. */
    method Cancel(now: nat)
      modifies this
      ensures old(hasProcess) ==>
        State() == old(State()).(status := Cancelled, logLines := old(logLines) + [CancelledLine], lastUpdated := now)
      ensures !old(hasProcess) ==> State() == old(State())
      ensures !hasProcess
    {
      if hasProcess {
        hasProcess := false;
        status := Cancelled;
        logLines := logLines + [CancelledLine];
        lastUpdated := now;
      }
    }

    /** The training process closed its output: a run that never reported
        completion or failure has failed. */
    method OutputClosed(now: nat)
      modifies this
      ensures old(status) == Running ==>
        State() == old(State()).(status := Failed(ExitedError), logLines := old(logLines) + [ExitedLine], lastUpdated := now)
      ensures old(status) != Running ==> State() == old(State())
      ensures hasProcess == old(hasProcess)
    {
      if status == Running {
        status := Failed(ExitedError);
        logLines := logLines + [ExitedLine];
        lastUpdated := now;
      }
    }
  }
}

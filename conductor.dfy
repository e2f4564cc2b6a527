/** The Pregel conductor's control plane: the execution record of one run,
    the barrier that merges the workers' step reports into it, the step
    transition with its advance / final pass / stop decision, cleanup and
    timeout, and the two status queries.

    Fan-out to the workers, the deadline-task scheduler, timing bookkeeping
    and the store itself are outside the model: the record is an object and
    every operation on it is one atomic method call. */
module Conductor {
  import opened Wrappers
  import opened Names
  import opened Topology

  /** One worker's contribution to a step's aggregated data (opaque here). */
  type Datum = string

  datatype ExecState = Running | Finished | Error

  /** An error stored on the record: the timeout raised by the deadline
      task, or the error a worker reported, which is either an object or a
      primitive value such as a string. */
  datatype ErrorValue = PregelTimeout | WorkerError(payload: string, isObject: bool)

  /** Errors thrown at a worker whose report is rejected. */
  datatype ReportError = StepMismatch | MessageMalformed | ServerNameMismatch

  /** Error thrown by startExecution when the algorithm does not compile. */
  datatype StartError = BadParameter

  /** What the record knows of one step: the vertices still active and the
      messages sent, summed over the workers, their data in arrival order,
      and whether the step before it had converged. */
  datatype StepSlot = StepSlot(active: int, messages: int, data: seq<Datum>, final: bool)

  const EmptySlot: StepSlot := StepSlot(0, 0, [], false)

  /** A step converged when it left no active vertex and sent no message. */
  predicate Converged(s: StepSlot)
  {
    s.active == 0 && s.messages == 0
  }

  /** A worker's step report; an absent field is `None` (`undefined`), and
      a falsy `error` is `None` too. */
  datatype Report = Report(
    step: Option<int>,
    active: Option<int>,
    messages: Option<int>,
    data: seq<Datum>,
    error: Option<ErrorValue>)

  /** The job-scoped values the record keeps beside itself: the superstep
      and final algorithms (absent when not given), the graph name, and the
      step number the superstep hook is shown. */
  datatype Globals = Globals(
    conductorAlgorithm: Option<string>,
    finalAlgorithm: Option<string>,
    graphName: string,
    step: Option<int>)

  /** A report from `server` closes the barrier: every other server has
      answered already. */
  predicate Closes(awaiting: map<string, bool>, server: string)
  {
    AllAnswered(awaiting[server := true])
  }

  /** The superstep hook: given the globals and the completed slot, the
      globals and slot as it leaves them. */
  type SuperstepHook = (Globals, StepSlot) -> (Globals, StepSlot)

  /** On a coordinator the workers are the cluster's DB servers; a single
      server is its own only worker. */
  datatype ServerRole = Coordinator(dbServers: seq<string>) | SingleServer

  /** What the merge transaction hands back. */
  datatype Checks = Checks(respond: bool, error: Option<ErrorValue>, active: int)

  /** How a step transition continues: an ordinary step, the one-off final
      pass, or cleanup with no error. */
  datatype Decision = Advance | FinalPass | Stop

  /** What an accepted report led to. */
  datatype Transition = Waiting | NextStep(decision: Decision) | Aborted(error: ErrorValue)

  datatype Info = Info(step: int, state: ExecState)

  /** getResult's reply. An error object is returned with the state attached
      to it; a primitive error value cannot carry the state and is returned
      bare; for an errored record without a stored error a TypeError is
      thrown. */
  datatype ResultReply =
    | Reply(graphName: Option<string>, state: ExecState)
    | ErrorReply(error: ErrorValue, state: ExecState)
    | BareError(error: ErrorValue)
    | TypeErrorThrown

  function ServerList(role: ServerRole): seq<string>
  {
    match role
    case Coordinator(servers) => servers
    case SingleServer => ["localhost"]
  }

  /** Every server of the barrier has answered. */
  predicate AllAnswered(awaiting: map<string, bool>)
  {
    forall s :: s in awaiting ==> awaiting[s]
  }

  /** The barrier for a new step: every server, none answered yet. */
  method GetWaitForAnswerMap(role: ServerRole) returns (m: map<string, bool>)
    ensures forall s :: s in m <==> s in ServerList(role)
    ensures forall s :: s in m ==> !m[s]
  {
    var servers := ServerList(role);
    m := map[];
    for i := 0 to |servers|
      invariant forall s :: s in m <==> s in servers[..i]
      invariant forall s :: s in m ==> !m[s]
    {
      m := m[servers[i] := false];
    }
    assert servers[..|servers|] == servers;
  }

  /** The merge transaction's scan of the barrier. */
  method EveryServerResponded(awaiting: map<string, bool>) returns (respond: bool)
    ensures respond <==> AllAnswered(awaiting)
  {
    respond := true;
    var keys := awaiting.Keys;
    while keys != {}
      invariant keys <= awaiting.Keys
      invariant respond <==> forall s :: s in awaiting && s !in keys ==> awaiting[s]
      decreases keys
    {
      var s :| s in keys;
      if !awaiting[s] {
        respond := false;
      }
      keys := keys - {s};
    }
  }

  /** finishedStep's checks of a report, in the order the source makes them. */
  function CheckReport(step: int, awaiting: map<string, bool>, serverName: string, report: Report)
    : (r: Option<ReportError>)
    ensures r == Some(StepMismatch) <==> report.step != Some(step)
    ensures r == Some(MessageMalformed) <==>
      report.step == Some(step) && (report.messages.None? || report.active.None?)
    ensures r == Some(ServerNameMismatch) <==>
      report.step == Some(step) && report.messages.Some? && report.active.Some? && serverName !in awaiting
    ensures r == None <==>
      report.step == Some(step) && report.messages.Some? && report.active.Some? && serverName in awaiting
  {
    if report.step.None? || report.step.value != step then Some(StepMismatch)
    else if report.messages.None? || report.active.None? then Some(MessageMalformed)
    else if serverName !in awaiting then Some(ServerNameMismatch)
    else None
  }

  /** A slot after one report was added to it. */
  function MergeSlot(slot: StepSlot, report: Report): StepSlot
    requires report.active.Some? && report.messages.Some?
  {
    StepSlot(slot.active + report.active.value, slot.messages + report.messages.value,
      slot.data + report.data, slot.final)
  }

  /** The globals and the completed slot after the superstep hook, which
      runs only when a superstep algorithm is configured and is shown the
      number of the step that completed. */
  function Hooked(globals: Globals, completedStep: int, completed: StepSlot, hook: SuperstepHook)
    : (Globals, StepSlot)
  {
    if globals.conductorAlgorithm.Some? then hook(globals.(step := Some(completedStep)), completed)
    else (globals, completed)
  }

  /** initNextStep's choice on the completed slot. */
  function Decide(completed: StepSlot, globals: Globals): Decision
  {
    if completed.active > 0 || completed.messages > 0 then Advance
    else if !completed.final && globals.finalAlgorithm.Some? then FinalPass
    else Stop
  }

  /** With counts that are never negative, an ordinary step follows exactly
      the steps that did not converge; a converged step runs the final pass
      when it was not itself flagged final and a final algorithm is set,
      and otherwise stops. */
  lemma DecideOnCounts(completed: StepSlot, globals: Globals)
    requires completed.active >= 0 && completed.messages >= 0
    ensures Decide(completed, globals) == Advance <==> !Converged(completed)
    ensures Decide(completed, globals) == FinalPass <==>
      Converged(completed) && !completed.final && globals.finalAlgorithm.Some?
    ensures Decide(completed, globals) == Stop <==>
      Converged(completed) && (completed.final || globals.finalAlgorithm.None?)
  {
  }

  /** A slot after a run of reports was added to it, in arrival order. */
  function MergeAll(slot: StepSlot, reports: seq<Report>): StepSlot
    requires forall i :: 0 <= i < |reports| ==> reports[i].active.Some? && reports[i].messages.Some?
    decreases |reports|
  {
    if reports == [] then slot else MergeSlot(MergeAll(slot, Init(reports)), Last(reports))
  }

  /** Reports never change whether a slot is flagged final. */
  lemma {:induction false} MergeAllKeepsFinal(slot: StepSlot, reports: seq<Report>)
    requires forall i :: 0 <= i < |reports| ==> reports[i].active.Some? && reports[i].messages.Some?
    ensures MergeAll(slot, reports).final == slot.final
    decreases |reports|
  {
    if reports != [] {
      MergeAllKeepsFinal(slot, Init(reports));
    }
  }

  /** Without a superstep algorithm, the step a final-pass decision starts is
      flagged final, and whatever its workers report, its own completion
      does not ask for a second final pass at once. A later step can: the
      flag is not kept once a step with activity follows. */
  lemma FinalPassNotImmediatelyRepeated(globals: Globals, completedStep: int, completed: StepSlot,
      hook: SuperstepHook, reports: seq<Report>)
    requires globals.conductorAlgorithm.None?
    requires completed.active >= 0 && completed.messages >= 0
    requires Decide(Hooked(globals, completedStep, completed, hook).1,
      Hooked(globals, completedStep, completed, hook).0) == FinalPass
    requires forall i :: 0 <= i < |reports| ==> reports[i].active.Some? && reports[i].messages.Some?
    ensures var next := MergeAll(StepSlot(0, 0, [], Converged(completed)), reports);
      Decide(Hooked(globals, completedStep + 1, next, hook).1,
        Hooked(globals, completedStep + 1, next, hook).0) != FinalPass
  {
    MergeAllKeepsFinal(StepSlot(0, 0, [], Converged(completed)), reports);
  }

  /** With a superstep algorithm the flag can be wrong: the new slot is
      flagged from the counts before the hook and the decision reads them
      after it, so a hook that clears the counts of an active step yields a
      final pass whose completion asks for a final pass again. */
  lemma FinalPassRepeatsUnderHook()
    ensures
      var hook: SuperstepHook := (g: Globals, s: StepSlot) => (g, s.(active := 0, messages := 0));
      var globals := Globals(Some("superstep"), Some("fin"), "g", None);
      var completed := StepSlot(4, 6, [], false);
      var first := Hooked(globals, 0, completed, hook);
      var next := MergeAll(StepSlot(0, 0, [], Converged(completed)), [Report(Some(1), Some(1), Some(0), [], None)]);
      var second := Hooked(first.0, 1, next, hook);
      Decide(first.1, first.0) == FinalPass && Decide(second.1, second.0) == FinalPass
  {
  }

  /** One Pregel execution as the store keeps it. */
  class ExecutionRecord {
    const key: string
    var step: nat
    var state: ExecState
    var stepContent: seq<StepSlot>
    var waitForAnswer: map<string, bool>
    var error: Option<ErrorValue>
    var timeout: Option<int>
    var graphName: Option<string>
    var globals: Globals

    /** A slot for every step so far, and the slot the running step's
        reports are merged into. */
    ghost predicate Valid()
      reads this
    {
      |stepContent| == step + 2
    }

    /** The record startExecution saves. A zero timeout is not stored. */
    constructor Start(key: string, role: ServerRole, vertexCount: int, graphName: string,
        conductorAlgorithm: Option<string>, finalAlgorithm: Option<string>, timeout: Option<int>)
      ensures Valid()
      ensures this.key == key && step == 0 && state == Running
      ensures stepContent == [StepSlot(vertexCount, 0, [], false), EmptySlot]
      ensures forall s :: s in waitForAnswer <==> s in ServerList(role)
      ensures forall s :: s in waitForAnswer ==> !waitForAnswer[s]
      ensures this.timeout == if timeout.Some? && timeout.value != 0 then timeout else None
      ensures error == None && this.graphName == None
      ensures globals == Globals(conductorAlgorithm, finalAlgorithm, graphName, None)
    {
      var awaiting := GetWaitForAnswerMap(role);
      this.key := key;
      waitForAnswer := awaiting;
      step := 0;
      this.timeout := if timeout.Some? && timeout.value != 0 then timeout else None;
      state := Running;
      stepContent := [StepSlot(vertexCount, 0, [], false), EmptySlot];
      error := None;
      this.graphName := None;
      globals := Globals(conductorAlgorithm, finalAlgorithm, graphName, None);
    }

    /** The merge transaction: add the report to the next slot, store its
        error (overwriting any earlier one), mark the server as answered and
        scan the barrier. */
    method ApplyReport(serverName: string, report: Report) returns (checks: Checks)
      requires Valid()
      requires report.active.Some? && report.messages.Some?
      modifies this
      ensures Valid()
      ensures step == old(step) && state == old(state) && globals == old(globals)
      ensures graphName == old(graphName) && timeout == old(timeout)
      ensures stepContent == old(stepContent)[step + 1 := MergeSlot(old(stepContent)[step + 1], report)]
      ensures error == report.error
      ensures waitForAnswer == old(waitForAnswer)[serverName := true]
      ensures checks == Checks(AllAnswered(waitForAnswer), report.error, stepContent[step + 1].active)
    {
      var slot := stepContent[step + 1];
      slot := slot.(messages := slot.messages + report.messages.value);
      slot := slot.(active := slot.active + report.active.value);
      slot := slot.(data := slot.data + report.data);
      stepContent := stepContent[step + 1 := slot];
      error := report.error;
      waitForAnswer := waitForAnswer[serverName := true];
      var respond := EveryServerResponded(waitForAnswer);
      checks := Checks(respond, error, slot.active);
    }

    /** cleanUp's update of the record: finished, or error with the error
        stored. There is no guard against a record that already ended. */
    method CleanUp(err: Option<ErrorValue>)
      requires Valid()
      modifies this
      ensures Valid()
      ensures state == if err.Some? then Error else Finished
      ensures error == if err.Some? then err else old(error)
      ensures step == old(step) && stepContent == old(stepContent) && waitForAnswer == old(waitForAnswer)
      ensures globals == old(globals) && graphName == old(graphName) && timeout == old(timeout)
    {
      state := Finished;
      if err.Some? {
        state := Error;
        error := err;
      }
    }

    /** The deadline task fired: clean up with the timeout error. */
    method TimeOutExecution()
      requires Valid()
      modifies this
      ensures Valid()
      ensures state == Error && error == Some(PregelTimeout)
      ensures step == old(step) && stepContent == old(stepContent) && waitForAnswer == old(waitForAnswer)
      ensures globals == old(globals) && graphName == old(graphName) && timeout == old(timeout)
    {
      CleanUp(Some(PregelTimeout));
    }

    /** Moves to the next step once its barrier closed: a new slot flagged
        final when the completed one converged, a fresh barrier, the
        superstep hook, then the decision; a stop cleans up without error. */
    method InitNextStep(role: ServerRole, hook: SuperstepHook) returns (d: Decision)
      requires Valid()
      modifies this
      ensures Valid()
      ensures step == old(step) + 1
      ensures stepContent == old(stepContent) + [StepSlot(0, 0, [], Converged(old(stepContent)[old(step) + 1]))]
      ensures forall s :: s in waitForAnswer <==> s in ServerList(role)
      ensures forall s :: s in waitForAnswer ==> !waitForAnswer[s]
      ensures globals == Hooked(old(globals), old(step), old(stepContent)[old(step) + 1], hook).0
      ensures d == Decide(Hooked(old(globals), old(step), old(stepContent)[old(step) + 1], hook).1, globals)
      ensures state == if d == Stop then Finished else old(state)
      ensures error == old(error) && graphName == old(graphName) && timeout == old(timeout)
      ensures
        && old(globals).conductorAlgorithm.None? && d == FinalPass
        && old(stepContent)[old(step) + 1].active >= 0 && old(stepContent)[old(step) + 1].messages >= 0
        ==> stepContent[step + 1].final
    {
      step := step + 1;
      var completed := stepContent[step];
      stepContent := stepContent + [StepSlot(0, 0, [], completed.active == 0 && completed.messages == 0)];
      waitForAnswer := GetWaitForAnswerMap(role);
      if globals.conductorAlgorithm.Some? {
        var hooked := hook(globals.(step := Some(step - 1)), completed);
        globals := hooked.0;
        completed := hooked.1;
      }
      d := Decide(completed, globals);
      if d == Stop {
        CleanUp(None);
      }
    }

    /** A worker reports the end of a step. A rejected report leaves the
        record as it was. An accepted one is merged; when the barrier then
        closes, the record moves to the next step if the report carried no
        error, and is cleaned up with the report's error otherwise. */
    method FinishedStep(serverName: string, report: Report, role: ServerRole, hook: SuperstepHook)
      returns (outcome: Result<Transition, ReportError>)
      requires Valid()
      modifies this
      ensures Valid()
      ensures var rejected := CheckReport(old(step), old(waitForAnswer), serverName, report);
        (outcome.Failure? <==> rejected.Some?) &&
        (rejected.Some? ==> outcome == Failure(rejected.value) && unchanged(this))
      ensures outcome.Success? ==>
        && old(step) + 2 <= |stepContent|
        && stepContent[..old(step) + 2] ==
             old(stepContent)[old(step) + 1 := MergeSlot(old(stepContent)[old(step) + 1], report)]
      ensures outcome.Success? && !Closes(old(waitForAnswer), serverName) ==>
        && outcome.value == Waiting
        && step == old(step) && |stepContent| == old(|stepContent|) && state == old(state)
        && error == report.error && waitForAnswer == old(waitForAnswer)[serverName := true]
        && globals == old(globals)
      ensures outcome.Success? && Closes(old(waitForAnswer), serverName) && report.error.Some? ==>
        && outcome.value == Aborted(report.error.value)
        && step == old(step) && |stepContent| == old(|stepContent|) && state == Error
        && error == report.error && waitForAnswer == old(waitForAnswer)[serverName := true]
        && globals == old(globals)
      ensures outcome.Success? && Closes(old(waitForAnswer), serverName) && report.error.None? ==>
        var merged := MergeSlot(old(stepContent)[old(step) + 1], report);
        var hooked := Hooked(old(globals), old(step), merged, hook);
        && outcome.value == NextStep(Decide(hooked.1, hooked.0))
        && globals == hooked.0
        && step == old(step) + 1
        && stepContent[old(step) + 2] == StepSlot(0, 0, [], Converged(merged))
        && (forall s :: s in waitForAnswer <==> s in ServerList(role))
        && (forall s :: s in waitForAnswer ==> !waitForAnswer[s])
        && state == (if outcome.value.decision == Stop then Finished else old(state))
        && error == None
      ensures graphName == old(graphName) && timeout == old(timeout)
    {
      var rejected := CheckReport(step, waitForAnswer, serverName, report);
      if rejected.Some? {
        return Failure(rejected.value);
      }
      var checks := ApplyReport(serverName, report);
      if checks.respond && checks.error.None? {
        var d := InitNextStep(role, hook);
        outcome := Success(NextStep(d));
      } else if checks.respond {
        CleanUp(checks.error);
        outcome := Success(Aborted(checks.error.value));
      } else {
        outcome := Success(Waiting);
      }
    }

    /** getResult: the result graph's name once finished, an empty name
        while running, and otherwise the stored error with the state. */
    function GetResult(): (r: ResultReply)
      reads this
      ensures r.Reply? <==> state != Error
      ensures state == Finished ==> r == Reply(graphName, Finished)
      ensures state == Running ==> r == Reply(Some(""), Running)
      ensures state == Error && error.Some? && (error.value.PregelTimeout? || error.value.isObject) ==>
        r == ErrorReply(error.value, Error)
      ensures state == Error && error.Some? && error.value.WorkerError? && !error.value.isObject ==>
        r == BareError(error.value)
      ensures state == Error && error.None? ==> r == TypeErrorThrown
    {
      match state
      case Finished => Reply(graphName, state)
      case Running => Reply(Some(""), state)
      case Error =>
        if error.None? then TypeErrorThrown
        else if error.value.WorkerError? && !error.value.isObject then BareError(error.value)
        else ErrorReply(error.value, state)
    }

    /** getInfo: the current step and state. */
    function GetInfo(): (r: Info)
      reads this
      ensures r.step == step && r.state == state
    {
      Info(step, state)
    }
  }

  /** startExecution: save the record, check that the algorithm compiles
      (the record stays saved when it does not), then build the result graph
      mapping that is sent with the first step and store the result graph's
      name. On a single server the collections take the one-shard shape of
      `LocalCollection`. */
  method StartExecution(key: string, graphName: string, role: ServerRole, vertexCount: int,
      algorithmCompiles: bool, conductorAlgorithm: Option<string>, finalAlgorithm: Option<string>,
      timeout: Option<int>, collections: seq<CollectionProps>)
    returns (rec: ExecutionRecord, outcome: Result<ResultGraphMap, StartError>)
    ensures fresh(rec) && rec.Valid()
    ensures rec.key == key && rec.step == 0 && rec.state == Running && rec.error == None
    ensures rec.stepContent == [StepSlot(vertexCount, 0, [], false), EmptySlot]
    ensures forall s :: s in rec.waitForAnswer <==> s in ServerList(role)
    ensures forall s :: s in rec.waitForAnswer ==> !rec.waitForAnswer[s]
    ensures rec.globals == Globals(conductorAlgorithm, finalAlgorithm, graphName, None)
    ensures rec.timeout == if timeout.Some? && timeout.value != 0 then timeout else None
    ensures !algorithmCompiles ==> outcome == Failure(BadParameter) && rec.graphName == None
    ensures algorithmCompiles ==>
      && outcome == Success(ResultGraphOf(key, PlacedCollections(role.Coordinator?, key, collections)))
      && rec.graphName == Some(ResultCollectionName(graphName, key))
  {
    rec := new ExecutionRecord.Start(key, role, vertexCount, graphName,
      conductorAlgorithm, finalAlgorithm, timeout);
    if !algorithmCompiles {
      return rec, Failure(BadParameter);
    }
    var topology := CreateResultGraph(key, PlacedCollections(role.Coordinator?, key, collections));
    rec.graphName := Some(ResultCollectionName(graphName, key));
    outcome := Success(topology);
  }
}

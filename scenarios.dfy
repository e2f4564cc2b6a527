/** Clients of the execution record. Each replays a run through the record's
    contracts alone: ordinary runs, and the corners of the conductor's code
    (an error cleared by a later report, a repeated report counted twice, a
    report merged after a timeout, a timeout after a finish). */
module ConductorScenarios {
  import opened Wrappers
  import opened Conductor

  function NoHook(): SuperstepHook
  {
    (g: Globals, s: StepSlot) => (g, s)
  }

  function Counts(step: int, active: int, messages: int): Report
  {
    Report(Some(step), Some(active), Some(messages), [], None)
  }

  /** One worker, 10 vertices; its step-0 report moves the record to step 1. */
  method SingleWorkerAdvances()
  {
    var rec := new ExecutionRecord.Start("1", SingleServer, 10, "g", None, None, None);
    var out := rec.FinishedStep("localhost", Counts(0, 4, 6), SingleServer, NoHook());
    assert out == Success(NextStep(Advance));
    assert rec.step == 1 && rec.state == Running;
    assert rec.stepContent[1] == StepSlot(4, 6, [], false);
    assert rec.stepContent[2] == EmptySlot;
  }

  /** Two workers both report convergence: the first report only waits, the
      second closes the barrier and the run finishes; a repeat of the first
      report is then stale. */
  method TwoWorkersConverge()
  {
    var globals := Globals(None, None, "g", None);
    var merged := MergeSlot(MergeSlot(EmptySlot, Counts(0, 0, 0)), Counts(0, 0, 0));
    assert merged == EmptySlot;
    assert Hooked(globals, 0, merged, NoHook()) == (globals, merged);
    assert Decide(merged, globals) == Stop;
    var role := Coordinator(["a", "b"]);
    var rec := new ExecutionRecord.Start("2", role, 5, "g", None, None, None);
    assert "b" in ServerList(role) && "b" in rec.waitForAnswer;
    assert rec.waitForAnswer["a" := true]["b"] == false;
    assert CheckReport(0, rec.waitForAnswer, "a", Counts(0, 0, 0)) == None;
    var out := rec.FinishedStep("a", Counts(0, 0, 0), role, NoHook());
    assert out == Success(Waiting);
    assert rec.state == Running && rec.step == 0 && rec.globals == globals;
    assert forall s :: s in rec.waitForAnswer ==> s == "a" || s == "b";
    assert Closes(rec.waitForAnswer, "b");
    assert CheckReport(0, rec.waitForAnswer, "b", Counts(0, 0, 0)) == None;
    out := rec.FinishedStep("b", Counts(0, 0, 0), role, NoHook());
    assert out == Success(NextStep(Stop));
    assert rec.state == Finished && rec.step == 1;
    out := rec.FinishedStep("a", Counts(0, 0, 0), role, NoHook());
    assert out == Failure(StepMismatch);
    assert rec.GetResult() == Reply(None, Finished);
  }

  /** A worker error ends the run with that error; an error object is
      returned by getResult with the state attached. */
  method WorkerErrorEndsRun()
  {
    var rec := new ExecutionRecord.Start("3", SingleServer, 10, "g", None, None, None);
    var boom := WorkerError("boom", true);
    var out := rec.FinishedStep("localhost", Report(Some(0), Some(0), Some(0), [], Some(boom)),
      SingleServer, NoHook());
    assert out == Success(Aborted(boom));
    assert rec.state == Error && rec.error == Some(boom);
    assert rec.GetResult() == ErrorReply(boom, Error);
  }

  /** A primitive error value cannot carry the state: getResult returns it
      bare. */
  method PrimitiveWorkerErrorReturnedBare()
  {
    var rec := new ExecutionRecord.Start("11", SingleServer, 10, "g", None, None, None);
    var boom := WorkerError("boom", false);
    var out := rec.FinishedStep("localhost", Report(Some(0), Some(0), Some(0), [], Some(boom)),
      SingleServer, NoHook());
    assert out == Success(Aborted(boom));
    assert rec.GetResult() == BareError(boom);
  }

  /** Rejected reports: wrong step, missing counts, unknown server. */
  method RejectedReports()
  {
    var rec := new ExecutionRecord.Start("4", SingleServer, 10, "g", None, None, None);
    var out := rec.FinishedStep("localhost", Counts(1, 4, 6), SingleServer, NoHook());
    assert out == Failure(StepMismatch);
    out := rec.FinishedStep("localhost", Report(Some(0), None, Some(6), [], None), SingleServer, NoHook());
    assert out == Failure(MessageMalformed);
    out := rec.FinishedStep("elsewhere", Counts(0, 4, 6), SingleServer, NoHook());
    assert out == Failure(ServerNameMismatch);
    assert rec.step == 0 && rec.stepContent[1] == EmptySlot && rec.waitForAnswer["localhost"] == false;
  }

  /** With a final algorithm, a converged step is followed by one final
      pass, and a converged final pass stops. */
  method FinalPassThenStop()
  {
    var globals := Globals(None, Some("fin"), "g", None);
    var merged0 := MergeSlot(EmptySlot, Counts(0, 0, 0));
    assert merged0 == EmptySlot;
    assert Hooked(globals, 0, merged0, NoHook()) == (globals, merged0);
    assert Decide(merged0, globals) == FinalPass;
    var merged1 := MergeSlot(StepSlot(0, 0, [], true), Counts(1, 0, 0));
    assert merged1 == StepSlot(0, 0, [], true);
    assert Hooked(globals, 1, merged1, NoHook()) == (globals, merged1);
    assert Decide(merged1, globals) == Stop;
    var rec := new ExecutionRecord.Start("5", SingleServer, 10, "g", None, Some("fin"), None);
    assert Closes(rec.waitForAnswer, "localhost");
    assert CheckReport(0, rec.waitForAnswer, "localhost", Counts(0, 0, 0)) == None;
    var out := rec.FinishedStep("localhost", Counts(0, 0, 0), SingleServer, NoHook());
    assert out == Success(NextStep(FinalPass));
    assert rec.step == 1 && rec.stepContent[2] == StepSlot(0, 0, [], true);
    assert rec.globals == globals;
    assert Closes(rec.waitForAnswer, "localhost");
    assert CheckReport(1, rec.waitForAnswer, "localhost", Counts(1, 0, 0)) == None;
    out := rec.FinishedStep("localhost", Counts(1, 0, 0), SingleServer, NoHook());
    assert out == Success(NextStep(Stop));
    assert rec.state == Finished;
  }

  /** The final pass does not stop the run by itself: when it reports
      activity, an ordinary step follows. */
  method FinalPassWithActivityContinues()
  {
    var globals := Globals(None, Some("fin"), "g", None);
    var merged0 := MergeSlot(EmptySlot, Counts(0, 0, 0));
    assert merged0 == EmptySlot;
    assert Hooked(globals, 0, merged0, NoHook()) == (globals, merged0);
    assert Decide(merged0, globals) == FinalPass;
    var merged1 := MergeSlot(StepSlot(0, 0, [], true), Counts(1, 3, 0));
    assert merged1 == StepSlot(3, 0, [], true);
    assert Hooked(globals, 1, merged1, NoHook()) == (globals, merged1);
    assert Decide(merged1, globals) == Advance;
    var rec := new ExecutionRecord.Start("6", SingleServer, 10, "g", None, Some("fin"), None);
    assert Closes(rec.waitForAnswer, "localhost");
    assert CheckReport(0, rec.waitForAnswer, "localhost", Counts(0, 0, 0)) == None;
    var out := rec.FinishedStep("localhost", Counts(0, 0, 0), SingleServer, NoHook());
    assert out == Success(NextStep(FinalPass));
    assert rec.step == 1 && rec.stepContent[2] == StepSlot(0, 0, [], true);
    assert rec.globals == globals;
    assert Closes(rec.waitForAnswer, "localhost");
    assert CheckReport(1, rec.waitForAnswer, "localhost", Counts(1, 3, 0)) == None;
    out := rec.FinishedStep("localhost", Counts(1, 3, 0), SingleServer, NoHook());
    assert out == Success(NextStep(Advance));
    assert rec.step == 2 && rec.state == Running;
  }

  /** Each report overwrites the record's error, so a worker error followed
      by a clean report from the last worker is lost and the run goes on. */
  method LaterReportClearsError()
  {
    var globals := Globals(None, None, "g", None);
    var failed := Report(Some(0), Some(1), Some(0), [], Some(WorkerError("boom", true)));
    var merged := MergeSlot(MergeSlot(EmptySlot, failed), Counts(0, 1, 0));
    assert merged == StepSlot(2, 0, [], false);
    assert Hooked(globals, 0, merged, NoHook()) == (globals, merged);
    assert Decide(merged, globals) == Advance;
    var role := Coordinator(["a", "b"]);
    var rec := new ExecutionRecord.Start("7", role, 5, "g", None, None, None);
    assert "b" in ServerList(role) && "b" in rec.waitForAnswer;
    assert rec.waitForAnswer["a" := true]["b"] == false;
    assert CheckReport(0, rec.waitForAnswer, "a", failed) == None;
    var out := rec.FinishedStep("a", failed, role, NoHook());
    assert out == Success(Waiting);
    assert rec.error == Some(WorkerError("boom", true));
    assert rec.state == Running && rec.step == 0 && rec.globals == globals;
    assert forall s :: s in rec.waitForAnswer ==> s == "a" || s == "b";
    assert Closes(rec.waitForAnswer, "b");
    assert CheckReport(0, rec.waitForAnswer, "b", Counts(0, 1, 0)) == None;
    out := rec.FinishedStep("b", Counts(0, 1, 0), role, NoHook());
    assert out == Success(NextStep(Advance));
    assert rec.state == Running && rec.error == None;
  }

  /** The barrier does not reject a second report from a server that has
      already answered: its counts are added twice. */
  method DuplicateReportCountedTwice()
  {
    var role := Coordinator(["a", "b"]);
    var rec := new ExecutionRecord.Start("8", role, 5, "g", None, None, None);
    assert "b" in ServerList(role) && "b" in rec.waitForAnswer;
    assert rec.waitForAnswer["a" := true]["b"] == false;
    assert CheckReport(0, rec.waitForAnswer, "a", Counts(0, 2, 3)) == None;
    var out := rec.FinishedStep("a", Counts(0, 2, 3), role, NoHook());
    assert out == Success(Waiting);
    assert "b" in rec.waitForAnswer;
    assert rec.waitForAnswer["a" := true]["b"] == false;
    assert CheckReport(0, rec.waitForAnswer, "a", Counts(0, 2, 3)) == None;
    out := rec.FinishedStep("a", Counts(0, 2, 3), role, NoHook());
    assert out == Success(Waiting);
    assert rec.stepContent[1].active == 4 && rec.stepContent[1].messages == 6;
  }

  /** A report that arrives after the deadline fired is still merged: the
      timed-out run moves on to its next step, its state stays error and the
      timeout is overwritten, so getResult then throws. */
  method ReportAfterTimeout()
  {
    var globals := Globals(None, None, "g", None);
    var merged := MergeSlot(EmptySlot, Counts(0, 4, 6));
    assert merged == StepSlot(4, 6, [], false);
    assert Hooked(globals, 0, merged, NoHook()) == (globals, merged);
    assert Decide(merged, globals) == Advance;
    var rec := new ExecutionRecord.Start("9", SingleServer, 10, "g", None, None, None);
    rec.TimeOutExecution();
    assert rec.GetResult() == ErrorReply(PregelTimeout, Error);
    assert Closes(rec.waitForAnswer, "localhost");
    assert CheckReport(0, rec.waitForAnswer, "localhost", Counts(0, 4, 6)) == None;
    var out := rec.FinishedStep("localhost", Counts(0, 4, 6), SingleServer, NoHook());
    assert out == Success(NextStep(Advance));
    assert rec.step == 1 && rec.state == Error && rec.error == None;
    assert rec.GetResult() == TypeErrorThrown;
  }

  /** A timeout after a normal finish turns the finished run into an error. */
  method TimeoutAfterFinish()
  {
    var globals := Globals(None, None, "g", None);
    var merged := MergeSlot(EmptySlot, Counts(0, 0, 0));
    assert merged == EmptySlot;
    assert Hooked(globals, 0, merged, NoHook()) == (globals, merged);
    assert Decide(merged, globals) == Stop;
    var rec := new ExecutionRecord.Start("10", SingleServer, 10, "g", None, None, None);
    assert Closes(rec.waitForAnswer, "localhost");
    assert CheckReport(0, rec.waitForAnswer, "localhost", Counts(0, 0, 0)) == None;
    var out := rec.FinishedStep("localhost", Counts(0, 0, 0), SingleServer, NoHook());
    assert out == Success(NextStep(Stop));
    assert rec.state == Finished;
    rec.TimeOutExecution();
    assert rec.state == Error && rec.GetInfo() == Info(1, Error);
  }

  /** A superstep hook that clears the counts makes an active step look
      converged to the decision while the next slot is flagged from the
      counts before the hook: the final pass then runs twice. */
  method FinalPassTwiceUnderHook()
  {
    var hook: SuperstepHook := (g: Globals, s: StepSlot) => (g, s.(active := 0, messages := 0));
    var globals := Globals(Some("h"), Some("fin"), "g", None);
    var merged0 := MergeSlot(EmptySlot, Counts(0, 4, 6));
    assert merged0 == StepSlot(4, 6, [], false);
    var hooked0 := Hooked(globals, 0, merged0, hook);
    assert hooked0 == (globals.(step := Some(0)), StepSlot(0, 0, [], false));
    assert Decide(hooked0.1, hooked0.0) == FinalPass;
    var merged1 := MergeSlot(StepSlot(0, 0, [], false), Counts(1, 1, 0));
    assert merged1 == StepSlot(1, 0, [], false);
    var hooked1 := Hooked(hooked0.0, 1, merged1, hook);
    assert hooked1 == (globals.(step := Some(1)), StepSlot(0, 0, [], false));
    assert Decide(hooked1.1, hooked1.0) == FinalPass;
    var rec := new ExecutionRecord.Start("12", SingleServer, 10, "g", Some("h"), Some("fin"), None);
    assert Closes(rec.waitForAnswer, "localhost");
    assert CheckReport(0, rec.waitForAnswer, "localhost", Counts(0, 4, 6)) == None;
    var out := rec.FinishedStep("localhost", Counts(0, 4, 6), SingleServer, hook);
    assert out == Success(NextStep(FinalPass));
    assert rec.step == 1 && rec.stepContent[2] == StepSlot(0, 0, [], false);
    assert rec.globals == hooked0.0;
    assert Closes(rec.waitForAnswer, "localhost");
    assert CheckReport(1, rec.waitForAnswer, "localhost", Counts(1, 1, 0)) == None;
    out := rec.FinishedStep("localhost", Counts(1, 1, 0), SingleServer, hook);
    assert out == Success(NextStep(FinalPass));
  }

  /** A final pass that reports activity is followed by an ordinary step,
      whose slot is not flagged final; when that step converges, the final
      pass runs a second time, with no superstep hook involved. */
  method FinalPassRunsAgainAfterActivity()
  {
    var globals := Globals(None, Some("fin"), "g", None);
    var merged0 := MergeSlot(EmptySlot, Counts(0, 0, 0));
    assert merged0 == EmptySlot;
    assert Hooked(globals, 0, merged0, NoHook()) == (globals, merged0);
    assert Decide(merged0, globals) == FinalPass;
    var merged1 := MergeSlot(StepSlot(0, 0, [], true), Counts(1, 3, 0));
    assert merged1 == StepSlot(3, 0, [], true);
    assert Hooked(globals, 1, merged1, NoHook()) == (globals, merged1);
    assert Decide(merged1, globals) == Advance;
    var merged2 := MergeSlot(EmptySlot, Counts(2, 0, 0));
    assert merged2 == EmptySlot;
    assert Hooked(globals, 2, merged2, NoHook()) == (globals, merged2);
    assert Decide(merged2, globals) == FinalPass;
    var rec := new ExecutionRecord.Start("13", SingleServer, 10, "g", None, Some("fin"), None);
    assert Closes(rec.waitForAnswer, "localhost");
    assert CheckReport(0, rec.waitForAnswer, "localhost", Counts(0, 0, 0)) == None;
    var out := rec.FinishedStep("localhost", Counts(0, 0, 0), SingleServer, NoHook());
    assert out == Success(NextStep(FinalPass));
    assert rec.step == 1 && rec.stepContent[2] == StepSlot(0, 0, [], true);
    assert rec.globals == globals;
    assert Closes(rec.waitForAnswer, "localhost");
    assert CheckReport(1, rec.waitForAnswer, "localhost", Counts(1, 3, 0)) == None;
    out := rec.FinishedStep("localhost", Counts(1, 3, 0), SingleServer, NoHook());
    assert out == Success(NextStep(Advance));
    assert rec.step == 2 && rec.stepContent[3] == EmptySlot;
    assert rec.globals == globals;
    assert Closes(rec.waitForAnswer, "localhost");
    assert CheckReport(2, rec.waitForAnswer, "localhost", Counts(2, 0, 0)) == None;
    out := rec.FinishedStep("localhost", Counts(2, 0, 0), SingleServer, NoHook());
    assert out == Success(NextStep(FinalPass));
    assert rec.step == 3 && rec.state == Running;
  }

  /** After a worker error the step and the barrier stay as they were, every
      server marked answered; a repeated error-free report for that step
      closes the barrier again, and the errored run can end finished with
      its error cleared. */
  method AbortedRunFinishedByLateReport()
  {
    var globals := Globals(None, None, "g", None);
    var boom := WorkerError("boom", true);
    var failed := Report(Some(0), Some(0), Some(0), [], Some(boom));
    var merged := MergeSlot(MergeSlot(EmptySlot, failed), Counts(0, 0, 0));
    assert merged == EmptySlot;
    assert Hooked(globals, 0, merged, NoHook()) == (globals, merged);
    assert Decide(merged, globals) == Stop;
    var rec := new ExecutionRecord.Start("14", SingleServer, 10, "g", None, None, None);
    assert Closes(rec.waitForAnswer, "localhost");
    assert CheckReport(0, rec.waitForAnswer, "localhost", failed) == None;
    var out := rec.FinishedStep("localhost", failed, SingleServer, NoHook());
    assert out == Success(Aborted(boom));
    assert rec.state == Error && rec.error == Some(boom) && rec.step == 0;
    assert rec.globals == globals;
    assert rec.waitForAnswer == map["localhost" := true];
    assert Closes(rec.waitForAnswer, "localhost");
    assert CheckReport(0, rec.waitForAnswer, "localhost", Counts(0, 0, 0)) == None;
    out := rec.FinishedStep("localhost", Counts(0, 0, 0), SingleServer, NoHook());
    assert out == Success(NextStep(Stop));
    assert rec.state == Finished && rec.error == None;
  }
}

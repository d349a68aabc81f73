/**
 The bound on repeated fixes within one turn: test_step and run_draft charge failures to steps, and refuse a step, or
 further runs, once a step's count has reached the bound.
 */
module FixBound {
  import opened Protocol
  import opened JsMaps

  const MAX_FIX_ATTEMPTS: nat := 2

  datatype TestOutcome = TestPasses | TestFails(detail: string) | TestThrows
  datatype RunStep = RunStep(nodeId: Option<string>, failed: bool, error: Option<string>)
  /** `record` is `None` when the run's record could not be read. */
  datatype RunOutcome = RunPasses(outputs: seq<string>) | RunFails(record: Option<seq<RunStep>>) | RunThrows

  datatype Call =
    | TestStep(nodeId: string, inDraft: bool, testOutcome: TestOutcome)
    | RunDraft(emptyDraft: bool, runOutcome: RunOutcome)

  /** What a turn keeps: failures per step, in order of the first, and the step the last failed run stopped at. */
  datatype Fixes = Fixes(attempts: JsMap<nat>, lastFailed: Option<string>)

  const NO_FIXES := Fixes(Empty(), None)

  function CountOf(f: Fixes, id: string): nat {
    if id in f.attempts.at then f.attempts.at[id] else 0
  }

  predicate Refused(f: Fixes, call: Call) {
    match call
    case TestStep(id, inDraft, _) => !inDraft || CountOf(f, id) >= MAX_FIX_ATTEMPTS
    case RunDraft(emptyDraft, _) =>
      || emptyDraft
      || (f.lastFailed.Some? && f.lastFailed.value != "" && CountOf(f, f.lastFailed.value) >= MAX_FIX_ATTEMPTS)
  }

  predicate Named(step: RunStep) {
    step.nodeId.Some? && step.nodeId.value != ""
  }

  /** The first step of a record that failed. */
  function FirstFailed(steps: seq<RunStep>): Option<string> {
    if steps == [] then None
    else
      var before, last := FirstFailed(steps[..|steps| - 1]), steps[|steps| - 1];
      if before.None? && Named(last) && last.failed then last.nodeId else before
  }

  function Slice200(s: string): string {
    if |s| > 200 then s[..200] else s
  }

  /** One result per named step of the record. */
  function Beads(steps: seq<RunStep>): seq<Event> {
    if steps == [] then []
    else
      var last := steps[|steps| - 1];
      Beads(steps[..|steps| - 1]) + (if Named(last) then [Bead(last)] else [])
  }

  function Bead(step: RunStep): Event
    requires Named(step)
  {
    StepResult(step.nodeId.value, if step.failed then Failed else Passed,
      if step.failed && step.error.Some? && step.error.value != "" then Some(Slice200(step.error.value)) else None)
  }

  /** One passed result per output, the trigger's aside. */
  function PassedBeads(outputs: seq<string>): seq<Event> {
    if outputs == [] then []
    else
      var last := outputs[|outputs| - 1];
      PassedBeads(outputs[..|outputs| - 1]) + (if last == "trigger" then [] else [StepResult(last, Passed, None)])
  }

  /** The step a call's failure is charged to, if any. */
  function Charged(f: Fixes, call: Call): Option<string> {
    if Refused(f, call) then None
    else
      match call
      case TestStep(id, _, TestFails(_)) => Some(id)
      case RunDraft(_, RunFails(Some(steps))) => FirstFailed(steps)
      case _ => None
  }

  function Charge(f: Fixes, id: string): Fixes {
    f.(attempts := f.attempts.Set(id, CountOf(f, id) + 1))
  }

  function FixStepped(f: Fixes, call: Call): Fixes {
    var charged := Charged(f, call);
    var f' := if charged.Some? then Charge(f, charged.value) else f;
    if Refused(f, call) || call.TestStep? then f'
    else if call.runOutcome.RunPasses? then f'.(lastFailed := None)
    else if charged.Some? then f'.(lastFailed := charged)
    else f'
  }

  function FixRun(calls: seq<Call>): Fixes {
    if calls == [] then NO_FIXES else FixStepped(FixRun(calls[..|calls| - 1]), calls[|calls| - 1])
  }

  /** How many of the calls charged a failure. */
  function Failures(calls: seq<Call>): nat {
    if calls == [] then 0
    else
      var before := calls[..|calls| - 1];
      Failures(before) + if Charged(FixRun(before), calls[|calls| - 1]).Some? then 1 else 0
  }

  // ---- The handlers ----------------------------------------------------------------------------

  /** The fields of a session the tools count in. */
  class ToolSession {
    var fixAttempts: JsMap<nat>
    var lastFailedNodeId: Option<string>

    ghost function State(): Fixes
      reads this
    {
      Fixes(fixAttempts, lastFailedNodeId)
    }

    /** A turn starts with nothing charged. */
    constructor ()
      ensures State() == NO_FIXES
    {
      fixAttempts, lastFailedNodeId := Empty(), None;
    }

    /** The next turn does so again. */
    method NewTurn()
      modifies this
      ensures State() == NO_FIXES
    {
      fixAttempts, lastFailedNodeId := Empty(), None;
    }

    method RunTestStep(nodeId: string, inDraft: bool, outcome: TestOutcome) returns (isError: bool, emitted: seq<Event>)
      modifies this
      ensures State() == FixStepped(old(State()), TestStep(nodeId, inDraft, outcome))
      ensures isError <==> Refused(old(State()), TestStep(nodeId, inDraft, outcome)) || outcome.TestThrows?
      ensures emitted == if isError then []
        else if outcome.TestPasses? then [StepResult(nodeId, Passed, None)]
        else [StepResult(nodeId, Failed,
          Some(outcome.detail[..if |outcome.detail| < 200 then |outcome.detail| else 200]))]
      // In the counts themselves: two failures are the end, and each one counts once.
      ensures var failures := if nodeId in old(fixAttempts).at then old(fixAttempts).at[nodeId] else 0;
        && (isError <==> !inDraft || failures >= 2 || outcome.TestThrows?)
        && fixAttempts ==
           (if !isError && outcome.TestFails? then old(fixAttempts).Set(nodeId, failures + 1) else old(fixAttempts))
        && lastFailedNodeId == old(lastFailedNodeId)
    {
      emitted := [];
      if !inDraft { return true, []; }
      if (if nodeId in fixAttempts.at then fixAttempts.at[nodeId] else 0) >= MAX_FIX_ATTEMPTS { return true, []; }
      match outcome {
        case TestThrows => return true, [];
        case TestPasses => return false, [StepResult(nodeId, Passed, None)];
        case TestFails(detail) =>
          assert detail[..|detail|] == detail;
          fixAttempts := fixAttempts.Set(nodeId, (if nodeId in fixAttempts.at then fixAttempts.at[nodeId] else 0) + 1);
          return false, [StepResult(nodeId, Failed, Some(Slice200(detail)))];
      }
    }

    method RunRunDraft(
      emptyDraft: bool, outcome: RunOutcome, runId: string) returns (isError: bool, emitted: seq<Event>)
      modifies this
      ensures State() == FixStepped(old(State()), RunDraft(emptyDraft, outcome))
      ensures isError <==> Refused(old(State()), RunDraft(emptyDraft, outcome)) || outcome.RunThrows?
      ensures isError ==> emitted == []
      ensures !isError ==> emitted == match outcome
        case RunPasses(outputs) => PassedBeads(outputs) + [RunResult(Passed, runId, None)]
        case RunFails(None) => [RunResult(Failed, runId, None)]
        case RunFails(Some(steps)) => Beads(steps) + [RunResult(Failed, runId, FirstFailed(steps))]
        case RunThrows => []
      ensures isError <==>
        || emptyDraft || outcome.RunThrows?
        || (old(lastFailedNodeId).Some? && old(lastFailedNodeId).value != ""
            && old(lastFailedNodeId).value in old(fixAttempts).at
            && old(fixAttempts).at[old(lastFailedNodeId).value] >= 2)
      // Where the run first fails is charged and remembered; a run that passes forgets the last failure.
      ensures
        var failed := if isError || !outcome.RunFails? || outcome.record.None? then None
          else FirstFailed(outcome.record.value);
        && (failed.None? ==> fixAttempts == old(fixAttempts))
        && (failed.Some? ==>
              var id := failed.value;
              var failures := if id in old(fixAttempts).at then old(fixAttempts).at[id] else 0;
              fixAttempts == old(fixAttempts).Set(id, failures + 1) && lastFailedNodeId == failed)
        && (failed.None? ==>
              lastFailedNodeId == if !isError && outcome.RunPasses? then None else old(lastFailedNodeId))
    {
      emitted := [];
      if emptyDraft { return true, []; }
      if lastFailedNodeId.Some? && lastFailedNodeId.value != "" {
        var id := lastFailedNodeId.value;
        if (if id in fixAttempts.at then fixAttempts.at[id] else 0) >= MAX_FIX_ATTEMPTS { return true, []; }
      }
      match outcome {
        case RunThrows => return true, [];
        case RunPasses(outputs) =>
          emitted := EmitPassed(outputs);
          lastFailedNodeId := None;
          return false, emitted + [RunResult(Passed, runId, None)];
        case RunFails(record) =>
          var failedNodeId: Option<string> := None;
          if record.Some? {
            emitted, failedNodeId := EmitRecord(record.value);
          }
          if failedNodeId.Some? {
            var id := failedNodeId.value;
            fixAttempts := fixAttempts.Set(id, (if id in fixAttempts.at then fixAttempts.at[id] else 0) + 1);
            lastFailedNodeId := failedNodeId;
          }
          return false, emitted + [RunResult(Failed, runId, failedNodeId)];
      }
    }

    static method EmitPassed(outputs: seq<string>) returns (emitted: seq<Event>)
      ensures emitted == PassedBeads(outputs)
    {
      emitted := [];
      for i := 0 to |outputs|
        invariant emitted == PassedBeads(outputs[..i])
      {
        assert outputs[..i + 1][..i] == outputs[..i];
        if outputs[i] == "trigger" { continue; }
        emitted := emitted + [StepResult(outputs[i], Passed, None)];
      }
      assert outputs[..|outputs|] == outputs;
    }

    static method EmitRecord(steps: seq<RunStep>) returns (emitted: seq<Event>, failedNodeId: Option<string>)
      ensures emitted == Beads(steps) && failedNodeId == FirstFailed(steps)
    {
      emitted, failedNodeId := [], None;
      for i := 0 to |steps|
        invariant emitted == Beads(steps[..i]) && failedNodeId == FirstFailed(steps[..i])
      {
        var step := steps[i];
        assert steps[..i + 1][..i] == steps[..i];
        if step.nodeId == None || step.nodeId.value == "" { continue; }
        var failed := step.failed;
        if failed && failedNodeId == None {
          failedNodeId := step.nodeId;
        }
        emitted := emitted + [Bead(step)];
      }
      assert steps[..|steps|] == steps;
    }
  }

  // ---- What is reported ------------------------------------------------------------------------

  /** How many of these steps have a name to be reported under. */
  function WithId(steps: seq<RunStep>): nat {
    if steps == [] then 0
    else
      var last := steps[|steps| - 1];
      WithId(steps[..|steps| - 1]) + if last.nodeId.Some? && last.nodeId.value != "" then 1 else 0
  }

  /**
   A failed run's record is reported step by step: one result for each step with an id, in the record's order, failed
   exactly when that step failed, with a summary exactly when it failed with an error text: that text, cut at 200.
   */
  lemma {:induction false} RecordIsReported(steps: seq<RunStep>, i: nat)
    requires i < |steps|
    ensures |Beads(steps)| == WithId(steps)
    ensures var step, at := steps[i], WithId(steps[..i]);
      step.nodeId.Some? && step.nodeId.value != "" ==>
        && at < |Beads(steps)| && Beads(steps)[at].StepResult?
        && Beads(steps)[at].nodeId == step.nodeId.value
        && (Beads(steps)[at].status == Failed <==> step.failed)
        && (Beads(steps)[at].summary.Some? <==> step.failed && step.error.Some? && step.error.value != "")
        && (Beads(steps)[at].summary.Some? ==>
              Beads(steps)[at].summary.value ==
              step.error.value[..if |step.error.value| < 200 then |step.error.value| else 200])
  {
    var front, n := steps[..|steps| - 1], |steps| - 1;
    BeadsCounted(front);
    if i < n {
      RecordIsReported(front, i);
      assert front[..i] == steps[..i] && front[i] == steps[i];
    } else {
      assert steps[..i] == front;
    }
  }

  lemma {:induction false} BeadsCounted(steps: seq<RunStep>)
    ensures |Beads(steps)| == WithId(steps)
  {
    if steps != [] {
      BeadsCounted(steps[..|steps| - 1]);
    }
  }

  function NotTrigger(outputs: seq<string>): nat {
    if outputs == [] then 0
    else NotTrigger(outputs[..|outputs| - 1]) + if outputs[|outputs| - 1] == "trigger" then 0 else 1
  }

  /** A passed run is reported as one passed result for each output but the trigger's, in their order. */
  lemma {:induction false} OutputsAreReported(outputs: seq<string>, i: nat)
    requires i < |outputs|
    ensures |PassedBeads(outputs)| == NotTrigger(outputs)
    ensures outputs[i] != "trigger" ==>
      var at := NotTrigger(outputs[..i]);
      at < |PassedBeads(outputs)| && PassedBeads(outputs)[at] == StepResult(outputs[i], Passed, None)
  {
    var front, n := outputs[..|outputs| - 1], |outputs| - 1;
    PassedCounted(front);
    if i < n {
      OutputsAreReported(front, i);
      assert front[..i] == outputs[..i] && front[i] == outputs[i];
    } else {
      assert outputs[..i] == front;
    }
  }

  lemma {:induction false} PassedCounted(outputs: seq<string>)
    ensures |PassedBeads(outputs)| == NotTrigger(outputs)
  {
    if outputs != [] {
      PassedCounted(outputs[..|outputs| - 1]);
    }
  }

  // ---- The bound -------------------------------------------------------------------------------

  lemma FirstFailedNamed(steps: seq<RunStep>)
    ensures FirstFailed(steps).Some? ==> FirstFailed(steps).value != ""
  {
  }

  /** The first failed step: none exactly when no named step failed, else the one no failed step precedes. */
  lemma {:induction false} FirstFailedIsFirst(steps: seq<RunStep>)
    ensures FirstFailed(steps).None? <==> forall i :: 0 <= i < |steps| && Named(steps[i]) ==> !steps[i].failed
    ensures FirstFailed(steps).Some? ==>
      (exists i | 0 <= i < |steps| && Named(steps[i]) && steps[i].failed && steps[i].nodeId == FirstFailed(steps) ::
         forall j :: 0 <= j < i && Named(steps[j]) ==> !steps[j].failed)
  {
    if steps != [] {
      var front := steps[..|steps| - 1];
      FirstFailedIsFirst(front);
      if FirstFailed(front).Some? {
        var i :| 0 <= i < |front| && Named(front[i]) && front[i].failed && front[i].nodeId == FirstFailed(front)
          && forall j :: 0 <= j < i && Named(front[j]) ==> !front[j].failed;
        assert steps[i] == front[i] && forall j :: 0 <= j < i ==> steps[j] == front[j];
      } else if Named(steps[|steps| - 1]) && steps[|steps| - 1].failed {
        assert forall j :: 0 <= j < |front| ==> steps[j] == front[j];
      } else {
        assert forall j :: 0 <= j < |front| ==> steps[j] == front[j];
      }
    }
  }

  /** Only the step the last run failed at can stand past the bound, and then no run can move it. */
  ghost predicate Bounded(f: Fixes) {
    && f.attempts.Valid()
    && (forall id :: id in f.attempts.at ==> 1 <= f.attempts.at[id] <= MAX_FIX_ATTEMPTS + 1)
    && (forall id :: id in f.attempts.at && f.attempts.at[id] == MAX_FIX_ATTEMPTS + 1 ==> f.lastFailed == Some(id))
    && (f.lastFailed.Some? ==> f.lastFailed.value != "")
  }

  /** The sum of all counts. */
  function Total(keys: seq<string>, at: map<string, nat>): nat {
    if keys == [] then 0
    else
      var last := keys[|keys| - 1];
      Total(keys[..|keys| - 1], at) + if last in at then at[last] else 0
  }

  lemma {:induction false} TotalElsewhere(keys: seq<string>, at: map<string, nat>, id: string, n: nat)
    requires id !in keys
    ensures Total(keys, at[id := n]) == Total(keys, at)
  {
    if keys != [] {
      TotalElsewhere(keys[..|keys| - 1], at, id, n);
    }
  }

  lemma {:induction false} TotalAdds(keys: seq<string>, at: map<string, nat>, id: string)
    requires id in keys && id in at && forall i, j :: 0 <= i < j < |keys| ==> keys[i] != keys[j]
    ensures Total(keys, at[id := at[id] + 1]) == Total(keys, at) + 1
  {
    var front := keys[..|keys| - 1];
    if keys[|keys| - 1] == id {
      assert id !in front;
      TotalElsewhere(front, at, id, at[id] + 1);
    } else {
      assert id in front;
      TotalAdds(front, at, id);
    }
  }

  lemma ChargeAdds(m: JsMap<nat>, id: string)
    requires m.Valid()
    ensures var n := if id in m.at then m.at[id] else 0;
      var m' := m.Set(id, n + 1);
      m'.Valid() && Total(m'.keys, m'.at) == Total(m.keys, m.at) + 1
  {
    SetKeepsValid(m, id, (if id in m.at then m.at[id] else 0) + 1);
    if id in m.at {
      assert id in m.keys;
      TotalAdds(m.keys, m.at, id);
    } else {
      assert id !in m.keys;
      TotalElsewhere(m.keys, m.at, id, 1);
      TotalSnoc(m.keys, m.at[id := 1], id);
    }
  }

  lemma TotalSnoc(keys: seq<string>, at: map<string, nat>, id: string)
    requires id in at
    ensures Total(keys + [id], at) == Total(keys, at) + at[id]
  {
    assert (keys + [id])[..|keys|] == keys;
  }

  lemma ChargeBounded(f: Fixes, id: string)
    requires Bounded(f) && CountOf(f, id) < MAX_FIX_ATTEMPTS
    ensures Bounded(Charge(f, id))
  {
    SetKeepsValid(f.attempts, id, CountOf(f, id) + 1);
  }

  /**
   A run that stops at a step moves the last failure there; it ran, so the step it moves from is not past the bound.
   */
  lemma RunChargeBounded(f: Fixes, id: string)
    requires Bounded(f) && id != "" && (f.lastFailed.Some? ==> CountOf(f, f.lastFailed.value) < MAX_FIX_ATTEMPTS)
    ensures Bounded(Charge(f, id).(lastFailed := Some(id)))
  {
    SetKeepsValid(f.attempts, id, CountOf(f, id) + 1);
  }

  lemma FixStepBounded(f: Fixes, call: Call)
    requires Bounded(f)
    ensures Bounded(FixStepped(f, call))
  {
    match call {
      case TestStep(id, _, TestFails(_)) =>
        if !Refused(f, call) {
          ChargeBounded(f, id);
        }
      case RunDraft(_, RunFails(Some(steps))) =>
        FirstFailedNamed(steps);
        if !Refused(f, call) && FirstFailed(steps).Some? {
          RunChargeBounded(f, FirstFailed(steps).value);
        }
      case _ =>
    }
  }

  lemma FixStepAdds(f: Fixes, call: Call)
    requires f.attempts.Valid()
    ensures var m, m' := f.attempts, FixStepped(f, call).attempts;
      Total(m'.keys, m'.at) == Total(m.keys, m.at) + if Charged(f, call).Some? then 1 else 0
  {
    hide Total, Charged, Refused;
    if Charged(f, call).Some? {
      ChargeAdds(f.attempts, Charged(f, call).value);
    }
  }

  /**
   Over any calls in a turn, no step is charged more than three failures, and the counts add up to the failures charged.
   */
  lemma {:induction false} NoStepFailsFourTimes(calls: seq<Call>)
    ensures Bounded(FixRun(calls))
    ensures Failures(calls) == Total(FixRun(calls).attempts.keys, FixRun(calls).attempts.at)
  {
    if calls != [] {
      NoStepFailsFourTimes(calls[..|calls| - 1]);
      FixStepBounded(FixRun(calls[..|calls| - 1]), calls[|calls| - 1]);
      FixStepAdds(FixRun(calls[..|calls| - 1]), calls[|calls| - 1]);
    }
  }

  /**
   A step with three failures is the one the last run failed at; from then on every draft run is refused, and no test of
   it runs.
   */
  lemma {:induction false} ThirdFailureEndsRuns(calls: seq<Call>, later: seq<Call>, id: string)
    requires CountOf(FixRun(calls), id) == MAX_FIX_ATTEMPTS + 1
    ensures var f := FixRun(calls + later);
      && CountOf(f, id) == MAX_FIX_ATTEMPTS + 1 && f.lastFailed == Some(id)
      && (forall call: Call :: call.RunDraft? || call.nodeId == id ==> Refused(f, call))
      && (forall other :: other != id ==> CountOf(f, other) <= MAX_FIX_ATTEMPTS)
  {
    if later == [] {
      assert calls + later == calls;
    } else {
      ThirdFailureEndsRuns(calls, later[..|later| - 1], id);
      assert (calls + later)[..|calls + later| - 1] == calls + later[..|later| - 1];
    }
    NoStepFailsFourTimes(calls + later);
  }

  /**
   Exactly when a call takes a step past the bound of two: a draft run fails first at a step that stands at two, while
   the last failed run stopped at a step still below the bound, or at none.
   */
  lemma PastTheBoundExactlyWhen(calls: seq<Call>, call: Call, id: string)
    requires CountOf(FixRun(calls), id) <= MAX_FIX_ATTEMPTS
    ensures var f := FixRun(calls);
      CountOf(FixStepped(f, call), id) > MAX_FIX_ATTEMPTS
      <==> && CountOf(f, id) == MAX_FIX_ATTEMPTS
           && call.RunDraft? && !call.emptyDraft
           && call.runOutcome.RunFails? && call.runOutcome.record.Some?
           && FirstFailed(call.runOutcome.record.value) == Some(id)
           && (f.lastFailed.None? || CountOf(f, f.lastFailed.value) < MAX_FIX_ATTEMPTS)
  {
    NoStepFailsFourTimes(calls);
  }

  lemma {:induction false} TotalBound(keys: seq<string>, at: map<string, nat>, over: Option<string>)
    requires forall i, j :: 0 <= i < j < |keys| ==> keys[i] != keys[j]
    requires forall k :: k in at ==> at[k] <= 2 || (over == Some(k) && at[k] <= 3)
    ensures Total(keys, at) <= 2 * |keys| + if over.Some? && over.value in keys then 1 else 0
  {
    if keys != [] {
      TotalBound(keys[..|keys| - 1], at, over);
      if over.Some? && keys[|keys| - 1] == over.value {
        assert over.value !in keys[..|keys| - 1];
      }
    }
  }

  /** Failures charged to N steps total at most 2N + 1. */
  lemma FailuresPerTurn(calls: seq<Call>)
    ensures Failures(calls) <= 2 * |FixRun(calls).attempts.keys| + 1
  {
    NoStepFailsFourTimes(calls);
    var f := FixRun(calls);
    TotalBound(f.attempts.keys, f.attempts.at, f.lastFailed);
  }

  /** The bound of two is met with three failures: two failed tests of a step, then a draft run that stops at it. */
  lemma ThreeFailuresHappen()
    ensures var calls := [TestStep("a", true, TestFails("")), TestStep("a", true, TestFails("")),
        RunDraft(false, RunFails(Some([RunStep(Some("a"), true, None)])))];
      CountOf(FixRun(calls), "a") == 3 && Failures(calls) == 3 && FixRun(calls).attempts.keys == ["a"]
  {
    var t := TestStep("a", true, TestFails(""));
    var steps := [RunStep(Some("a"), true, None)];
    var r := RunDraft(false, RunFails(Some(steps)));
    assert steps[..0] == [] && FirstFailed(steps) == Some("a");
    assert [t][..0] == [] && [t, t][..1] == [t] && [t, t, r][..2] == [t, t];
    assert FixRun([t]) == Charge(NO_FIXES, "a");
    assert CountOf(FixRun([t]), "a") == 1;
    assert FixRun([t, t]) == Charge(FixRun([t]), "a");
    assert CountOf(FixRun([t, t]), "a") == 2;
    assert Failures([t]) == 1 && Failures([t, t]) == 2;
  }
}

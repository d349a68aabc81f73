/**
 The ask_user handlers over whole runs: any interleaving of questions, answers, timeouts, turns ending and handlers
 resuming, with the events the handlers emit into their sessions' logs.
 */
module AskUser {
  import opened Protocol
  import opened SnapshotFold
  import opened Texts
  import opened PendingQuestions

  /** What ask_user was given: the question, and what the agent would fall back on. */
  datatype Input = Input(question: Question, fallback: Option<string>)

  datatype Asking = Asking(
    reg: Registry,
    inputs: map<string, Input>,       // by question id
    resumed: set<string>,             // questions whose handler has gone on
    logs: map<string, seq<Event>>)    // by session

  const NOBODY_ASKED := Asking(Registry(map[], map[]), map[], {}, map[])

  function LogOfSession(s: Asking, session: string): seq<Event> {
    if session in s.logs then s.logs[session] else []
  }

  function Emitting(s: Asking, session: string, e: Event): Asking {
    s.(logs := s.logs[session := LogOfSession(s, session) + [e]])
  }

  /** The stated fallback, else the first option, else nothing. */
  function FallbackOf(input: Input): string {
    if input.fallback.Some? && Trim(input.fallback.value) != "" then Trim(input.fallback.value)
    else if input.question.options != [] then input.question.options[0]
    else ""
  }

  /** What a handler reports once its question settled; a cancelled one reports nothing. */
  function Report(id: string, input: Input, outcome: Outcome): Option<Event> {
    match outcome
    case Answered(answer) => Some(QuestionResolved(id, answer, false))
    case TimedOut => Some(QuestionResolved(id, FallbackOf(input), true))
    case Cancelled => None
  }

  datatype AskStep =
    | Asks(session: string, input: Input)
    | Answers(session: string, id: string, answer: string)
    | TimesOut(id: string)
    | TurnOver(session: string)
    | Resumes(id: string)
    | Elsewhere(session: string, e: Event)

  ghost predicate CanStep(s: Asking, step: AskStep) {
    match step
    case Asks(_, input) => input.question.id !in s.reg.asked  // ids are random and never come twice
    case TimesOut(id) => Waiting(s.reg, id)
    case Resumes(id) => id in s.reg.outcomes && id !in s.resumed && id in s.inputs && id in s.reg.asked
    case Elsewhere(_, e) => !e.QuestionAsked? && !e.QuestionResolved?
    case _ => true
  }

  ghost function AskStepped(s: Asking, step: AskStep): Asking
    requires CanStep(s, step)
  {
    match step
    case Asks(session, input) =>
      if SessionWaits(s.reg, session) then s  // the handler returns an error
      else
        var id := input.question.id;
        Emitting(s.(reg := CreatedIn(s.reg, session, id), inputs := s.inputs[id := input]), session,
          QuestionAsked(input.question))
    case Answers(session, id, answer) => s.(reg := AnsweredIn(s.reg, session, id, answer))
    case TimesOut(id) => s.(reg := SettledIn(s.reg, id, TimedOut))
    case TurnOver(session) => s.(reg := CancelledIn(s.reg, session))
    case Resumes(id) =>
      var s' := s.(resumed := s.resumed + {id});
      var report := Report(id, s.inputs[id], s.reg.outcomes[id]);
      if report.Some? then Emitting(s', s.reg.asked[id], report.value) else s'
    case Elsewhere(session, e) => Emitting(s, session, e)
  }

  ghost function AskRun(steps: seq<AskStep>): Asking {
    if steps == [] then NOBODY_ASKED
    else
      var s := AskRun(steps[..|steps| - 1]);
      if CanStep(s, steps[|steps| - 1]) then AskStepped(s, steps[|steps| - 1]) else s
  }

  function Count(log: seq<Event>, q: Query): nat {
    if log == [] then 0 else Count(log[..|log| - 1], q) + if Hits(q, log[|log| - 1]) then 1 else 0
  }

  lemma CountSnoc(log: seq<Event>, e: Event, q: Query)
    ensures Count(log + [e], q) == Count(log, q) + if Hits(q, e) then 1 else 0
  {
    assert (log + [e])[..|log|] == log;
  }

  lemma FoldSnoc(log: seq<Event>, e: Event)
    ensures FoldAll(EMPTY_SNAPSHOT, log + [e]) == Fold(FoldAll(EMPTY_SNAPSHOT, log), e)
  {
    assert (log + [e])[..|log|] == log;
  }

  function EntryOf(input: Input, report: Option<Event>): QuestionEntry {
    if report.Some? && report.value.QuestionResolved?
    then QuestionEntry(input.question, Some(report.value.answer), report.value.timedOut)
    else QuestionEntry(input.question, None, false)
  }

  /** What was asked under an id in a session, and what its handler reported there. */
  ghost function AskedThere(s: Asking, session: string, id: string): Option<Input> {
    if id in s.reg.asked && s.reg.asked[id] == session && id in s.inputs then Some(s.inputs[id]) else None
  }

  ghost function ReportedThere(s: Asking, session: string, id: string): Option<Event> {
    if AskedThere(s, session, id).Some? && id in s.resumed && id in s.reg.outcomes
    then Report(id, s.inputs[id], s.reg.outcomes[id])
    else None
  }

  /** What a log tells of a question: one asking, at most one resolution, and a snapshot entry that shows both. */
  ghost predicate Told(log: seq<Event>, id: string, asked: Option<Input>, report: Option<Event>) {
    var questions := FoldAll(EMPTY_SNAPSHOT, log).questions.at;
    && Count(log, Query.Asks(id)) == (if asked.Some? then 1 else 0)
    && Count(log, Query.Resolves(id)) == (if report.Some? then 1 else 0)
    && (asked.Some? <==> id in questions)
    && (asked.Some? ==> questions[id] == EntryOf(asked.value, report))
  }

  ghost predicate RegistryOk(s: Asking) {
    && OneAtATime(s.reg)
    && s.inputs.Keys == s.reg.asked.Keys
    && (forall id :: id in s.inputs ==> s.inputs[id].question.id == id)
    && (forall id :: id in s.resumed ==> id in s.reg.outcomes)
  }

  ghost predicate LogsOk(s: Asking) {
    forall session, id :: Told(LogOfSession(s, session), id, AskedThere(s, session, id), ReportedThere(s, session, id))
  }

  // ---- One event more --------------------------------------------------------------------------

  lemma ToldOther(log: seq<Event>, e: Event, id: string, asked: Option<Input>, report: Option<Event>)
    requires Told(log, id, asked, report) && !Hits(Query.Asks(id), e) && !Hits(Query.Resolves(id), e)
    ensures Told(log + [e], id, asked, report)
  {
    CountSnoc(log, e, Query.Asks(id));
    CountSnoc(log, e, Query.Resolves(id));
    FoldSnoc(log, e);
  }

  lemma ToldAsk(log: seq<Event>, input: Input)
    requires Told(log, input.question.id, None, None)
    ensures Told(log + [QuestionAsked(input.question)], input.question.id, Some(input), None)
  {
    var e, id := QuestionAsked(input.question), input.question.id;
    CountSnoc(log, e, Query.Asks(id));
    CountSnoc(log, e, Query.Resolves(id));
    FoldSnoc(log, e);
  }

  lemma ToldReport(log: seq<Event>, id: string, input: Input, outcome: Outcome)
    requires Told(log, id, Some(input), None) && outcome != Cancelled
    ensures Told(log + [Report(id, input, outcome).value], id, Some(input), Report(id, input, outcome))
  {
    var e := Report(id, input, outcome).value;
    CountSnoc(log, e, Query.Asks(id));
    CountSnoc(log, e, Query.Resolves(id));
    FoldSnoc(log, e);
  }

  // ---- One step more ---------------------------------------------------------------------------

  /** An answer, a timeout or a turn's end settles questions and rewrites none. */
  ghost predicate OnlySettles(r: Registry, r': Registry) {
    && r'.asked == r.asked
    && (forall id :: id in r.outcomes ==> id in r'.outcomes && r'.outcomes[id] == r.outcomes[id])
    && (forall id :: id in r'.outcomes ==> id in r'.asked)
  }

  lemma SettlingKeeps(s: Asking, r': Registry)
    requires RegistryOk(s) && LogsOk(s) && OnlySettles(s.reg, r')
    ensures RegistryOk(s.(reg := r')) && LogsOk(s.(reg := r'))
  {
    var s' := s.(reg := r');
    assert forall id :: Waiting(r', id) ==> Waiting(s.reg, id);
    hide Told, OneAtATime;
    forall session, id
      ensures Told(LogOfSession(s', session), id, AskedThere(s', session, id), ReportedThere(s', session, id))
    {
      assert Told(LogOfSession(s, session), id, AskedThere(s, session, id), ReportedThere(s, session, id));
    }
  }

  lemma AsksRegistry(s: Asking, session: string, input: Input)
    requires RegistryOk(s) && CanStep(s, AskStep.Asks(session, input)) && !SessionWaits(s.reg, session)
    ensures RegistryOk(AskStepped(s, AskStep.Asks(session, input)))
  {
    var s' := AskStepped(s, AskStep.Asks(session, input));
    assert forall id :: Waiting(s'.reg, id) && id != input.question.id ==> Waiting(s.reg, id);
  }

  /** A question is asked: the state that leaves. */
  ghost function Asked(s: Asking, session: string, input: Input): Asking {
    var id := input.question.id;
    Emitting(s.(reg := s.reg.(asked := s.reg.asked[id := session]), inputs := s.inputs[id := input]), session,
      QuestionAsked(input.question))
  }

  lemma AskedThereAfter(s: Asking, session: string, input: Input, other: string, id: string)
    requires RegistryOk(s) && input.question.id !in s.reg.asked
    ensures var s', mine := Asked(s, session, input), other == session && id == input.question.id;
      && LogOfSession(s', other) ==
         LogOfSession(s, other) + (if other == session then [QuestionAsked(input.question)] else [])
      && AskedThere(s', other, id) == (if mine then Some(input) else AskedThere(s, other, id))
      && ReportedThere(s', other, id) == ReportedThere(s, other, id)
      && (mine ==> AskedThere(s, other, id) == None && ReportedThere(s, other, id) == None)
  {
    assert input.question.id !in s.reg.outcomes && input.question.id !in s.resumed;
    hide OneAtATime;
    assert LogOfSession(s, other) + [] == LogOfSession(s, other);
  }

  lemma AsksKeeps(s: Asking, session: string, input: Input)
    requires RegistryOk(s) && LogsOk(s) && CanStep(s, AskStep.Asks(session, input)) && !SessionWaits(s.reg, session)
    ensures RegistryOk(AskStepped(s, AskStep.Asks(session, input)))
    ensures LogsOk(AskStepped(s, AskStep.Asks(session, input)))
  {
    AsksRegistry(s, session, input);
    var s', e := Asked(s, session, input), QuestionAsked(input.question);
    assert AskStepped(s, AskStep.Asks(session, input)) == s' && input.question.id !in s.reg.asked;
    hide Told, RegistryOk, SessionWaits, AskStepped, Asked, CanStep, AskedThere, ReportedThere, LogOfSession;
    forall other, id
      ensures Told(LogOfSession(s', other), id, AskedThere(s', other, id), ReportedThere(s', other, id))
    {
      var log := LogOfSession(s, other);
      assert Told(log, id, AskedThere(s, other, id), ReportedThere(s, other, id));
      AskedThereAfter(s, session, input, other, id);
      if other == session && id == input.question.id {
        ToldAsk(log, input);
      } else if other == session {
        ToldOther(log, e, id, AskedThere(s, session, id), ReportedThere(s, session, id));
      } else {
        assert log + [] == log;
      }
    }
  }

  lemma ResumesKeeps(s: Asking, id: string)
    requires RegistryOk(s) && LogsOk(s) && CanStep(s, Resumes(id))
    ensures RegistryOk(AskStepped(s, Resumes(id))) && LogsOk(AskStepped(s, Resumes(id)))
  {
    var s', session := AskStepped(s, Resumes(id)), s.reg.asked[id];
    assert RegistryOk(s');
    hide Told, OneAtATime, RegistryOk;
    forall other, x
      ensures Told(LogOfSession(s', other), x, AskedThere(s', other, x), ReportedThere(s', other, x))
    {
      assert Told(LogOfSession(s, other), x, AskedThere(s, other, x), ReportedThere(s, other, x));
      if other == session && s.reg.outcomes[id] != Cancelled {
        if x == id {
          ToldReport(LogOfSession(s, session), id, s.inputs[id], s.reg.outcomes[id]);
        } else {
          ToldOther(LogOfSession(s, session), Report(id, s.inputs[id], s.reg.outcomes[id]).value, x,
            AskedThere(s, session, x), ReportedThere(s, session, x));
        }
      }
    }
  }

  lemma ElsewhereKeeps(s: Asking, session: string, e: Event)
    requires RegistryOk(s) && LogsOk(s) && CanStep(s, Elsewhere(session, e))
    ensures RegistryOk(AskStepped(s, Elsewhere(session, e))) && LogsOk(AskStepped(s, Elsewhere(session, e)))
  {
    var s' := AskStepped(s, Elsewhere(session, e));
    hide Told, OneAtATime;
    forall other, id
      ensures Told(LogOfSession(s', other), id, AskedThere(s', other, id), ReportedThere(s', other, id))
    {
      assert Told(LogOfSession(s, other), id, AskedThere(s, other, id), ReportedThere(s, other, id));
      if other == session {
        ToldOther(LogOfSession(s, session), e, id, AskedThere(s, session, id), ReportedThere(s, session, id));
      }
    }
  }

  lemma AskStepKeeps(s: Asking, step: AskStep)
    requires RegistryOk(s) && LogsOk(s) && CanStep(s, step)
    ensures RegistryOk(AskStepped(s, step)) && LogsOk(AskStepped(s, step))
  {
    match step {
      case Asks(session, input) =>
        if !SessionWaits(s.reg, session) {
          AsksKeeps(s, session, input);
        }
      case Resumes(id) => ResumesKeeps(s, id);
      case Elsewhere(session, e) => ElsewhereKeeps(s, session, e);
      case _ =>
        assert OnlySettles(s.reg, AskStepped(s, step).reg);
        SettlingKeeps(s, AskStepped(s, step).reg);
    }
  }

  lemma {:induction false} AskRunHolds(steps: seq<AskStep>)
    ensures RegistryOk(AskRun(steps)) && LogsOk(AskRun(steps))
  {
    hide RegistryOk, LogsOk, CanStep, AskStepped;
    if steps == [] {
      NobodyAsked();
    } else {
      AskRunHolds(steps[..|steps| - 1]);
      var s := AskRun(steps[..|steps| - 1]);
      if CanStep(s, steps[|steps| - 1]) {
        AskStepKeeps(s, steps[|steps| - 1]);
      }
    }
  }

  lemma NobodyAsked()
    ensures RegistryOk(NOBODY_ASKED) && LogsOk(NOBODY_ASKED)
  {
  }

  // ---- What holds of every run -----------------------------------------------------------------

  /** A session never has two questions waiting. */
  lemma OneQuestionAtATime(steps: seq<AskStep>, a: string, b: string)
    requires var r := AskRun(steps).reg; Waiting(r, a) && Waiting(r, b) && r.asked[a] == r.asked[b]
    ensures a == b
  {
    AskRunHolds(steps);
    hide AskRun, LogsOk;
  }

  /** First wins: a settled question keeps its outcome whatever happens later. */
  lemma {:induction false} FirstSettlementWins(steps: seq<AskStep>, later: seq<AskStep>, id: string)
    requires id in AskRun(steps).reg.outcomes
    ensures var r := AskRun(steps + later).reg; id in r.outcomes && r.outcomes[id] == AskRun(steps).reg.outcomes[id]
  {
    if later == [] {
      assert steps + later == steps;
    } else {
      FirstSettlementWins(steps, later[..|later| - 1], id);
      assert (steps + later)[..|steps + later| - 1] == steps + later[..|later| - 1];
      hide Emitting, SessionWaits, Report;
    }
  }

  /**
   The step that gives a question its outcome: its own session's answer, its timeout, or its session's turn ending.
   */
  predicate SettlesWith(step: AskStep, session: string, id: string, outcome: Outcome) {
    match outcome
    case Answered(answer) => step == AskStep.Answers(session, id, answer)
    case TimedOut => step == AskStep.TimesOut(id)
    case Cancelled => step == TurnOver(session)
  }

  ghost predicate SettledAt(steps: seq<AskStep>, k: int, id: string, outcome: Outcome) {
    && 0 <= k < |steps|
    && var s := AskRun(steps[..k]);
       Waiting(s.reg, id) && SettlesWith(steps[k], s.reg.asked[id], id, outcome)
  }

  lemma SettledBefore(steps: seq<AskStep>, k: nat, id: string, outcome: Outcome)
    requires k < |steps| - 1
    ensures SettledAt(steps, k, id, outcome) == SettledAt(steps[..|steps| - 1], k, id, outcome)
  {
    hide AskRun, SettlesWith, Waiting;
    var front := steps[..|steps| - 1];
    assert front[..k] == steps[..k] && front[k] == steps[k];
  }

  /** What one step does to one question. */
  lemma SettledByStep(s: Asking, step: AskStep, id: string, outcome: Outcome)
    requires OneAtATime(s.reg)
    ensures var r' := (if CanStep(s, step) then AskStepped(s, step) else s).reg;
      (id in r'.outcomes && r'.outcomes[id] == outcome) <==>
        || (id in s.reg.outcomes && s.reg.outcomes[id] == outcome)
        || (Waiting(s.reg, id) && SettlesWith(step, s.reg.asked[id], id, outcome))
  {
    hide LogOfSession, Report, SessionWaits;
  }

  /**
   Over every run, a question has an outcome exactly when, while it waited, some step gave it that one: an answer from
   its own session, its timeout, or its session's turn ending. So an answer from another session, or to a question
   unknown or settled, changes no outcome.
   */
  lemma {:induction false} SettledExactlyBy(steps: seq<AskStep>, id: string, outcome: Outcome)
    ensures var r := AskRun(steps).reg;
      (id in r.outcomes && r.outcomes[id] == outcome) <==> exists k :: SettledAt(steps, k, id, outcome)
  {
    hide SettlesWith, CanStep, AskStepped, OneAtATime, Waiting;
    if steps != [] {
      var front, n := steps[..|steps| - 1], |steps| - 1;
      SettledExactlyBy(front, id, outcome);
      AskRunHolds(front);
      assert OneAtATime(AskRun(front).reg);
      SettledByStep(AskRun(front), steps[n], id, outcome);
      hide AskRun;
      SettledAtEnd(steps, id, outcome);
    }
  }

  lemma SettledAtEnd(steps: seq<AskStep>, id: string, outcome: Outcome)
    requires steps != []
    ensures var front, n := steps[..|steps| - 1], |steps| - 1;
      (exists k :: SettledAt(steps, k, id, outcome)) <==>
        || (exists k :: SettledAt(front, k, id, outcome))
        || SettledAt(steps, n, id, outcome)
    ensures var s, n := AskRun(steps[..|steps| - 1]), |steps| - 1;
      SettledAt(steps, n, id, outcome) <==> Waiting(s.reg, id) && SettlesWith(steps[n], s.reg.asked[id], id, outcome)
  {
    hide AskRun, SettlesWith, Waiting;
    var front := steps[..|steps| - 1];
    forall k | 0 <= k < |front|
      ensures SettledAt(steps, k, id, outcome) == SettledAt(front, k, id, outcome)
    {
      SettledBefore(steps, k, id, outcome);
    }
    assert steps[..|steps| - 1] == front;
    if k :| SettledAt(steps, k, id, outcome) {
      assert k == |steps| - 1 || SettledAt(front, k, id, outcome);
    }
    if k :| SettledAt(front, k, id, outcome) {
      assert SettledAt(steps, k, id, outcome);
    }
  }

  /** The stated fallback, trimmed, unless that leaves nothing; else the first option; else nothing. */
  predicate FallsBackOn(input: Input, answer: string) {
    if input.fallback.Some? && Trim(input.fallback.value) != "" then answer == Trim(input.fallback.value)
    else if |input.question.options| > 0 then answer == input.question.options[0]
    else answer == ""
  }

  ghost predicate AskedAt(steps: seq<AskStep>, k: int, session: string, input: Input) {
    && 0 <= k < |steps| && steps[k] == AskStep.Asks(session, input)
    && input.question.id !in AskRun(steps[..k]).reg.asked && !SessionWaits(AskRun(steps[..k]).reg, session)
  }

  /**
   A question is known, of its session and with what was given with it, exactly when some step asked it there while no
   other waited.
   */
  lemma {:induction false} AskedExactlyBy(steps: seq<AskStep>, session: string, input: Input)
    ensures var s, id := AskRun(steps), input.question.id;
      AskedThere(s, session, id) == Some(input) <==> exists k :: AskedAt(steps, k, session, input)
  {
    hide SessionWaits, CanStep, AskStepped, AskedThere;
    if steps == [] {
      NobodyAskedAnything(session, input);
    } else {
      var front, n := steps[..|steps| - 1], |steps| - 1;
      AskedExactlyBy(front, session, input);
      AskRunHolds(front);
      AskedByStep(AskRun(front), steps[n], session, input);
      AskedAtEnd(steps, session, input);
      hide AskedAt, RegistryOk, LogsOk;
    }
  }

  lemma NobodyAskedAnything(session: string, input: Input)
    ensures AskedThere(AskRun([]), session, input.question.id) == None
  {
  }

  lemma AskedByStep(s: Asking, step: AskStep, session: string, input: Input)
    requires RegistryOk(s)
    ensures var s', id := if CanStep(s, step) then AskStepped(s, step) else s, input.question.id;
      AskedThere(s', session, id) == Some(input) <==>
        || AskedThere(s, session, id) == Some(input)
        || (step == AskStep.Asks(session, input) && id !in s.reg.asked && !SessionWaits(s.reg, session))
  {
    hide LogOfSession, Report, SessionWaits;
  }

  lemma AskedAtEnd(steps: seq<AskStep>, session: string, input: Input)
    requires steps != []
    ensures var front, n := steps[..|steps| - 1], |steps| - 1;
      (exists k :: AskedAt(steps, k, session, input)) <==>
        || (exists k :: AskedAt(front, k, session, input))
        || AskedAt(steps, n, session, input)
  {
    hide AskRun, SessionWaits;
    var front := steps[..|steps| - 1];
    forall k | 0 <= k < |front|
      ensures AskedAt(steps, k, session, input) == AskedAt(front, k, session, input)
    {
      assert front[..k] == steps[..k] && front[k] == steps[k];
    }
    if k :| AskedAt(steps, k, session, input) {
      assert k == |steps| - 1 || AskedAt(front, k, session, input);
    }
    if k :| AskedAt(front, k, session, input) {
      assert AskedAt(steps, k, session, input);
    }
  }

  /**
   At most one resolution of a question is ever emitted, in the log of the session that asked it: none before its
   handler resumes and none when it was cancelled, and then the one that reports its outcome; the session's snapshot
   shows the question answered exactly when that resolution is out.
   */
  lemma ResolvedAtMostOnce(steps: seq<AskStep>, session: string, id: string)
    ensures forall x :: x in AskRun(steps).resumed ==> x in AskRun(steps).reg.outcomes
    ensures var s := AskRun(steps);
      var log, report := LogOfSession(s, session), ReportedThere(s, session, id);
      var questions := FoldAll(EMPTY_SNAPSHOT, log).questions.at;
      && Count(log, Query.Asks(id)) == (if AskedThere(s, session, id).Some? then 1 else 0)
      && Count(log, Query.Resolves(id)) == (if report.Some? then 1 else 0)
      && (report.Some? <==> AskedThere(s, session, id).Some? && id in s.resumed && s.reg.outcomes[id] != Cancelled)
      && (id in questions ==> (questions[id].answer.Some? <==> report.Some?))
      && (id in questions && id in s.reg.outcomes && s.reg.outcomes[id].Answered? && id in s.resumed ==>
            questions[id].answer == Some(s.reg.outcomes[id].answer) && !questions[id].timedOut)
      && (id in questions && id in s.resumed && s.reg.outcomes[id].TimedOut? && id in s.inputs ==>
            && questions[id].timedOut && questions[id].answer.Some?
            && FallsBackOn(s.inputs[id], questions[id].answer.value))
  {
    AskRunHolds(steps);
    var s := AskRun(steps);
    assert Told(LogOfSession(s, session), id, AskedThere(s, session, id), ReportedThere(s, session, id));
    hide AskRun, LogsOk;
  }
}

/**
 The pause behind ask_user: a registry of unanswered questions, each settled by an answer, its timeout or its turn's
 end, and the handlers that ask, wait, and report what came of it.
 */
module PendingQuestions {
  import opened Protocol

  datatype Outcome = Answered(answer: string) | TimedOut | Cancelled

  // ---- The registry as a value -----------------------------------------------------------------

  /** Every question's session, and what became of those that are settled. */
  datatype Registry = Registry(asked: map<string, string>, outcomes: map<string, Outcome>)

  predicate Waiting(r: Registry, id: string) {
    id in r.asked && id !in r.outcomes
  }

  ghost predicate SessionWaits(r: Registry, session: string) {
    exists id :: Waiting(r, id) && r.asked[id] == session
  }

  ghost function CreatedIn(r: Registry, session: string, id: string): Registry {
    if SessionWaits(r, session) then r else r.(asked := r.asked[id := session])
  }

  function SettledIn(r: Registry, id: string, outcome: Outcome): Registry {
    if Waiting(r, id) then r.(outcomes := r.outcomes[id := outcome]) else r
  }

  function AnsweredIn(r: Registry, session: string, id: string, answer: string): Registry {
    if id in r.asked && r.asked[id] == session then SettledIn(r, id, Answered(answer)) else r
  }

  function CancelledIn(r: Registry, session: string): Registry {
    r.(outcomes := map id | id in r.asked.Keys + r.outcomes.Keys && (id in r.outcomes || r.asked[id] == session) ::
      if id in r.outcomes then r.outcomes[id] else Cancelled)
  }

  /** A session never has two questions waiting, and nothing unasked is settled. */
  ghost predicate OneAtATime(r: Registry) {
    && (forall a, b :: Waiting(r, a) && Waiting(r, b) && r.asked[a] == r.asked[b] ==> a == b)
    && (forall id :: id in r.outcomes ==> id in r.asked)
  }

  // ---- The registry in place -------------------------------------------------------------------

  /** A registered question: its session, the promise its handler awaits, and the timer armed to settle it. */
  class PendingQuestion {
    const sessionId: string
    const questionId: string
    var outcome: Option<Outcome>
    var timer: bool

    constructor (sessionId: string, questionId: string)
      ensures this.sessionId == sessionId && this.questionId == questionId && outcome == None && timer
    {
      this.sessionId, this.questionId, outcome, timer := sessionId, questionId, None, true;
    }
  }

  /** A question is in the map, with its timer armed, exactly until it settles. */
  ghost predicate Kept(id: string, q: PendingQuestion, pending: map<string, PendingQuestion>)
    reads q
  {
    && q.questionId == id
    && (q.timer <==> q.outcome == None)
    && (id in pending <==> q.outcome == None)
    && (id in pending ==> pending[id] == q)
  }

  ghost function AskedIn(all: map<string, PendingQuestion>): map<string, string> {
    map id | id in all :: all[id].sessionId
  }

  ghost function OutcomesIn(all: map<string, PendingQuestion>): map<string, Outcome>
    reads all.Values
  {
    map id | id in all && all[id].outcome.Some? :: all[id].outcome.value
  }

  lemma AskedOneMore(all: map<string, PendingQuestion>, id: string, question: PendingQuestion)
    requires id !in all && question.outcome == None
    ensures AskedIn(all[id := question]) == AskedIn(all)[id := question.sessionId]
    ensures OutcomesIn(all[id := question]) == OutcomesIn(all)
  {
    assert forall x :: x in all ==> all[id := question][x] == all[x];
  }

  class PendingAnswers {
    var pending: map<string, PendingQuestion>
    ghost var all: map<string, PendingQuestion>  // every question ever registered

    ghost predicate Valid()
      reads this, all.Values
    {
      && pending.Keys <= all.Keys
      && (forall id :: id in all ==> Kept(id, all[id], pending))
    }

    ghost function State(): Registry
      reads this, all.Values
    {
      Registry(AskedIn(all), OutcomesIn(all))
    }

    constructor ()
      ensures Valid() && State() == Registry(map[], map[]) && all == map[]
    {
      pending, all := map[], map[];
    }

    /** In the abstract: a question waits exactly while it is in the map. */
    lemma PendingIsWaiting()
      requires Valid()
      ensures forall id :: id in pending <==> Waiting(State(), id)
      ensures forall id :: id in pending ==> State().asked[id] == pending[id].sessionId
    {
    }

    method HasPending(sessionId: string) returns (waits: bool)
      requires Valid()
      ensures waits <==> SessionWaits(State(), sessionId)
    {
      PendingIsWaiting();
      hide Valid, State, OutcomesIn;
      var rest := pending.Keys;
      while rest != {}
        invariant rest <= pending.Keys
        invariant forall id :: id in pending && id !in rest ==> pending[id].sessionId != sessionId
      {
        var id :| id in rest;
        if pending[id].sessionId == sessionId {
          return true;
        }
        rest := rest - {id};
      }
      return false;
    }

    /** Register a question under a new id; null is the error a second waiting question of the session gets. */
    method Create(sessionId: string, newId: string) returns (question: PendingQuestion?)
      requires Valid() && newId !in all
      modifies this
      ensures Valid()
      ensures State() == CreatedIn(old(State()), sessionId, newId)
      ensures question == null <==> SessionWaits(old(State()), sessionId)
      ensures question == null ==> all == old(all)
      ensures question != null ==> fresh(question) && all == old(all)[newId := question] && question.outcome == None
      ensures question != null ==>
        question.timer && question.sessionId == sessionId && pending == old(pending)[newId := question]
    {
      var waits := HasPending(sessionId);
      if waits { return null; }
      hide SessionWaits, Valid, OutcomesIn, AskedIn;
      question := Register(sessionId, newId);
    }

    /** Arm the timer of a new question and put it in the map. */
    method Register(sessionId: string, newId: string) returns (question: PendingQuestion)
      requires Valid() && newId !in all
      modifies this
      ensures Valid() && fresh(question) && all == old(all)[newId := question] && question.outcome == None
      ensures question.timer && question.sessionId == sessionId && pending == old(pending)[newId := question]
      ensures State() == old(State()).(asked := old(State()).asked[newId := sessionId])
    {
      hide AskedIn, OutcomesIn;
      question := new PendingQuestion(sessionId, newId);
      pending := pending[newId := question];
      all := all[newId := question];
      assert forall id :: id in old(all) ==> old(Kept(id, all[id], pending));
      assert Valid();
      AskedOneMore(old(all), newId, question);
    }

    method Settle(questionId: string, outcome: Outcome) returns (settled: bool)
      requires Valid()
      modifies this`pending, all.Values
      ensures Valid() && all == old(all)
      ensures State() == SettledIn(old(State()), questionId, outcome)
      ensures settled <==> Waiting(old(State()), questionId)
      ensures pending == old(pending) - {questionId}
      ensures settled ==> questionId in all && all[questionId].outcome == Some(outcome) && !all[questionId].timer
      ensures forall id :: id in all && (id != questionId || !settled) ==> all[id].outcome == old(all[id].outcome)
    {
      if questionId !in pending { return false; }
      var entry := pending[questionId];
      pending := pending - {questionId};
      entry.timer := false;
      entry.outcome := Some(outcome);
      hide AskedIn;
      assert OutcomesIn(all) == old(OutcomesIn(all))[questionId := outcome];
      return true;
    }

    /** The timer of a question fires; settling a question disarms its timer, so the question is waiting. */
    method TimerFires(questionId: string)
      requires Valid() && questionId in all && all[questionId].timer
      modifies this`pending, all.Values
      ensures Valid() && all == old(all)
      ensures Waiting(old(State()), questionId)
      ensures State() == SettledIn(old(State()), questionId, TimedOut)
    {
      var _ := Settle(questionId, TimedOut);
    }

    /** A client's answer: taken only for a question that still waits and is this session's own. */
    method Answer(sessionId: string, questionId: string, answer: string) returns (accepted: bool)
      requires Valid()
      modifies this`pending, all.Values
      ensures Valid() && all == old(all)
      ensures State() == AnsweredIn(old(State()), sessionId, questionId, answer)
      ensures accepted <==> Waiting(old(State()), questionId) && old(State()).asked[questionId] == sessionId
    {
      if questionId !in pending || pending[questionId].sessionId != sessionId { return false; }
      accepted := Settle(questionId, Answered(answer));
    }

    /** A turn ended: its session's outstanding questions die with it. */
    method CancelForSession(sessionId: string)
      requires Valid()
      modifies this`pending, all.Values
      ensures Valid() && all == old(all)
      ensures State() == CancelledIn(old(State()), sessionId)
      ensures !SessionWaits(State(), sessionId)
    {
      var rest := pending.Keys;
      ghost var was := State();
      PendingIsWaiting();
      hide Valid, State, OutcomesIn, CancelledIn, SettledIn, Waiting;
      while rest != {}
        invariant Valid() && all == old(all)
        invariant rest <= pending.Keys
        invariant forall id :: id in pending && id !in rest ==> pending[id].sessionId != sessionId
        invariant CancelledIn(State(), sessionId) == CancelledIn(was, sessionId)
      {
        var id :| id in rest;
        rest := rest - {id};
        PendingIsWaiting();
        if pending[id].sessionId == sessionId {
          CancelOne(State(), sessionId, id);
          var _ := Settle(id, Cancelled);
        }
      }
      PendingIsWaiting();
      NoneLeft(State(), sessionId);
    }
  }

  lemma CancelOne(r: Registry, session: string, id: string)
    requires Waiting(r, id) && r.asked[id] == session
    ensures CancelledIn(SettledIn(r, id, Cancelled), session) == CancelledIn(r, session)
  {
  }

  lemma NoneLeft(r: Registry, session: string)
    requires forall id :: Waiting(r, id) ==> r.asked[id] != session
    ensures CancelledIn(r, session) == r && !SessionWaits(r, session)
  {
    assert CancelledIn(r, session).outcomes == r.outcomes;
  }
}

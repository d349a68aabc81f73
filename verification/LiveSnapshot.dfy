/**
 The rolling snapshot in place. Its question entries are objects stamped with their answers; payloads that came in with
 events and snapshots that went out to clients are other objects, which no later event may touch.
 */
module LiveSnapshot {
  import opened Protocol
  import opened JsMaps
  import opened SnapshotFold

  /** A question's data on the heap: an event's payload, a snapshot entry, or the copy a client was handed. */
  class QuestionData {
    const question: Question
    var answer: Option<string>
    var timedOut: bool

    constructor (question: Question, answer: Option<string>, timedOut: bool)
      ensures this.question == question && this.answer == answer && this.timedOut == timedOut
    {
      this.question, this.answer, this.timedOut := question, answer, timedOut;
    }

    ghost function Entry(): QuestionEntry
      reads this
    {
      QuestionEntry(question, answer, timedOut)
    }
  }

  /** An event as it arrives: a question brings an object, the other payloads are never written to. */
  datatype Arriving = Asks(data: QuestionData) | Says(e: Event)

  predicate Arrives(a: Arriving) {
    a.Says? ==> !a.e.QuestionAsked?
  }

  function EventIn(a: Arriving): Event {
    match a
    case Asks(data) => QuestionAsked(data.question)
    case Says(e) => e
  }

  /** A snapshot as a client is sent it. */
  datatype SessionSnapshot = SessionSnapshot(
    brief: Option<Brief>,
    questions: seq<QuestionData>,
    assumptions: seq<Assumed>,
    stepResults: seq<StepOutcome>,
    connectionNeeds: seq<ConnectionNeed>,
    offerPending: bool,
    busy: bool)

  ghost function EntriesOf(m: JsMap<QuestionData>): (r: JsMap<QuestionEntry>)
    reads m.at.Values
  {
    JsMap(m.keys, map k | k in m.at :: m.at[k].Entry())
  }

  lemma EntriesOfSet(m: JsMap<QuestionData>, k: string, q: QuestionData)
    ensures EntriesOf(m.Set(k, q)) == EntriesOf(m).Set(k, q.Entry())
  {
  }

  class RollingSnapshot {
    var brief: Option<Brief>
    var questions: JsMap<QuestionData>
    var assumptions: seq<Assumed>
    var stepResults: JsMap<StepOutcome>
    var connectionNeeds: JsMap<ConnectionNeed>
    var offerPending: bool
    ghost var shared: set<QuestionData>  // every payload taken in and every copy handed out

    ghost predicate Valid()
      reads this
    {
      && questions.Valid() && stepResults.Valid() && connectionNeeds.Valid()
      && (forall k :: k in questions.at ==> questions.at[k].question.id == k)
      && (forall k :: k in questions.at ==> questions.at[k] !in shared)
    }

    ghost function View(): Snapshot
      reads this, questions.at.Values
    {
      Snapshot(brief, EntriesOf(questions), assumptions, stepResults, connectionNeeds, offerPending)
    }

    constructor ()
      ensures Valid() && View() == EMPTY_SNAPSHOT && shared == {}
    {
      brief, questions, assumptions, stepResults, connectionNeeds, offerPending :=
        None, Empty(), [], Empty(), Empty(), false;
      shared := {};
    }

    /** A new question's entry is a copy of its payload. */
    method FoldQuestion(data: QuestionData) returns (q: QuestionData)
      requires Valid()
      modifies this
      ensures Valid() && shared == old(shared) + {data}
      ensures View() == Fold(old(View()), QuestionAsked(data.question))
      ensures fresh(q) && questions == old(questions).Set(data.question.id, q)
    {
      hide EntriesOf, JsMap<QuestionData>.Valid;
      q := new QuestionData(data.question, None, false);
      SetKeepsValid(questions, q.question.id, q);
      EntriesOfSet(questions, q.question.id, q);
      questions := questions.Set(q.question.id, q);
      shared := shared + {data};
    }

    /** A resolution stamps the entry in place. */
    method FoldResolution(id: string, answer: string, timedOut: bool)
      requires Valid()
      modifies this`questions, questions.at.Values
      ensures Valid() && shared == old(shared) && questions == old(questions)
      ensures View() == Fold(old(View()), QuestionResolved(id, answer, timedOut))
    {
      if id in questions.at {
        var q := questions.at[id];
        q.answer := Some(answer);
        if timedOut { q.timedOut := true; }
        assert EntriesOf(questions) == old(EntriesOf(questions)).Set(id, q.Entry());
      }
    }

    /** Fold one event; whatever was taken in or handed out before stays as it is. */
    method FoldInto(event: Arriving)
      requires Valid() && Arrives(event)
      modifies this, questions.at.Values
      ensures Valid()
      ensures View() == Fold(old(View()), EventIn(event))
      ensures shared == if event.Asks? then old(shared) + {event.data} else old(shared)
      ensures forall q :: q in old(shared) ==> q.Entry() == old(q.Entry())
      ensures forall k :: k in questions.at ==> questions.at[k] in old(questions.at.Values) || fresh(questions.at[k])
    {
      if event.Asks? {
        var _ := FoldQuestion(event.data);
      } else if event.e.QuestionResolved? {
        FoldResolution(event.e.questionId, event.e.answer, event.e.timedOut);
      } else {
        FoldPlain(event.e);
      }
    }

    /** The events that leave the question entries alone. */
    method FoldPlain(e: Event)
      requires Valid() && !e.QuestionAsked? && !e.QuestionResolved?
      modifies this`brief, this`assumptions, this`stepResults, this`connectionNeeds, this`offerPending
      ensures Valid()
      ensures View() == Fold(old(View()), e)
    {
      hide EntriesOf;
      match e {
        case BriefPosted(posted) => brief := Some(posted);
        case Assumption(nodeId, text) =>
          if Assumed(nodeId, text) !in assumptions {
            assumptions := assumptions + [Assumed(nodeId, text)];
          }
        case StepResult(nodeId, status, summary) => FoldStepResult(nodeId, status, summary);
        case ConnectionNeeded(nodeId, provider, name) =>
          SetKeepsValid(connectionNeeds, nodeId, ConnectionNeed(provider, name));
          connectionNeeds := connectionNeeds.Set(nodeId, ConnectionNeed(provider, name));
        case ConnectionResolved(nodeId) =>
          DeleteKeepsValid(connectionNeeds, nodeId);
          connectionNeeds := connectionNeeds.Delete(nodeId);
        case Offer(_) => offerPending := true;
        case _ =>
      }
    }

    method FoldStepResult(nodeId: string, status: Status, summary: Option<string>)
      requires Valid()
      modifies this`stepResults, this`connectionNeeds
      ensures Valid()
      ensures View() == Fold(old(View()), StepResult(nodeId, status, summary))
    {
      hide EntriesOf;
      SetKeepsValid(stepResults, nodeId, StepOutcome(status, summary));
      stepResults := stepResults.Set(nodeId, StepOutcome(status, summary));
      if status == Passed {
        DeleteKeepsValid(connectionNeeds, nodeId);
        connectionNeeds := connectionNeeds.Delete(nodeId);
      }
    }

    /** The present state, for a client: its questions are copies. */
    method SnapshotOf(busy: bool) returns (s: SessionSnapshot)
      requires Valid()
      modifies this`shared
      ensures Valid() && View() == old(View())
      ensures ViewOf(s) == Handed(old(View()), busy)
      ensures s.brief == brief && s.assumptions == assumptions && s.offerPending == offerPending && s.busy == busy
      ensures |s.questions| == |questions.keys| && forall i | 0 <= i < |s.questions| ::
        questions.keys[i] in questions.at && s.questions[i].Entry() == questions.at[questions.keys[i]].Entry()
      ensures |s.stepResults| == |stepResults.keys| && forall i | 0 <= i < |s.stepResults| ::
        stepResults.keys[i] in stepResults.at && s.stepResults[i] == stepResults.at[stepResults.keys[i]]
      ensures |s.connectionNeeds| == |connectionNeeds.keys| && forall i | 0 <= i < |s.connectionNeeds| ::
        connectionNeeds.keys[i] in connectionNeeds.at
          && s.connectionNeeds[i] == connectionNeeds.at[connectionNeeds.keys[i]]
      ensures forall i :: 0 <= i < |s.questions| ==> fresh(s.questions[i]) && s.questions[i] in shared
      ensures old(shared) <= shared
    {
      ghost var seen := View();
      s := Built(busy);
      assert View() == seen;
      hide EntriesOf, EntriesIn, Handed;
      shared := shared + QuestionsIn(s);
      assert View() == seen;
      hide View, ViewOf;
    }

    method Built(busy: bool) returns (s: SessionSnapshot)
      requires Valid()
      ensures ViewOf(s) == Handed(View(), busy)
      ensures s.brief == brief && s.assumptions == assumptions && s.offerPending == offerPending && s.busy == busy
      ensures |s.questions| == |questions.keys| && forall i | 0 <= i < |s.questions| ::
        questions.keys[i] in questions.at && s.questions[i].Entry() == questions.at[questions.keys[i]].Entry()
      ensures |s.stepResults| == |stepResults.keys| && forall i | 0 <= i < |s.stepResults| ::
        stepResults.keys[i] in stepResults.at && s.stepResults[i] == stepResults.at[stepResults.keys[i]]
      ensures |s.connectionNeeds| == |connectionNeeds.keys| && forall i | 0 <= i < |s.connectionNeeds| ::
        connectionNeeds.keys[i] in connectionNeeds.at
          && s.connectionNeeds[i] == connectionNeeds.at[connectionNeeds.keys[i]]
      ensures forall i :: 0 <= i < |s.questions| ==> fresh(s.questions[i])
    {
      var copies := Copies();
      hide EntriesOf, EntriesIn;
      s := SessionSnapshot(
        brief, copies, assumptions, stepResults.Values(), connectionNeeds.Values(), offerPending, busy);
    }

    method Copies() returns (copies: seq<QuestionData>)
      requires Valid()
      ensures EntriesIn(copies) == ValuesOf(EntriesOf(questions))
      ensures |copies| == |questions.keys| && forall i | 0 <= i < |copies| ::
        questions.keys[i] in questions.at && copies[i].Entry() == questions.at[questions.keys[i]].Entry()
      ensures forall i :: 0 <= i < |copies| ==> fresh(copies[i])
    {
      copies := [];
      for i := 0 to |questions.keys|
        invariant |copies| == i
        invariant forall j :: 0 <= j < i ==> fresh(copies[j])
        invariant forall j :: 0 <= j < i ==>
          questions.keys[j] in questions.at && copies[j].Entry() == questions.at[questions.keys[j]].Entry()
      {
        assert questions.keys[i] in questions.keys;
        var q := questions.at[questions.keys[i]];
        var copy := new QuestionData(q.question, q.answer, q.timedOut);
        copies := copies + [copy];
      }
    }

    /** Fold a whole run of events: what was handed out before it is untouched by all of it. */
    method FoldThrough(events: seq<Arriving>)
      requires Valid() && forall i :: 0 <= i < |events| ==> Arrives(events[i])
      modifies this, questions.at.Values
      ensures Valid()
      ensures View() == FoldAll(old(View()), EventsIn(events))
      ensures forall q :: q in old(shared) ==> q.Entry() == old(q.Entry())
    {
      for i := 0 to |events|
        invariant Valid() && old(shared) <= shared
        invariant View() == FoldAll(old(View()), EventsIn(events[..i]))
        invariant forall q :: q in old(shared) ==> q.Entry() == old(q.Entry())
        invariant forall k :: k in questions.at ==>
          questions.at[k] in old(questions.at.Values) || fresh(questions.at[k])
      {
        assert EventsIn(events[..i + 1])[..i] == EventsIn(events[..i]);
        FoldInto(events[i]);
      }
      assert events[..|events|] == events;
    }
  }

  function EventsIn(events: seq<Arriving>): seq<Event> {
    seq(|events|, i requires 0 <= i < |events| => EventIn(events[i]))
  }

  /** The contents of a snapshot, its question objects read now. */
  datatype Contents = Contents(
    brief: Option<Brief>,
    questions: seq<QuestionEntry>,
    assumptions: seq<Assumed>,
    stepResults: seq<StepOutcome>,
    connectionNeeds: seq<ConnectionNeed>,
    offerPending: bool,
    busy: bool)

  ghost function ViewOf(s: SessionSnapshot): Contents
    reads set q | q in s.questions
  {
    Contents(s.brief, EntriesIn(s.questions), s.assumptions, s.stepResults, s.connectionNeeds, s.offerPending, s.busy)
  }

  ghost function QuestionsIn(s: SessionSnapshot): set<QuestionData> {
    set q | q in s.questions
  }

  ghost function EntriesIn(qs: seq<QuestionData>): (r: seq<QuestionEntry>)
    reads set q | q in qs
    ensures |r| == |qs| && forall i :: 0 <= i < |qs| ==> r[i] == qs[i].Entry()
  {
    if qs == [] then [] else EntriesIn(qs[..|qs| - 1]) + [qs[|qs| - 1].Entry()]
  }

  /** What a client is to be handed of a snapshot: every map's values in their order. */
  ghost function Handed(s: Snapshot, busy: bool): Contents {
    Contents(s.brief, ValuesOf(s.questions), s.assumptions, ValuesOf(s.stepResults), ValuesOf(s.connectionNeeds),
      s.offerPending, busy)
  }

  ghost function ValuesOf<V>(m: JsMap<V>): seq<V> {
    if m.Valid() then m.Values() else []
  }
}

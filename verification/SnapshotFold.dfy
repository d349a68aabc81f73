/**
 The rolling snapshot a session keeps for reattaching clients, as a fold over its events, and the log queries
 that fold answers: what each field means in terms of the whole history.
 */
module SnapshotFold {
  import opened Protocol
  import opened JsMaps

  datatype QuestionEntry = QuestionEntry(question: Question, answer: Option<string>, timedOut: bool)
  datatype StepOutcome = StepOutcome(status: Status, summary: Option<string>)
  datatype ConnectionNeed = ConnectionNeed(provider: string, providerLabel: string)
  datatype Assumed = Assumed(nodeId: string, text: string)

  datatype Snapshot = Snapshot(
    brief: Option<Brief>,
    questions: JsMap<QuestionEntry>,
    assumptions: seq<Assumed>,
    stepResults: JsMap<StepOutcome>,
    connectionNeeds: JsMap<ConnectionNeed>,
    offerPending: bool)

  const EMPTY_SNAPSHOT := Snapshot(None, Empty(), [], Empty(), Empty(), false)

  function Fold(s: Snapshot, e: Event): Snapshot {
    match e
    case BriefPosted(brief) => s.(brief := Some(brief))
    case QuestionAsked(q) => s.(questions := s.questions.Set(q.id, QuestionEntry(q, None, false)))
    case QuestionResolved(id, answer, timedOut) =>
      if id !in s.questions.at then s
      else
        var q := s.questions.at[id];
        s.(questions := s.questions.Set(id, q.(answer := Some(answer), timedOut := q.timedOut || timedOut)))
    case Assumption(nodeId, text) =>
      if Assumed(nodeId, text) in s.assumptions then s
      else s.(assumptions := s.assumptions + [Assumed(nodeId, text)])
    case StepResult(nodeId, status, summary) =>
      s.(stepResults := s.stepResults.Set(nodeId, StepOutcome(status, summary)),
         // A step that passes needs its connection no more.
         connectionNeeds := if status == Passed then s.connectionNeeds.Delete(nodeId) else s.connectionNeeds)
    case ConnectionNeeded(nodeId, provider, name) =>
      s.(connectionNeeds := s.connectionNeeds.Set(nodeId, ConnectionNeed(provider, name)))
    case ConnectionResolved(nodeId) => s.(connectionNeeds := s.connectionNeeds.Delete(nodeId))
    case Offer(_) => s.(offerPending := true)
    case _ => s
  }

  function FoldAll(s: Snapshot, log: seq<Event>): Snapshot {
    if log == [] then s else Fold(FoldAll(s, log[..|log| - 1]), log[|log| - 1])
  }

  /** One event, entry by entry: what it adds, settles or replaces, and that the rest stays. */
  lemma OneEventFolded(s: Snapshot, e: Event)
    ensures var t := Fold(s, e);
      && t.brief == (if e.BriefPosted? then Some(e.brief) else s.brief)
      && (t.offerPending <==> s.offerPending || e.Offer?)
      && (forall a :: a in t.assumptions <==> a in s.assumptions || (e.Assumption? && a == Assumed(e.nodeId, e.text)))
      && (forall id :: id in t.connectionNeeds.at <==>
            || (e.ConnectionNeeded? && e.nodeId == id)
            || (id in s.connectionNeeds.at && !(e.ConnectionResolved? && e.nodeId == id)
                && !(e.StepResult? && e.status == Passed && e.nodeId == id)))
    ensures var t := Fold(s, e);
      && (forall id :: id in t.stepResults.at <==> id in s.stepResults.at || (e.StepResult? && e.nodeId == id))
      && (forall id :: id in t.stepResults.at ==>
            t.stepResults.at[id] ==
            if e.StepResult? && e.nodeId == id then StepOutcome(e.status, e.summary) else s.stepResults.at[id])
    ensures var t := Fold(s, e);
      && (forall id :: id in t.questions.at <==> id in s.questions.at || (e.QuestionAsked? && e.question.id == id))
      && (forall id :: id in t.questions.at ==>
            t.questions.at[id] ==
            if e.QuestionAsked? && e.question.id == id then QuestionEntry(e.question, None, false)
            else if e.QuestionResolved? && e.questionId == id then
              s.questions.at[id].(answer := Some(e.answer), timedOut := s.questions.at[id].timedOut || e.timedOut)
            else s.questions.at[id])
  {
  }

  /**
   What a living session does with an event: recording a user message opens a turn, which withdraws any standing offer.
   */
  function LiveStep(s: Snapshot, e: Event): Snapshot {
    if e.UserMessage? then s.(offerPending := false) else Fold(s, e)
  }

  function LiveAll(s: Snapshot, log: seq<Event>): Snapshot {
    if log == [] then s else LiveStep(LiveAll(s, log[..|log| - 1]), log[|log| - 1])
  }

  // ---- Log queries -----------------------------------------------------------------------------

  /** What a query looks for; the string names a question or a node. */
  datatype Query =
    | Briefs
    | Offers
    | UserMessages
    | Drafts
    | Asks(id: string)
    | Resolves(id: string)
    | TimesOut(id: string)
    | Assumes(a: Assumed)
    | Reports(id: string)
    | Needs(id: string)
    | Settles(id: string)

  predicate Hits(q: Query, e: Event) {
    match q
    case Briefs => e.BriefPosted?
    case Offers => e.Offer?
    case UserMessages => e.UserMessage?
    case Drafts => e.OpApplied?
    case Asks(id) => e.QuestionAsked? && e.question.id == id
    case Resolves(id) => e.QuestionResolved? && e.questionId == id
    case TimesOut(id) => e.QuestionResolved? && e.questionId == id && e.timedOut
    case Assumes(a) => e.Assumption? && Assumed(e.nodeId, e.text) == a
    case Reports(id) => e.StepResult? && e.nodeId == id
    case Needs(id) => e.ConnectionNeeded? && e.nodeId == id
    case Settles(id) =>
      (e.ConnectionResolved? && e.nodeId == id) || (e.StepResult? && e.nodeId == id && e.status == Passed)
  }

  /** The index of the last event a query hits, or -1. */
  function Last(log: seq<Event>, q: Query): (r: int)
    ensures -1 <= r < |log|
    ensures r >= 0 ==> Hits(q, log[r])
    ensures forall i :: r < i < |log| ==> !Hits(q, log[i])
  {
    if log == [] then -1
    else if Hits(q, log[|log| - 1]) then |log| - 1
    else Last(log[..|log| - 1], q)
  }

  /** The index of the first event at or after `from` that a query hits, or the length of the log. */
  function First(log: seq<Event>, q: Query, from: nat): (r: nat)
    requires from <= |log|
    ensures from <= r <= |log|
    ensures r < |log| ==> Hits(q, log[r])
    ensures forall i :: from <= i < r ==> !Hits(q, log[i])
    decreases |log| - from
  {
    if from == |log| || Hits(q, log[from]) then from else First(log, q, from + 1)
  }

  lemma FirstSnoc(log: seq<Event>, e: Event, q: Query, from: nat)
    requires from <= |log|
    ensures First(log, q, from) < |log| ==> First(log + [e], q, from) == First(log, q, from)
    ensures First(log, q, from) == |log| && Hits(q, e) ==> First(log + [e], q, from) == |log|
  {
    var r, r' := First(log, q, from), First(log + [e], q, from);
    assert r < |log| ==> (log + [e])[r] == log[r];
    assert r' < |log| ==> (log + [e])[r'] == log[r'];
    assert (log + [e])[|log|] == e;
  }

  lemma LastSnoc(log: seq<Event>, e: Event, q: Query)
    ensures Last(log + [e], q) == if Hits(q, e) then |log| else Last(log, q)
  {
    assert (log + [e])[..|log|] == log;
  }

  // ---- Insertion order -------------------------------------------------------------------------

  /**
   The order the entries of a map stand in: questions by first ask, results by first report, needs by when they arose.
   */
  datatype Order = ByAsk | ByReport | ByNeed

  function Rank(log: seq<Event>, kind: Order, k: string): nat {
    match kind
    case ByAsk => First(log, Asks(k), 0)
    case ByReport => First(log, Reports(k), 0)
    // The need that stands arose with the first ask after whatever last settled the node.
    case ByNeed => First(log, Needs(k), Last(log, Settles(k)) + 1)
  }

  ghost predicate Ordered(log: seq<Event>, kind: Order, keys: seq<string>) {
    forall i, j :: 0 <= i < j < |keys| ==> Rank(log, kind, keys[i]) < Rank(log, kind, keys[j])
  }

  lemma OrderTransfers(keys: seq<string>, kind: Order, log: seq<Event>, log': seq<Event>)
    requires Ordered(log, kind, keys)
    requires forall k :: k in keys ==> Rank(log, kind, k) == Rank(log', kind, k)
    ensures Ordered(log', kind, keys)
  {
    forall i, j | 0 <= i < j < |keys|
      ensures Rank(log', kind, keys[i]) < Rank(log', kind, keys[j])
    {
      assert keys[i] in keys && keys[j] in keys;
    }
  }

  lemma OrderAppends(keys: seq<string>, k: string, kind: Order, log: seq<Event>)
    requires Ordered(log, kind, keys)
    requires forall x :: x in keys ==> Rank(log, kind, x) < Rank(log, kind, k)
    ensures Ordered(log, kind, keys + [k])
  {
    forall i, j | 0 <= i < j < |keys + [k]|
      ensures Rank(log, kind, (keys + [k])[i]) < Rank(log, kind, (keys + [k])[j])
    {
      assert (keys + [k])[i] == keys[i] && keys[i] in keys;
    }
  }

  lemma OrderSurvivesDelete(keys: seq<string>, k: string, kind: Order, log: seq<Event>)
    requires Ordered(log, kind, keys)
    ensures Ordered(log, kind, Without(keys, k))
  {
    WithoutKeepsOrder(keys, k, x => Rank(log, kind, x));
    var rank := (x: string) => Rank(log, kind, x);
    assert forall x :: rank(x) == Rank(log, kind, x);
  }

  // ---- The fold refines the queries ------------------------------------------------------------

  /** A node's step result is its last one. */
  ghost predicate ResultMatches(log: seq<Event>, n: string, m: JsMap<StepOutcome>) {
    var last := Last(log, Reports(n));
    && (n in m.at <==> last >= 0)
    && (n in m.at ==> m.at[n] == StepOutcome(log[last].status, log[last].summary))
  }

  ghost predicate Stands(log: seq<Event>, n: string, i: int) {
    0 <= i < |log| && Hits(Needs(n), log[i]) && forall j :: i < j < |log| ==> !Hits(Settles(n), log[j])
  }

  /**
   A node has a standing connection need exactly when some ask for it has no later resolution and no later green
   test; the need is its last ask.
   */
  ghost predicate NeedMatches(log: seq<Event>, n: string, m: JsMap<ConnectionNeed>) {
    var last := Last(log, Needs(n));
    && (n in m.at <==> exists i :: Stands(log, n, i))
    && (n in m.at ==> last >= 0 && m.at[n] == ConnectionNeed(log[last].provider, log[last].providerLabel))
  }

  /**
   A question is known once asked and holds its latest wording. It is answered exactly when a resolution names it
   after that wording, with the last such answer; it timed out exactly when some such resolution says so.
   */
  ghost predicate QuestionMatches(log: seq<Event>, q: string, m: JsMap<QuestionEntry>) {
    var asked, resolved := Last(log, Asks(q)), Last(log, Resolves(q));
    && (q in m.at <==> asked >= 0)
    && (q in m.at ==>
          && m.at[q].question == log[asked].question
          && m.at[q].answer == (if resolved > asked then Some(log[resolved].answer) else None)
          && (m.at[q].timedOut <==> Last(log, TimesOut(q)) > asked))
  }

  /** The assumptions are the distinct ones of the log, in the order of their first occurrence. */
  ghost predicate AssumptionsMatch(log: seq<Event>, assumptions: seq<Assumed>) {
    && (forall a :: a in assumptions <==> Last(log, Assumes(a)) >= 0)
    && (forall i, j :: 0 <= i < j < |assumptions| ==>
          First(log, Assumes(assumptions[i]), 0) < First(log, Assumes(assumptions[j]), 0))
  }

  ghost predicate BriefMatches(log: seq<Event>, brief: Option<Brief>) {
    var last := Last(log, Briefs);
    brief == if last >= 0 then Some(log[last].brief) else None
  }

  ghost predicate MapsOrdered(log: seq<Event>, s: Snapshot) {
    && s.questions.Valid() && Ordered(log, ByAsk, s.questions.keys)
    && s.stepResults.Valid() && Ordered(log, ByReport, s.stepResults.keys)
    && s.connectionNeeds.Valid() && Ordered(log, ByNeed, s.connectionNeeds.keys)
  }

  ghost predicate Answers(log: seq<Event>, s: Snapshot) {
    && BriefMatches(log, s.brief)
    && (forall q :: QuestionMatches(log, q, s.questions))
    && AssumptionsMatch(log, s.assumptions)
    && (forall n :: ResultMatches(log, n, s.stepResults))
    && (forall n :: NeedMatches(log, n, s.connectionNeeds))
    && (s.offerPending <==> Last(log, Offers) >= 0)
  }

  lemma ResultSnoc(log: seq<Event>, e: Event, s: Snapshot, n: string)
    requires ResultMatches(log, n, s.stepResults)
    ensures ResultMatches(log + [e], n, Fold(s, e).stepResults)
  {
    LastSnoc(log, e, Reports(n));
    var last := Last(log + [e], Reports(n));
    assert last >= 0 ==> (log + [e])[last] == if Hits(Reports(n), e) then e else log[last];
  }

  lemma QuestionSnoc(log: seq<Event>, e: Event, s: Snapshot, q: string)
    requires QuestionMatches(log, q, s.questions)
    ensures QuestionMatches(log + [e], q, Fold(s, e).questions)
  {
    LastSnoc(log, e, Asks(q));
    LastSnoc(log, e, Resolves(q));
    LastSnoc(log, e, TimesOut(q));
  }

  /** What an event does to the need of one node. */
  lemma NeedAfter(e: Event, s: Snapshot, n: string)
    ensures var at, at' := s.connectionNeeds.at, Fold(s, e).connectionNeeds.at;
      if Hits(Needs(n), e) then e.ConnectionNeeded? && n in at' && at'[n] == ConnectionNeed(e.provider, e.providerLabel)
      else if Hits(Settles(n), e) then n !in at'
      else (n in at' <==> n in at) && (n in at ==> at'[n] == at[n])
    ensures Hits(Needs(n), e) ==> !Hits(Settles(n), e)
  {
  }

  lemma NeedSnoc(log: seq<Event>, e: Event, s: Snapshot, n: string)
    requires NeedMatches(log, n, s.connectionNeeds)
    ensures NeedMatches(log + [e], n, Fold(s, e).connectionNeeds)
  {
    hide Fold, Hits, Stands, Last;
    NeedAfter(e, s, n);
    LastSnoc(log, e, Needs(n));
    StandsSnoc(log, e, n);
  }

  /** A need stands after an event when the event raises it, or it stood and the event does not settle it. */
  lemma StandsSnoc(log: seq<Event>, e: Event, n: string)
    ensures (exists i :: Stands(log + [e], n, i))
       <==> Hits(Needs(n), e) || ((exists i :: Stands(log, n, i)) && !Hits(Settles(n), e))
  {
    var log' := log + [e];
    if Hits(Needs(n), e) {
      assert Stands(log', n, |log|);
    }
    if i :| Stands(log, n, i) && !Hits(Settles(n), e) {
      assert Stands(log', n, i);
    }
    if i :| Stands(log', n, i) && i < |log| {
      assert log'[|log|] == e;
      assert forall j :: i < j < |log| ==> log'[j] == log[j];
      assert Stands(log, n, i);
    }
  }

  /** Where a standing need arose: after whatever last settled its node, and no later than any ask still standing. */
  lemma NeedArose(log: seq<Event>, n: string, i: int)
    requires Stands(log, n, i)
    ensures Last(log, Settles(n)) < i && Rank(log, ByNeed, n) <= i
  {
    var settled := Last(log, Settles(n));
    assert settled >= 0 ==> Hits(Settles(n), log[settled]);
    assert settled < i;
  }

  lemma NothingStands(log: seq<Event>, n: string)
    requires !exists i :: Stands(log, n, i)
    ensures First(log, Needs(n), Last(log, Settles(n)) + 1) == |log|
  {
    var first := First(log, Needs(n), Last(log, Settles(n)) + 1);
    if first < |log| {
      assert Stands(log, n, first);
    }
  }

  /** An event moves no entry a map already holds and keeps, and gives a new entry the last place. */
  lemma NeedRankSnoc(log: seq<Event>, e: Event, n: string)
    ensures (exists i :: Stands(log, n, i)) && !Hits(Settles(n), e) ==>
      Rank(log + [e], ByNeed, n) == Rank(log, ByNeed, n) < |log|
    ensures (!exists i :: Stands(log, n, i)) && Hits(Needs(n), e) ==> Rank(log + [e], ByNeed, n) == |log|
  {
    LastSnoc(log, e, Settles(n));
    FirstSnoc(log, e, Needs(n), Last(log, Settles(n)) + 1);
    if i :| Stands(log, n, i) {
      NeedArose(log, n, i);
    } else {
      NothingStands(log, n);
    }
  }

  lemma FirstOfKnown(log: seq<Event>, e: Event, q: Query)
    ensures Last(log, q) >= 0 ==> First(log + [e], q, 0) == First(log, q, 0) < |log|
    ensures Last(log, q) < 0 && Hits(q, e) ==> First(log + [e], q, 0) == |log|
  {
    FirstSnoc(log, e, q, 0);
    var first := First(log, q, 0);
    assert first < |log| ==> Hits(q, log[first]);
  }

  lemma AsksKeepRank(log: seq<Event>, e: Event, m: JsMap<QuestionEntry>)
    requires m.Valid() && Ordered(log, ByAsk, m.keys)
    requires forall q :: QuestionMatches(log, q, m)
    ensures Ordered(log + [e], ByAsk, m.keys)
    ensures forall k :: k in m.keys ==> Rank(log + [e], ByAsk, k) < |log|
    ensures forall k :: k !in m.at && Hits(Asks(k), e) ==> Rank(log + [e], ByAsk, k) == |log|
  {
    forall k
      ensures k in m.keys ==> Rank(log + [e], ByAsk, k) == Rank(log, ByAsk, k) < |log|
      ensures k !in m.at && Hits(Asks(k), e) ==> Rank(log + [e], ByAsk, k) == |log|
    {
      assert QuestionMatches(log, k, m);
      FirstOfKnown(log, e, Asks(k));
    }
    hide QuestionMatches, Rank, Hits;
    OrderTransfers(m.keys, ByAsk, log, log + [e]);
  }

  lemma QuestionOrderSnoc(log: seq<Event>, e: Event, s: Snapshot)
    requires s.questions.Valid() && Ordered(log, ByAsk, s.questions.keys)
    requires forall q :: QuestionMatches(log, q, s.questions)
    ensures Fold(s, e).questions.Valid() && Ordered(log + [e], ByAsk, Fold(s, e).questions.keys)
  {
    hide QuestionMatches, Rank, Ordered;
    var m := s.questions;
    AsksKeepRank(log, e, m);
    if e.QuestionAsked? {
      SetKeepsValid(m, e.question.id, QuestionEntry(e.question, None, false));
      if e.question.id !in m.at {
        OrderAppends(m.keys, e.question.id, ByAsk, log + [e]);
      }
    } else if e.QuestionResolved? && e.questionId in m.at {
      SetKeepsValid(m, e.questionId, Fold(s, e).questions.at[e.questionId]);
    }
  }

  lemma ResultOrderSnoc(log: seq<Event>, e: Event, s: Snapshot)
    requires s.stepResults.Valid() && Ordered(log, ByReport, s.stepResults.keys)
    requires forall n :: ResultMatches(log, n, s.stepResults)
    ensures Fold(s, e).stepResults.Valid() && Ordered(log + [e], ByReport, Fold(s, e).stepResults.keys)
  {
    var m := s.stepResults;
    forall k | k in m.keys
      ensures Rank(log + [e], ByReport, k) == Rank(log, ByReport, k) < |log|
    {
      assert ResultMatches(log, k, m);
      FirstOfKnown(log, e, Reports(k));
    }
    OrderTransfers(m.keys, ByReport, log, log + [e]);
    if e.StepResult? {
      SetKeepsValid(m, e.nodeId, StepOutcome(e.status, e.summary));
      if e.nodeId !in m.at {
        assert ResultMatches(log, e.nodeId, m);
        FirstOfKnown(log, e, Reports(e.nodeId));
        OrderAppends(m.keys, e.nodeId, ByReport, log + [e]);
      }
    }
  }

  lemma NeedOrderSnoc(log: seq<Event>, e: Event, s: Snapshot)
    requires s.connectionNeeds.Valid() && Ordered(log, ByNeed, s.connectionNeeds.keys)
    requires forall n :: NeedMatches(log, n, s.connectionNeeds)
    ensures Fold(s, e).connectionNeeds.Valid() && Ordered(log + [e], ByNeed, Fold(s, e).connectionNeeds.keys)
  {
    hide NeedMatches, Ordered, JsMap<ConnectionNeed>.Valid;
    match e {
      case ConnectionNeeded(_, _, _) => NeedRaised(log, e, s.connectionNeeds);
      case ConnectionResolved(n) => NeedSettled(log, e, s.connectionNeeds, n);
      case StepResult(n, Passed, _) => NeedSettled(log, e, s.connectionNeeds, n);
      case _ => NeedsUntouched(log, e, s.connectionNeeds);
    }
  }

  lemma AskedNeedOrder(log: seq<Event>, log': seq<Event>, m: JsMap<ConnectionNeed>, n: string, need: ConnectionNeed)
    requires m.Valid() && Ordered(log, ByNeed, m.keys)
    requires forall k :: k in m.keys ==> Rank(log', ByNeed, k) == Rank(log, ByNeed, k) < |log|
    requires n !in m.at ==> Rank(log', ByNeed, n) == |log|
    ensures m.Set(n, need).Valid() && Ordered(log', ByNeed, m.Set(n, need).keys)
  {
    SetKeepsValid(m, n, need);
    OrderTransfers(m.keys, ByNeed, log, log');
    if n !in m.at {
      OrderAppends(m.keys, n, ByNeed, log');
    }
  }

  lemma SettledNeedOrder(log: seq<Event>, log': seq<Event>, m: JsMap<ConnectionNeed>, n: string)
    requires m.Valid() && Ordered(log, ByNeed, m.keys)
    requires forall k :: k in m.keys && k != n ==> Rank(log', ByNeed, k) == Rank(log, ByNeed, k)
    ensures m.Delete(n).Valid() && Ordered(log', ByNeed, m.Delete(n).keys)
  {
    DeleteKeepsValid(m, n);
    OrderSurvivesDelete(m.keys, n, ByNeed, log);
    OrderTransfers(Without(m.keys, n), ByNeed, log, log');
  }

  lemma NeedRaised(log: seq<Event>, e: Event, m: JsMap<ConnectionNeed>)
    requires m.Valid() && Ordered(log, ByNeed, m.keys) && e.ConnectionNeeded?
    requires forall n :: NeedMatches(log, n, m)
    ensures var m' := m.Set(e.nodeId, ConnectionNeed(e.provider, e.providerLabel));
      m'.Valid() && Ordered(log + [e], ByNeed, m'.keys)
  {
    KeptNeedsKeepRank(log, e, m);
    assert NeedMatches(log, e.nodeId, m);
    NeedRankSnoc(log, e, e.nodeId);
    AskedNeedOrder(log, log + [e], m, e.nodeId, ConnectionNeed(e.provider, e.providerLabel));
  }

  lemma NeedSettled(log: seq<Event>, e: Event, m: JsMap<ConnectionNeed>, n: string)
    requires m.Valid() && Ordered(log, ByNeed, m.keys)
    requires forall k :: NeedMatches(log, k, m)
    requires forall k :: Hits(Settles(k), e) ==> k == n
    ensures m.Delete(n).Valid() && Ordered(log + [e], ByNeed, m.Delete(n).keys)
  {
    KeptNeedsKeepRank(log, e, m);
    SettledNeedOrder(log, log + [e], m, n);
  }

  lemma NeedsUntouched(log: seq<Event>, e: Event, m: JsMap<ConnectionNeed>)
    requires m.Valid() && Ordered(log, ByNeed, m.keys)
    requires forall k :: NeedMatches(log, k, m) && !Hits(Settles(k), e)
    ensures Ordered(log + [e], ByNeed, m.keys)
  {
    KeptNeedsKeepRank(log, e, m);
    OrderTransfers(m.keys, ByNeed, log, log + [e]);
  }

  lemma KeptNeedsKeepRank(log: seq<Event>, e: Event, m: JsMap<ConnectionNeed>)
    requires m.Valid()
    requires forall n :: NeedMatches(log, n, m)
    ensures forall k :: k in m.keys && !Hits(Settles(k), e) ==>
      Rank(log + [e], ByNeed, k) == Rank(log, ByNeed, k) < |log|
  {
    forall k | k in m.keys && !Hits(Settles(k), e)
      ensures Rank(log + [e], ByNeed, k) == Rank(log, ByNeed, k) < |log|
    {
      assert NeedMatches(log, k, m);
      NeedRankSnoc(log, e, k);
    }
  }

  /** The assumptions an event leaves: its own joins last, unless it is known. */
  lemma AssumptionsAfter(e: Event, s: Snapshot)
    ensures var a := if e.Assumption? then Some(Assumed(e.nodeId, e.text)) else None;
      Fold(s, e).assumptions == s.assumptions + if a.Some? && a.value !in s.assumptions then [a.value] else []
    ensures forall a :: Hits(Assumes(a), e) <==> e.Assumption? && a == Assumed(e.nodeId, e.text)
  {
    assert s.assumptions + [] == s.assumptions;
  }

  lemma AssumptionsSnoc(log: seq<Event>, e: Event, s: Snapshot)
    requires AssumptionsMatch(log, s.assumptions)
    ensures AssumptionsMatch(log + [e], Fold(s, e).assumptions)
  {
    hide Fold, Hits;
    AssumptionsAfter(e, s);
    var known, known' := s.assumptions, Fold(s, e).assumptions;
    forall a
      ensures a in known' <==> Last(log + [e], Assumes(a)) >= 0
    {
      LastSnoc(log, e, Assumes(a));
    }
    forall i | 0 <= i < |known'|
      ensures First(log + [e], Assumes(known'[i]), 0) == if i < |known| then First(log, Assumes(known[i]), 0) else |log|
      ensures i < |known| ==> First(log, Assumes(known[i]), 0) < |log|
    {
      if i < |known| {
        assert known'[i] == known[i] && known[i] in known;
      }
      FirstOfKnown(log, e, Assumes(known'[i]));
    }
    hide First, Last;
  }

  lemma AnswersSnoc(log: seq<Event>, e: Event, s: Snapshot)
    requires Answers(log, s)
    ensures Answers(log + [e], Fold(s, e))
  {
    LastSnoc(log, e, Briefs);
    LastSnoc(log, e, Offers);
    AssumptionsSnoc(log, e, s);
    forall k
      ensures QuestionMatches(log + [e], k, Fold(s, e).questions)
      ensures ResultMatches(log + [e], k, Fold(s, e).stepResults)
      ensures NeedMatches(log + [e], k, Fold(s, e).connectionNeeds)
    {
      QuestionSnoc(log, e, s, k);
      ResultSnoc(log, e, s, k);
      NeedSnoc(log, e, s, k);
    }
  }

  /**
   After any history, every field of the rolling snapshot answers its query over that whole history, and every map
   lists its entries in the order their present standing began.
   */
  lemma {:induction false} FoldRefinesQueries(log: seq<Event>)
    ensures Answers(log, FoldAll(EMPTY_SNAPSHOT, log))
    ensures MapsOrdered(log, FoldAll(EMPTY_SNAPSHOT, log))
  {
    if log != [] {
      var front, e := log[..|log| - 1], log[|log| - 1];
      var s := FoldAll(EMPTY_SNAPSHOT, front);
      FoldRefinesQueries(front);
      assert log == front + [e];
      AnswersSnoc(front, e, s);
      QuestionOrderSnoc(front, e, s);
      ResultOrderSnoc(front, e, s);
      NeedOrderSnoc(front, e, s);
    } else {
      forall n ensures !Stands(log, n, 0) && !exists i :: Stands(log, n, i) {}
    }
  }

  // ---- Live and replayed folds -----------------------------------------------------------------

  /** A living session's snapshot differs from the plain fold of its log in `offerPending` alone. */
  lemma {:induction false} LiveIsFoldButOffer(s: Snapshot, log: seq<Event>)
    ensures LiveAll(s, log).(offerPending := false) == FoldAll(s, log).(offerPending := false)
    ensures LiveAll(s, log).offerPending ==> FoldAll(s, log).offerPending
  {
    if log != [] {
      LiveIsFoldButOffer(s, log[..|log| - 1]);
      var live, plain := LiveAll(s, log[..|log| - 1]), FoldAll(s, log[..|log| - 1]);
      assert live == plain.(offerPending := live.offerPending);
    }
  }

  /** Live, an offer stands exactly when one was made since the last user message. */
  lemma {:induction false} LiveOfferIsSinceLastMessage(log: seq<Event>)
    ensures LiveAll(EMPTY_SNAPSHOT, log).offerPending <==> Last(log, Offers) > Last(log, UserMessages)
  {
    if log != [] {
      LiveOfferIsSinceLastMessage(log[..|log| - 1]);
    }
  }

  /** No message came after the last offer, or none came at all, or nothing was ever offered. */
  predicate OfferKept(pending: bool, log: seq<Event>) {
    || Last(log, UserMessages) < 0
    || Last(log, Offers) > Last(log, UserMessages)
    || (Last(log, Offers) < 0 && !pending)
  }

  /** Living through a log and folding it agree on the standing offer exactly when the log keeps it. */
  lemma {:induction false} OffersAgreeExactlyWhen(s: Snapshot, log: seq<Event>)
    ensures LiveAll(s, log).offerPending <==>
      if Last(log, UserMessages) >= 0 then Last(log, Offers) > Last(log, UserMessages)
      else s.offerPending || Last(log, Offers) >= 0
    ensures FoldAll(s, log).offerPending <==> s.offerPending || Last(log, Offers) >= 0
    ensures LiveAll(s, log) == FoldAll(s, log) <==> OfferKept(s.offerPending, log)
  {
    LiveIsFoldButOffer(s, log);
    if log != [] {
      OffersAgreeExactlyWhen(s, log[..|log| - 1]);
    }
    assert LiveAll(s, log) == FoldAll(s, log).(offerPending := LiveAll(s, log).offerPending);
  }

  lemma {:induction false} FoldAllConcat(s: Snapshot, a: seq<Event>, b: seq<Event>)
    ensures FoldAll(s, a + b) == FoldAll(FoldAll(s, a), b)
    ensures LiveAll(s, a + b) == LiveAll(LiveAll(s, a), b)
  {
    if b == [] {
      assert a + b == a;
    } else {
      assert (a + b)[..|a + b| - 1] == a + b[..|b| - 1];
      FoldAllConcat(s, a, b[..|b| - 1]);
    }
  }

  /** Without a user message, living through events and folding them is the same thing. */
  lemma {:induction false} LiveIsFoldWithinTurn(s: Snapshot, log: seq<Event>)
    requires forall i :: 0 <= i < |log| ==> !log[i].UserMessage?
    ensures LiveAll(s, log) == FoldAll(s, log)
  {
    if log != [] {
      LiveIsFoldWithinTurn(s, log[..|log| - 1]);
    }
  }
}

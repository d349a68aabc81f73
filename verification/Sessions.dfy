/**
 The in-memory composer session: its event counter, its ring buffer, its rolling snapshot and canvas bookkeeping, and
 its rebuilding from a stored log.
 */
module Sessions {
  import opened Protocol
  import opened SnapshotFold
  import opened Threads

  /** How many of its last events a session keeps at hand. */
  const EVENT_BUFFER_CAP: nat := 1000

  /** What a session remembers of its history. */
  datatype Hist = Hist(
    seqNo: nat,
    ring: seq<Sequenced>,
    snap: Snapshot,
    branch: Option<string>,
    steps: Option<seq<CanvasStep>>,
    draft: Option<WorkflowIr>)

  const FRESH := Hist(0, [], EMPTY_SNAPSHOT, None, None, None)

  function Buffered(ring: seq<Sequenced>, s: Sequenced): seq<Sequenced> {
    if |ring + [s]| > EVENT_BUFFER_CAP then (ring + [s])[1..] else ring + [s]
  }

  /** An applied batch sets the known steps; a message sets both steps and branch, to nothing when it brings none. */
  function Tracked(h: Hist, e: Event): Hist {
    match e
    case OpApplied(_, ir) => h.(steps := Some(StepsOf(ir)))
    case UserMessage(_, branch, steps) => h.(branch := branch, steps := steps)
    case _ => h
  }

  function Emitted(h: Hist, e: Event): Hist {
    Tracked(h, e).(seqNo := h.seqNo + 1, snap := Fold(h.snap, e), ring := Buffered(h.ring, Sequenced(e, h.seqNo + 1)))
  }

  /** The user's message enters buffer and log without being folded. */
  function Recorded(h: Hist, message: Event): Hist {
    Tracked(h, message).(seqNo := h.seqNo + 1, ring := Buffered(h.ring, Sequenced(message, h.seqNo + 1)))
  }

  /** A turn opens: its message is recorded, and any standing save offer is superseded. */
  function TurnOpened(h: Hist, message: Event): Hist {
    var h' := Recorded(h, message);
    h'.(snap := h'.snap.(offerPending := false))
  }

  function Rehydrated(h: Hist, s: Sequenced): Hist {
    var h' := Tracked(h, s.event);
    h'.(seqNo := if s.seqNo > h.seqNo then s.seqNo else h.seqNo,
        snap := Fold(h.snap, s.event),
        draft := if s.event.OpApplied? then Some(s.event.ir) else h.draft,
        ring := Buffered(h.ring, s))
  }

  function RehydratedAll(h: Hist, log: seq<Sequenced>): Hist {
    if log == [] then h else Rehydrated(RehydratedAll(h, log[..|log| - 1]), log[|log| - 1])
  }

  /** A session adopted by a stored thread and replayed from its log. */
  function FromThread(t: Thread): Hist {
    RehydratedAll(FRESH.(seqNo := t.lastSeq), LoadEvents(t, 0))
  }

  // ---- The ring buffer is the log's suffix -----------------------------------------------------

  function LastOf(log: seq<Sequenced>, n: nat): seq<Sequenced> {
    if |log| > n then log[|log| - n..] else log
  }

  lemma BufferedKeepsSuffix(log: seq<Sequenced>, s: Sequenced)
    ensures Buffered(LastOf(log, EVENT_BUFFER_CAP), s) == LastOf(log + [s], EVENT_BUFFER_CAP)
  {
  }

  // ---- Living ----------------------------------------------------------------------------------

  /**
   What happens to a living session: tools apply ops, turns and tools emit, messages open turns with the editor's
   canvas.
   */
  datatype LifeOp =
    | Emits(e: Event)
    | AppliesOps(ops: seq<string>, ir: WorkflowIr)
    | OpensTurn(text: string, branch: Option<string>, canvas: Option<WorkflowIr>)

  predicate ByTurn(op: LifeOp) {
    op.Emits? ==> !op.e.UserMessage? && !op.e.OpApplied?
  }

  function EventOf(op: LifeOp): Event {
    match op
    case Emits(e) => e
    case AppliesOps(ops, ir) => OpApplied(ops, ir)
    case OpensTurn(text, branch, canvas) =>
      UserMessage(text, branch, if canvas.Some? then Some(StepsOf(canvas.value)) else None)
  }

  function Lived(h: Hist, op: LifeOp): Hist {
    match op
    case Emits(e) => Emitted(h, e)
    case AppliesOps(ops, ir) => Emitted(h.(draft := Some(ir)), OpApplied(ops, ir))
    case OpensTurn(_, _, canvas) => TurnOpened(if canvas.Some? then h.(draft := canvas) else h, EventOf(op))
  }

  /** A tool or a turn emits an event; an applied batch has first become the draft. */
  function EmittedBy(h: Hist, e: Event): Hist {
    Lived(h, if e.OpApplied? then AppliesOps(e.ops, e.ir) else Emits(e))
  }

  function EmittedAll(h: Hist, events: seq<Event>): Hist {
    if events == [] then h else EmittedBy(EmittedAll(h, events[..|events| - 1]), events[|events| - 1])
  }

  lemma {:induction false} EmittedAllConcat(h: Hist, a: seq<Event>, b: seq<Event>)
    ensures EmittedAll(h, a + b) == EmittedAll(EmittedAll(h, a), b)
  {
    if b == [] {
      assert a + b == a;
    } else {
      assert (a + b)[..|a + b| - 1] == a + b[..|b| - 1];
      EmittedAllConcat(h, a, b[..|b| - 1]);
    }
  }

  function LivedAll(h: Hist, ops: seq<LifeOp>): Hist {
    if ops == [] then h else Lived(LivedAll(h, ops[..|ops| - 1]), ops[|ops| - 1])
  }

  /** The log those operations write, numbered on from `from`. */
  function LogOf(from: nat, ops: seq<LifeOp>): seq<Sequenced> {
    seq(|ops|, i requires 0 <= i < |ops| => Sequenced(EventOf(ops[i]), from + i + 1))
  }

  /** The canvas the latest message to carry one brought, if no batch was applied since. */
  function StandingCanvas(ops: seq<LifeOp>): Option<WorkflowIr> {
    if ops == [] then None
    else
      var op := ops[|ops| - 1];
      if op.AppliesOps? then None
      else if op.OpensTurn? && op.canvas.Some? then op.canvas
      else StandingCanvas(ops[..|ops| - 1])
  }

  /** The document the last applied batch left, or the one before them all. */
  function LastApplied(draft: Option<WorkflowIr>, ops: seq<LifeOp>): Option<WorkflowIr> {
    if ops == [] then draft
    else
      var op := ops[|ops| - 1];
      if op.AppliesOps? then Some(op.ir) else LastApplied(draft, ops[..|ops| - 1])
  }

  /** No canvas stands, or it is the document last applied. */
  predicate DraftKept(draft: Option<WorkflowIr>, ops: seq<LifeOp>) {
    StandingCanvas(ops).None? || StandingCanvas(ops) == LastApplied(draft, ops)
  }

  /** Everything but the standing offer and the draft document. */
  ghost predicate SameHistory(live: Hist, replayed: Hist) {
    && live.seqNo == replayed.seqNo
    && live.ring == replayed.ring
    && live.branch == replayed.branch
    && live.steps == replayed.steps
    && live.snap.(offerPending := false) == replayed.snap.(offerPending := false)
    && (live.snap.offerPending ==> replayed.snap.offerPending)
  }

  lemma OneStepAgrees(live: Hist, replayed: Hist, op: LifeOp)
    requires SameHistory(live, replayed)
    ensures SameHistory(Lived(live, op), Rehydrated(replayed, Sequenced(EventOf(op), live.seqNo + 1)))
  {
    var offer := replayed.snap.offerPending;
    assert live.snap == replayed.snap.(offerPending := live.snap.offerPending);
  }

  lemma {:induction false} LivingAgrees(live: Hist, replayed: Hist, ops: seq<LifeOp>)
    requires SameHistory(live, replayed)
    ensures SameHistory(LivedAll(live, ops), RehydratedAll(replayed, LogOf(live.seqNo, ops)))
    ensures LivedAll(live, ops).seqNo == live.seqNo + |ops|
  {
    if ops != [] {
      var front := ops[..|ops| - 1];
      LivingAgrees(live, replayed, front);
      assert LogOf(live.seqNo, ops)[..|ops| - 1] == LogOf(live.seqNo, front);
      OneStepAgrees(LivedAll(live, front), RehydratedAll(replayed, LogOf(live.seqNo, front)), ops[|ops| - 1]);
    }
  }

  /** What becomes of the draft, lived and replayed. */
  lemma {:induction false} DraftsOf(live: Hist, replayed: Hist, ops: seq<LifeOp>)
    requires live.draft == replayed.draft
    requires forall i :: 0 <= i < |ops| ==> ByTurn(ops[i])
    ensures LivedAll(live, ops).draft ==
      if StandingCanvas(ops).Some? then StandingCanvas(ops) else LastApplied(live.draft, ops)
    ensures RehydratedAll(replayed, LogOf(live.seqNo, ops)).draft == LastApplied(live.draft, ops)
  {
    if ops != [] {
      var front := ops[..|ops| - 1];
      DraftsOf(live, replayed, front);
      assert LogOf(live.seqNo, ops)[..|ops| - 1] == LogOf(live.seqNo, front);
    }
  }

  /** What becomes of the snapshot, lived and replayed. */
  lemma {:induction false} SnapshotsOf(live: Hist, replayed: Hist, ops: seq<LifeOp>)
    requires forall i :: 0 <= i < |ops| ==> ByTurn(ops[i])
    ensures LivedAll(live, ops).snap == LiveAll(live.snap, Events(LogOf(live.seqNo, ops)))
    ensures RehydratedAll(replayed, LogOf(live.seqNo, ops)).snap ==
      FoldAll(replayed.snap, Events(LogOf(live.seqNo, ops)))
  {
    if ops != [] {
      var front, op := ops[..|ops| - 1], ops[|ops| - 1];
      SnapshotsOf(live, replayed, front);
      LivedOnce(LivedAll(live, front), op);
      assert ops == front + [op];
      LogOfSnoc(live.seqNo, front, op);
      LiveAllSnoc(live.snap, Events(LogOf(live.seqNo, front)), EventOf(op));
      FoldAllSnoc(replayed.snap, Events(LogOf(live.seqNo, front)), EventOf(op));
      RehydratedSnoc(replayed, LogOf(live.seqNo, front), Sequenced(EventOf(op), live.seqNo + |front| + 1));
      hide Lived, Fold, LiveStep, Tracked;
    }
  }

  lemma FoldAllSnoc(s: Snapshot, log: seq<Event>, e: Event)
    ensures FoldAll(s, log + [e]) == Fold(FoldAll(s, log), e)
  {
    assert (log + [e])[..|log|] == log;
  }

  lemma RehydratedSnoc(h: Hist, log: seq<Sequenced>, s: Sequenced)
    ensures RehydratedAll(h, log + [s]).snap == Fold(RehydratedAll(h, log).snap, s.event)
  {
    assert (log + [s])[..|log|] == log;
  }

  lemma {:induction false} RehydratedAllConcat(h: Hist, a: seq<Sequenced>, b: seq<Sequenced>)
    ensures RehydratedAll(h, a + b) == RehydratedAll(RehydratedAll(h, a), b)
  {
    if b == [] {
      assert a + b == a;
    } else {
      assert (a + b)[..|a + b| - 1] == a + b[..|b| - 1];
      RehydratedAllConcat(h, a, b[..|b| - 1]);
    }
  }

  // ---- The stored log reads back ---------------------------------------------------------------

  lemma {:induction false} RowsBeyondEnd(rows: map<nat, Event>, after: nat, last: nat, upTo: nat)
    requires last <= upTo && forall s :: s in rows ==> s <= last
    ensures RowsBetween(rows, after, upTo) == RowsBetween(rows, after, last)
    decreases upTo
  {
    if last < upTo {
      RowsBeyondEnd(rows, after, last, upTo - 1);
      if upTo - 1 <= after {
        assert RowsBetween(rows, after, last) == [];
      }
    }
  }

  lemma {:induction false} RowsBelowUnchanged(rows: map<nat, Event>, s: Sequenced, after: nat, upTo: nat)
    requires upTo < s.seqNo
    ensures RowsBetween(rows[s.seqNo := s.event], after, upTo) == RowsBetween(rows, after, upTo)
    decreases upTo
  {
    if after < upTo {
      RowsBelowUnchanged(rows, s, after, upTo - 1);
    }
  }

  /** Storing the next event appends it to the log that loads. */
  lemma StoredAppends(t: Thread, s: Sequenced, after: nat)
    requires ThreadOk(t) && s.seqNo > t.lastSeq && after < s.seqNo
    ensures ThreadOk(Stored(t, s)) && Stored(t, s).lastSeq == s.seqNo
    ensures LoadEvents(Stored(t, s), after) == LoadEvents(t, after) + [s]
  {
    RowsBelowUnchanged(t.rows, s, after, s.seqNo - 1);
    RowsBeyondEnd(t.rows, after, t.lastSeq, s.seqNo - 1);
  }

  lemma {:induction false} StoredAllAppends(t: Thread, from: nat, ops: seq<LifeOp>)
    requires ThreadOk(t) && from == t.lastSeq
    ensures var t' := StoredAll(t, LogOf(from, ops));
      ThreadOk(t') && t'.lastSeq == from + |ops| && LoadEvents(t', 0) == LoadEvents(t, 0) + LogOf(from, ops)
  {
    if ops != [] {
      var front := ops[..|ops| - 1];
      StoredAllAppends(t, from, front);
      var log := LogOf(from, ops);
      assert log[..|ops| - 1] == LogOf(from, front);
      StoredAppends(StoredAll(t, LogOf(from, front)), log[|ops| - 1], 0);
      assert LoadEvents(t, 0) + log == LoadEvents(t, 0) + LogOf(from, front) + [log[|ops| - 1]];
    }
  }

  // ---- Rehydration equals having lived it ------------------------------------------------------

  /**
   A thread is rehydrated, lives through any operations with every write landing, and is rehydrated again, say after a
   crash. The rebuilt session is the one that lived, but for a standing offer and a draft; and it is the same in these
   too exactly when no message came after the last offer and no later canvas replaced the document last applied.
   */
  lemma RehydrationEqualsLiving(t: Thread, ops: seq<LifeOp>)
    requires ThreadOk(t)
    requires forall i :: 0 <= i < |ops| ==> ByTurn(ops[i])
    ensures var start, lived := FromThread(t), LivedAll(FromThread(t), ops);
      var again := FromThread(StoredAll(t, LogOf(t.lastSeq, ops)));
      var offer := OfferKept(start.snap.offerPending, Events(LogOf(t.lastSeq, ops)));
      && SameHistory(lived, again)
      && again.seqNo == t.lastSeq + |ops|
      && (lived.snap == again.snap <==> offer)
      && (lived.draft == again.draft <==> DraftKept(start.draft, ops))
      && (lived == again <==> offer && DraftKept(start.draft, ops))
  {
    var start := FromThread(t);
    ReplayedOnTop(t, ops);
    LivingAgrees(start, start, ops);
    DraftsOf(start, start, ops);
    SnapshotsOf(start, start, ops);
    OffersAgreeExactlyWhen(start.snap, Events(LogOf(t.lastSeq, ops)));
    hide FromThread, LivedAll, RehydratedAll, LiveAll, FoldAll, OfferKept, ThreadOk, ByTurn;
  }

  /** Rebuilding from the longer log is replaying its new part into the session rebuilt before. */
  lemma ReplayedOnTop(t: Thread, ops: seq<LifeOp>)
    requires ThreadOk(t)
    ensures FromThread(t).seqNo == t.lastSeq
    ensures FromThread(StoredAll(t, LogOf(t.lastSeq, ops))) == RehydratedAll(FromThread(t), LogOf(t.lastSeq, ops))
  {
    StoredAllAppends(t, t.lastSeq, ops);
    FloorIsReached(t);
    FloorIsReached(StoredAll(t, LogOf(t.lastSeq, ops)));
    RehydratedAllConcat(FRESH, LoadEvents(t, 0), LogOf(t.lastSeq, ops));
  }

  /** A turn makes an offer, then a message comes: the session that lived has withdrawn it, the rebuilt one has not. */
  lemma AnOfferOutlivesItsTurn(first: string, second: string)
    ensures var t := NewThread("", None);
      var ops := [OpensTurn(first, None, None), Emits(Offer("")), OpensTurn(second, None, None)];
      var lived, again := LivedAll(FromThread(t), ops), FromThread(StoredAll(t, LogOf(0, ops)));
      !lived.snap.offerPending && again.snap.offerPending
  {
    var t := NewThread("", None);
    var ops := [OpensTurn(first, None, None), Emits(Offer("")), OpensTurn(second, None, None)];
    NewThreadIsFresh();
    ReplayedOnTop(t, ops);
    SnapshotsOf(FRESH, FRESH, ops);
    var log := Events(LogOf(0, ops));
    var opening := UserMessage(first, None, None);
    assert log == [opening, Offer(""), UserMessage(second, None, None)];
    LastSnoc([], opening, Offers);
    LastSnoc([opening], Offer(""), Offers);
    LastSnoc([opening, Offer("")], UserMessage(second, None, None), Offers);
    LastSnoc([opening, Offer("")], UserMessage(second, None, None), UserMessages);
    OffersAgreeExactlyWhen(EMPTY_SNAPSHOT, log);
    hide LivedAll, FromThread, StoredAll, LiveAll, FoldAll, Last;
    assert [opening] + [Offer("")] == [opening, Offer("")];
    assert [opening, Offer("")] + [UserMessage(second, None, None)] == log;
  }

  /**
   A message with a canvas and no batch after it: the session that lived drafts on it, the rebuilt one has no draft.
   */
  lemma ACanvasIsNotLogged(text: string, ir: WorkflowIr)
    ensures var t, ops := NewThread("", None), [OpensTurn(text, None, Some(ir))];
      var lived, again := LivedAll(FromThread(t), ops), FromThread(StoredAll(t, LogOf(0, ops)));
      lived.draft == Some(ir) && again.draft == None
  {
    var t, ops := NewThread("", None), [OpensTurn(text, None, Some(ir))];
    NewThreadIsFresh();
    ReplayedOnTop(t, ops);
    DraftsOf(FRESH, FRESH, ops);
    assert ops[..0] == [] && LastApplied(None, ops) == None;
  }

  lemma NewThreadIsFresh()
    ensures ThreadOk(NewThread("", None)) && FromThread(NewThread("", None)) == FRESH
  {
    assert LoadEvents(NewThread("", None), 0) == [];
  }

  /** Adopting the thread's counter first, or letting its log count up to it, is the same. */
  lemma FloorIsReached(t: Thread)
    requires ThreadOk(t)
    ensures FromThread(t) == RehydratedAll(FRESH, LoadEvents(t, 0)) && FromThread(t).seqNo == t.lastSeq
  {
    LoadIsSortedRows(t, 0);
    var log := LoadEvents(t, 0);
    if t.lastSeq > 0 {
      assert Sequenced(t.rows[t.lastSeq], t.lastSeq) in log;
    }
    CountsUp(FRESH, t.lastSeq, log);
  }

  lemma {:induction false} CountsUp(h: Hist, floor: nat, log: seq<Sequenced>)
    requires forall i :: 0 <= i < |log| ==> log[i].seqNo <= floor
    requires h.seqNo <= floor
    ensures RehydratedAll(h.(seqNo := floor), log) == RehydratedAll(h, log).(seqNo := floor)
    ensures RehydratedAll(h, log).seqNo <= floor
    ensures forall i :: 0 <= i < |log| ==> log[i].seqNo <= RehydratedAll(h, log).seqNo
  {
    if log != [] {
      CountsUp(h, floor, log[..|log| - 1]);
    }
  }

  /** The operations that emit these events. */
  function OpsOf(events: seq<Event>): seq<LifeOp> {
    seq(|events|, i requires 0 <= i < |events| =>
      if events[i].OpApplied? then AppliesOps(events[i].ops, events[i].ir) else Emits(events[i]))
  }

  lemma {:induction false} EmittedIsLived(h: Hist, ops: seq<LifeOp>, events: seq<Event>)
    ensures EmittedAll(LivedAll(h, ops), events) == LivedAll(h, ops + OpsOf(events))
  {
    if events == [] {
      assert ops + OpsOf(events) == ops;
    } else {
      EmittedIsLived(h, ops, events[..|events| - 1]);
      assert (ops + OpsOf(events))[..|ops + OpsOf(events)| - 1] == ops + OpsOf(events[..|events| - 1]);
    }
  }

  /** What a rebuilt session holds, in terms of the log it was rebuilt from. */
  lemma {:induction false} RebuiltFromLog(h: Hist, log: seq<Sequenced>)
    requires h.ring == []
    ensures var r := RehydratedAll(h, log);
      && r.ring == LastOf(log, EVENT_BUFFER_CAP)
      && r.snap == FoldAll(h.snap, Events(log))
      && r.draft == (var last := Last(Events(log), Drafts); if last >= 0 then Some(log[last].event.ir) else h.draft)
  {
    if log != [] {
      var front, s := log[..|log| - 1], log[|log| - 1];
      RebuiltFromLog(h, front);
      BufferedKeepsSuffix(front, s);
      assert log == front + [s];
      assert Events(log) == Events(front) + [s.event];
      LastSnoc(Events(front), s.event, Drafts);
      FoldAllSnoc(h.snap, Events(front), s.event);
      assert Hits(Drafts, s.event) <==> s.event.OpApplied?;
      hide Fold, FoldAll, Last, Hits, LastOf, Tracked, Events;
    }
  }

  lemma LivedOnce(h: Hist, op: LifeOp)
    requires ByTurn(op)
    ensures Lived(h, op).seqNo == h.seqNo + 1
    ensures Lived(h, op).ring == Buffered(h.ring, Sequenced(EventOf(op), h.seqNo + 1))
    ensures Lived(h, op).snap == LiveStep(h.snap, EventOf(op))
  {
  }

  /** What a living session holds, in terms of the log it wrote since birth. */
  lemma {:induction false} LivedByLog(h: Hist, ops: seq<LifeOp>)
    requires h.ring == [] && forall i :: 0 <= i < |ops| ==> ByTurn(ops[i])
    ensures LivedAll(h, ops).seqNo == h.seqNo + |ops|
    ensures LivedAll(h, ops).ring == LastOf(LogOf(h.seqNo, ops), EVENT_BUFFER_CAP)
    ensures LivedAll(h, ops).snap == LiveAll(h.snap, Events(LogOf(h.seqNo, ops)))
  {
    if ops != [] {
      var front, op := ops[..|ops| - 1], ops[|ops| - 1];
      LivedByLog(h, front);
      assert ops == front + [op];
      LivedSnoc(h, front, op);
    }
  }

  lemma LivedSnoc(h: Hist, ops: seq<LifeOp>, op: LifeOp)
    requires ByTurn(op)
    requires LivedAll(h, ops).seqNo == h.seqNo + |ops|
    requires LivedAll(h, ops).ring == LastOf(LogOf(h.seqNo, ops), EVENT_BUFFER_CAP)
    requires LivedAll(h, ops).snap == LiveAll(h.snap, Events(LogOf(h.seqNo, ops)))
    ensures LivedAll(h, ops + [op]).seqNo == h.seqNo + |ops| + 1
    ensures LivedAll(h, ops + [op]).ring == LastOf(LogOf(h.seqNo, ops + [op]), EVENT_BUFFER_CAP)
    ensures LivedAll(h, ops + [op]).snap == LiveAll(h.snap, Events(LogOf(h.seqNo, ops + [op])))
  {
    hide Lived, LiveStep, LastOf, LiveAll, Events;
    assert (ops + [op])[..|ops|] == ops;
    assert LivedAll(h, ops + [op]) == Lived(LivedAll(h, ops), op);
    hide LivedAll;
    LivedOnce(LivedAll(h, ops), op);
    LogOfSnoc(h.seqNo, ops, op);
    hide LogOf;
    BufferedKeepsSuffix(LogOf(h.seqNo, ops), Sequenced(EventOf(op), h.seqNo + |ops| + 1));
    LiveAllSnoc(h.snap, Events(LogOf(h.seqNo, ops)), EventOf(op));
  }

  lemma LogOfSnoc(from: nat, ops: seq<LifeOp>, op: LifeOp)
    ensures LogOf(from, ops + [op]) == LogOf(from, ops) + [Sequenced(EventOf(op), from + |ops| + 1)]
    ensures Events(LogOf(from, ops + [op])) == Events(LogOf(from, ops)) + [EventOf(op)]
  {
  }

  lemma LiveAllSnoc(s: Snapshot, log: seq<Event>, e: Event)
    ensures LiveAll(s, log + [e]) == LiveStep(LiveAll(s, log), e)
  {
    assert (log + [e])[..|log|] == log;
  }

  // ---- What is known of the canvas -------------------------------------------------------------

  /** The steps known after a log: the last applied document's, or what a later message brought. */
  function StepsAfter(before: Option<seq<CanvasStep>>, log: seq<Event>): Option<seq<CanvasStep>> {
    var drafted, told := Last(log, Drafts), Last(log, UserMessages);
    if drafted > told then Some(StepsOf(log[drafted].ir))
    else if told >= 0 then log[told].steps
    else before
  }

  /** The branch is the last message's. */
  function BranchAfter(before: Option<string>, log: seq<Event>): Option<string> {
    var told := Last(log, UserMessages);
    if told >= 0 then log[told].branch else before
  }

  lemma CanvasSnoc(h: Hist, steps: Option<seq<CanvasStep>>, branch: Option<string>, log: seq<Event>, e: Event)
    requires h.steps == StepsAfter(steps, log) && h.branch == BranchAfter(branch, log)
    ensures Tracked(h, e).steps == StepsAfter(steps, log + [e])
    ensures Tracked(h, e).branch == BranchAfter(branch, log + [e])
  {
    LastSnoc(log, e, Drafts);
    LastSnoc(log, e, UserMessages);
    assert forall i :: 0 <= i < |log| ==> (log + [e])[i] == log[i];
    assert (log + [e])[|log|] == e;
    assert (Hits(Drafts, e) <==> e.OpApplied?) && (Hits(UserMessages, e) <==> e.UserMessage?);
    hide Last, Hits, StepsOf;
  }

  /** A rebuilt session knows of the canvas what its log last said of it. */
  lemma {:induction false} RebuiltCanvas(h: Hist, log: seq<Sequenced>)
    ensures RehydratedAll(h, log).steps == StepsAfter(h.steps, Events(log))
    ensures RehydratedAll(h, log).branch == BranchAfter(h.branch, Events(log))
  {
    if log != [] {
      var front, s := log[..|log| - 1], log[|log| - 1];
      RebuiltCanvas(h, front);
      CanvasSnoc(RehydratedAll(h, front), h.steps, h.branch, Events(front), s.event);
      assert Events(log) == Events(front) + [s.event];
      hide Fold, Tracked, StepsAfter, BranchAfter, Events;
    }
  }

  /** And so does one that lived through the log it wrote. */
  lemma {:induction false} LivedCanvas(h: Hist, ops: seq<LifeOp>)
    ensures LivedAll(h, ops).steps == StepsAfter(h.steps, Events(LogOf(h.seqNo, ops)))
    ensures LivedAll(h, ops).branch == BranchAfter(h.branch, Events(LogOf(h.seqNo, ops)))
  {
    if ops != [] {
      var front, op := ops[..|ops| - 1], ops[|ops| - 1];
      LivedCanvas(h, front);
      CanvasSnoc(LivedAll(h, front), h.steps, h.branch, Events(LogOf(h.seqNo, front)), EventOf(op));
      LivedTracks(LivedAll(h, front), op);
      LogOfSnoc(h.seqNo, front, op);
      assert ops == front + [op];
      hide Lived, Tracked, StepsAfter, BranchAfter, Events, LogOf, EventOf;
    }
  }

  lemma LivedTracks(h: Hist, op: LifeOp)
    ensures Lived(h, op).steps == Tracked(h, EventOf(op)).steps
    ensures Lived(h, op).branch == Tracked(h, EventOf(op)).branch
  {
    hide Fold, StepsOf;
  }

  /**
   What enters the log, numbered on: an event as emitted, a batch with the document it left, a message with its text,
   its branch and the steps of the canvas it brought, if it brought one.
   */
  lemma WhatIsLogged(from: nat, ops: seq<LifeOp>, i: nat)
    requires i < |ops|
    ensures |LogOf(from, ops)| == |ops|
    ensures var s := LogOf(from, ops)[i];
      && s.seqNo == from + i + 1
      && (ops[i].Emits? ==> s.event == ops[i].e)
      && (ops[i].AppliesOps? ==> s.event == OpApplied(ops[i].ops, ops[i].ir))
      && (ops[i].OpensTurn? ==>
            && s.event.UserMessage? && s.event.text == ops[i].text && s.event.branch == ops[i].branch
            && (s.event.steps.Some? <==> ops[i].canvas.Some?)
            && (ops[i].canvas.Some? ==> s.event.steps.value == StepsOf(ops[i].canvas.value)))
  {
  }
}

/** Where holes come from, over whole runs: without a failed write there is none, and one failed write is enough. */
module ReplayRuns {
  import opened Protocol
  import opened Logs
  import opened EventChannels
  import opened Threads
  import opened Sessions
  import opened ReplayModel
  import opened ReplayInvariant
  import opened ReplaySteps
  import opened ReplayTheorems

  // ---- A hole needs a failed write -------------------------------------------------------------

  /** The log grows by the next number at most. */
  ghost predicate Grows(w: World, w': World) {
    w'.log != w.log ==>
      && |w'.log| == |w.log| + 1 && w'.log[..|w.log|] == w.log && w'.log[|w.log|].seqNo == w.hist.seqNo + 1
  }

  /** A step that loses nothing: no consumer comes to miss a row, and no write fails. */
  ghost predicate Calm(w: World, w': World) {
    && w'.lost == w.lost
    && (forall i :: 0 <= i < |w'.consumers| && w'.consumers[i].readLost ==>
          i < |w.consumers| && w.consumers[i].readLost)
    && Grows(w, w')
  }

  lemma EmitIsCalm(w: World, op: LifeOp)
    ensures Calm(w, DoEmit(w, op))
  {
    WrittenCalm(w, op);
    hide Written;
    if w.subscriber.Some? && w.subscriber.value < |w.consumers| {
      PushedCalm(w.consumers[w.subscriber.value], Sequenced(EventOf(op), w.hist.seqNo + 1));
    }
    hide Pushed, EventOf;
  }

  lemma WrittenCalm(w: World, op: LifeOp)
    ensures Calm(w, Written(w, op)) && Written(w, op).consumers == w.consumers
  {
    hide Lived, EventOf;
  }

  lemma PushedCalm(c: Consumer, s: Sequenced)
    ensures Pushed(c, s).readLost == c.readLost
  {
  }

  lemma StreamSubscribesCalm(w: World, i: nat, op: LifeOp)
    requires i < |w.consumers|
    ensures Calm(w, DoStreamSubscribes(w, i, op))
  {
    ShutCalm(w);
    WrittenCalm(ShutSubscriber(w), op);
    hide ShutSubscriber, Written;
  }

  lemma ShutCalm(w: World)
    ensures Calm(w, ShutSubscriber(w)) && |ShutSubscriber(w).consumers| == |w.consumers|
    ensures ShutSubscriber(w).log == w.log && ShutSubscriber(w).hist == w.hist
  {
    hide AfterClose;
  }

  lemma AttachSubscribesCalm(w: World, i: nat)
    requires i < |w.consumers|
    ensures Calm(w, DoAttachSubscribes(w, i))
  {
    ShutCalm(w);
    hide ShutSubscriber;
  }

  lemma CheckLiveCalm(w: World, i: nat)
    requires i < |w.consumers|
    ensures Calm(w, DoCheckLive(w, i))
  {
    hide AfterClose;
  }

  lemma ClientGoneCalm(w: World, i: nat)
    requires i < |w.consumers|
    ensures Calm(w, DoClientGone(w, i))
  {
    hide AfterClose;
  }

  lemma HandleCalm(w: World, i: nat)
    requires i < |w.consumers| && w.consumers[i].inflight.Some?
    ensures Calm(w, DoHandle(w, i))
  {
    var c := w.consumers[i].(inflight := None, drained := w.consumers[i].inflight.value.End?);
    AttachEndsCalm(w, i, c);
    ReaderCalm(w, i, c);
    ReaderCalm(w, i, Closed(c, Draining));
    if w.consumers[i].inflight.value.Value? {
      ReaderCalm(w, i, Yielded(c, w.consumers[i].inflight.value.value));
    }
    hide Calm, AttachEnds, Closed, Yielded;
  }

  lemma ReaderCalm(w: World, i: nat, c: Consumer)
    requires i < |w.consumers| && (c.readLost ==> w.consumers[i].readLost)
    ensures Calm(w, w.(consumers := w.consumers[i := c]))
  {
  }

  lemma AttachEndsCalm(w: World, i: nat, c: Consumer)
    requires i < |w.consumers| && c.readLost == w.consumers[i].readLost
    ensures Calm(w, AttachEnds(w, i, c))
  {
    hide AfterClose;
  }

  lemma TurnEndsCalm(w: World)
    ensures Calm(w, DoTurnEnds(w))
  {
    hide AfterClose;
  }

  lemma ConsumerStepsCalm(w: World, i: nat)
    requires i < |w.consumers|
    ensures Calm(w, w.(consumers := w.consumers[i := Chosen(w, w.consumers[i])]))
    ensures Calm(w, w.(consumers := w.consumers[i := Replayed(w, w.consumers[i])]))
    ensures Calm(w, w.(consumers := w.consumers[i := Pulled(w.consumers[i])]))
    ensures w.lost == {} ==> Calm(w, w.(consumers := w.consumers[i := RowsRead(w, w.consumers[i])]))
  {
    hide *;
    var c := w.consumers[i];
    ChoiceMissesNothing(w, c);
    ReplayMissesNothing(w, c);
    ReaderCalm(w, i, Chosen(w, c));
    ReaderCalm(w, i, Replayed(w, c));
    ReaderCalm(w, i, Pulled(c));
    if w.lost == {} {
      ReaderCalm(w, i, RowsRead(w, c));
    }
  }

  lemma ChoiceMissesNothing(w: World, c: Consumer)
    ensures Chosen(w, c).readLost == c.readLost && Pulled(c).readLost == c.readLost
  {
    hide AfterNext, NextOutcomeOf, OldestBuffered;
  }

  lemma ReplayMissesNothing(w: World, c: Consumer)
    ensures Replayed(w, c).readLost == c.readLost
    ensures w.lost == {} ==> !RowsRead(w, c).readLost
  {
    hide LoadEvents, OldestBuffered;
  }

  lemma StepIsCalm(w: World, step: Step)
    requires Enabled(w, step) && !step.WriteFails? && !step.Crash? && w.lost == {}
    ensures Calm(w, Do(w, step))
  {
    hide DoEmit, DoStreamSubscribes, DoAttachSubscribes, DoCheckLive, DoHandle, DoClientGone, DoTurnEnds,
      RowsRead, Chosen, Replayed, Pulled, Stored;
    match step {
      case Emit(op) => EmitIsCalm(w, op);
      case StreamSubscribes(i, op) => StreamSubscribesCalm(w, i, op);
      case AttachSubscribes(i) => AttachSubscribesCalm(w, i);
      case DurableRead(i) => ConsumerStepsCalm(w, i);
      case Choose(i) => ConsumerStepsCalm(w, i);
      case ReplayNext(i) => ConsumerStepsCalm(w, i);
      case Pull(i) => ConsumerStepsCalm(w, i);
      case CheckLive(i) => CheckLiveCalm(w, i);
      case Handle(i) => HandleCalm(w, i);
      case ClientGone(i) => ClientGoneCalm(w, i);
      case TurnEnds => TurnEndsCalm(w);
      case _ =>
    }
  }

  /** Within one life of the process its log only grows, and what was stored stays stored. */
  lemma StepGrows(w: World, step: Step)
    requires Enabled(w, step) && !step.Crash?
    ensures Grows(w, Do(w, step))
    ensures Do(w, step).birth == w.birth && Do(w, step).durable == w.durable
    ensures Do(w, step).thread.lastSeq >= w.thread.lastSeq
  {
    hide DoEmit, DoStreamSubscribes, DoAttachSubscribes, DoCheckLive, DoHandle, DoClientGone, DoTurnEnds;
    hide RowsRead, Chosen, Replayed, Pulled;
    match step {
      case Emit(op) => EmitIsCalm(w, op);
      case StreamSubscribes(i, op) => StreamSubscribesCalm(w, i, op);
      case AttachSubscribes(i) => AttachSubscribesCalm(w, i);
      case CheckLive(i) => CheckLiveCalm(w, i);
      case Handle(i) => HandleCalm(w, i);
      case ClientGone(i) => ClientGoneCalm(w, i);
      case TurnEnds => TurnEndsCalm(w);
      case _ =>
    }
  }

  /** No write has failed, no consumer has missed a row, and the log's numbers are 1, 2, 3, … */
  ghost predicate Whole(w: World) {
    && w.lost == {}
    && Consecutive(w.log)
    && (forall i :: 0 <= i < |w.consumers| ==> !w.consumers[i].readLost)
  }

  lemma CalmStaysWhole(w: World, w': World)
    requires Whole(w) && Calm(w, w') && w.hist.seqNo == LastSeq(w.log)
    ensures Whole(w')
  {
  }

  lemma CrashStaysWhole(w: World)
    requires Reachable(w) && Whole(w)
    ensures Whole(Do(w, Crash))
  {
    if w.durable {
      StoredIsPrefix(w);
      RebuiltNumbers(w);
      hide Reachable, LoadEvents, FromThread;
    }
  }

  /**
   Unless a write fails, no step of any run, a crash included, leaves a hole in the log's numbers or hides a row from a
   read.
   */
  lemma {:induction false} NoFailureNoHole(w0: World, steps: seq<Step>)
    requires Initial(w0) && Consecutive(w0.log) && WriteFails !in steps
    ensures Whole(Run(w0, steps)) && Reachable(Run(w0, steps))
  {
    hide Reachable, Do, Enabled, Inv, Initial, Consecutive;
    RunIsReachable(w0, steps);
    if steps == [] {
      NobodyYet(w0);
    } else {
      var front, step := steps[..|steps| - 1], steps[|steps| - 1];
      NoFailureNoHole(w0, front);
      var w := Run(w0, front);
      if Enabled(w, step) {
        ReachableHolds(w);
        Parts(w);
        if step.Crash? {
          CrashStaysWhole(w);
        } else {
          assert step in steps;
          StepIsCalm(w, step);
          CalmStaysWhole(w, Do(w, step));
        }
      }
    }
  }

  lemma RunIsReachable(w0: World, steps: seq<Step>)
    requires Initial(w0)
    ensures Reachable(Run(w0, steps))
  {
    hide Run, Initial;
  }

  lemma NobodyYet(w0: World)
    requires Initial(w0)
    ensures w0.lost == {} && w0.consumers == []
  {
    hide LoadEvents, FromThread;
  }

  /**
   The promise of replay in full: where no write failed and the ring had not rolled past its cursor, a consumer has been
   sent, at every moment, exactly the events numbered from its cursor on, one by one.
   */
  lemma ExactlyOnceUnlessAWriteFails(w0: World, steps: seq<Step>, i: nat)
    requires Initial(w0) && Consecutive(w0.log) && WriteFails !in steps
    requires var w := Run(w0, steps); i < |w.consumers| && !w.consumers[i].rolled
    ensures var c := Run(w0, steps).consumers[i];
      && Increasing(Run(w0, steps).log)
      && c.out == Seg(Run(w0, steps).log, c.base, c.delivered)
      && forall k :: 0 <= k < |c.out| ==> c.out[k].seqNo == c.base + k + 1
  {
    NoFailureNoHole(w0, steps);
    var w := Run(w0, steps);
    hide Run, Reachable, Initial;
    ExactlyOnce(w, i);
    forall k | 0 <= k < |w.consumers[i].out|
      ensures w.consumers[i].out[k].seqNo == w.consumers[i].base + k + 1
    {
      DeliveredNumbers(w, i, k);
    }
  }

  // ---- One failed write is enough --------------------------------------------------------------

  lemma ReachableStep(w: World, step: Step)
    requires Reachable(w) && Enabled(w, step)
    ensures Reachable(Do(w, step))
  {
    hide Initial, Do, Enabled;
    var w0, steps :| Initial(w0) && w == Run(w0, steps);
    assert (steps + [step])[..|steps|] == steps;
    assert Do(w, step) == Run(w0, steps + [step]);
  }

  /** A stream whose turn has just begun under the first number: it waits for the next event. */
  function Sender(): Consumer {
    Subscribed(NewConsumer(Stream, 0), 1, Live).(base := 1, delivered := 1, chan := Chan([], true, false))
  }

  /** A new session's first turn has begun, its message queued if the session has a thread. */
  ghost predicate TurnBegun(w: World, op: LifeOp) {
    && Reachable(w) && w.turn && w.busy && !w.aborted && !w.timer && w.lost == {} && w.birth.ringFrom == 0
    && w.log == w.hist.ring == [Sequenced(EventOf(op), 1)] && w.hist.seqNo == 1
    && w.consumers == [Sender()] && w.subscriber == Some(0)
    && (w.durable ==> w.chain == w.log && w.thread == NewThread("", None))
  }

  lemma NewTurn(durable: bool, op: LifeOp) returns (w: World)
    requires op.OpensTurn?
    ensures TurnBegun(w, op) && w.durable == durable
  {
    w := if durable then Bound(NewThread("", None)) else MemoryOnly();
    assert LoadEvents(NewThread("", None), 0) == [];
    assert Initial(w);
    assert Run(w, []) == w;
    assert Reachable(w);
    hide Reachable, Initial;
    w := FirstTurn(w, op);
  }

  /** A process that holds an empty log is sent its first message. */
  lemma FirstTurn(w: World, op: LifeOp) returns (w': World)
    requires Reachable(w) && op.OpensTurn? && w == Start([], FRESH, w.durable, NewThread("", None), 0)
    ensures TurnBegun(w', op) && w'.durable == w.durable && w'.birth == w.birth
  {
    LivedOnce(w.hist, op);
    hide Reachable, Lived, EventOf;
    ReachableStep(w, OpenStream);
    w' := Do(w, OpenStream);
    w' := FirstMessage(w', op);
  }

  lemma FirstMessage(w: World, op: LifeOp) returns (w': World)
    requires Reachable(w) && op.OpensTurn? && w.consumers == [NewConsumer(Stream, 0)] && Lived(FRESH, op).seqNo == 1
    requires w == Start([], FRESH, w.durable, NewThread("", None), 0).(busy := true, consumers := w.consumers)
    requires Lived(FRESH, op).ring == [Sequenced(EventOf(op), 1)]
    ensures TurnBegun(w', op) && w'.durable == w.durable && w'.birth == w.birth
  {
    hide Reachable, Lived, EventOf;
    ReachableStep(w, StreamSubscribes(0, op));
    w' := Do(w, StreamSubscribes(0, op));
    ReachableStep(w', Pull(0));
    w' := Do(w', Pull(0));
  }

  /** The turn emits, and its reader yields the event and waits again. */
  lemma TurnSends(w: World, e: Event) returns (w': World)
    requires Reachable(w) && w.consumers == [Sender()] && w.subscriber == Some(0) && ByTurn(Emits(e))
    ensures var s := Sequenced(e, w.hist.seqNo + 1);
      && Reachable(w')
      && w' == w.(log := w.log + [s], hist := Lived(w.hist, Emits(e)),
                  chain := if w.durable then w.chain + [s] else w.chain,
                  consumers := [Sender().(pos := 2, out := [s], delivered := s.seqNo)])
  {
    hide Reachable, Lived;
    assert w.consumers[0].kind.Stream? && !w.consumers[0].pc.Announced?;
    CanEmit(w, e);
    ReachableStep(w, Emit(Emits(e)));
    EmitsToSender(w, e);
    hide DoEmit, Do, Enabled;
    w' := SenderYields(DoEmit(w, Emits(e)), Sequenced(e, w.hist.seqNo + 1));
  }

  lemma EmitsToSender(w: World, e: Event)
    requires w.consumers == [Sender()] && w.subscriber == Some(0)
    ensures var s := Sequenced(e, w.hist.seqNo + 1);
      DoEmit(w, Emits(e)) ==
        w.(log := w.log + [s], hist := Lived(w.hist, Emits(e)), chain := if w.durable then w.chain + [s] else w.chain,
           consumers := [Sender().(pos := 2, chan := Chan([], false, false), inflight := Some(Value(s)))])
  {
    hide Lived;
  }

  lemma SenderYields(w: World, s: Sequenced) returns (w': World)
    requires Reachable(w) && w.subscriber == Some(0)
    requires w.consumers == [Sender().(pos := 2, chan := Chan([], false, false), inflight := Some(Value(s)))]
    ensures Reachable(w')
    ensures w' == w.(consumers := [Sender().(pos := 2, out := [s], delivered := s.seqNo)])
  {
    hide Reachable;
    assert [] + [s] == [s];
    ReachableStep(w, Handle(0));
    w' := Do(w, Handle(0));
    ReachableStep(w', Pull(0));
    w' := Do(w', Pull(0));
  }

  /** An attach takes over from a stream, as far as its subscription. */
  function TakenOver(w: World, lastSeq: nat): World
    requires |w.consumers| == 1
  {
    var c := Subscribed(NewConsumer(Attach, lastSeq), |w.log|, if w.durable then Reading else Choosing);
    w.(consumers := [Shut(w.consumers[0]), c], subscriber := Some(1), timer := false)
  }

  lemma TakesOver(w: World, lastSeq: nat)
    requires Reachable(w) && |w.consumers| == 1 && w.subscriber == Some(0)
    ensures Reachable(TakenOver(w, lastSeq))
  {
    hide Reachable, AfterClose;
    ReachableStep(w, OpenAttach(lastSeq));
    var w1 := Do(w, OpenAttach(lastSeq));
    ReachableStep(w1, AttachSubscribes(1));
    assert Do(w1, AttachSubscribes(1)) == TakenOver(w, lastSeq);
  }

  lemma ReadsRows(w: World, i: nat) returns (w': World)
    requires Reachable(w) && At(w, i, Reading)
    ensures Reachable(w') && w' == w.(consumers := w.consumers[i := RowsRead(w, w.consumers[i])])
  {
    hide Reachable, RowsRead;
    ReachableStep(w, DurableRead(i));
    w' := Do(w, DurableRead(i));
  }

  lemma ReplaysOnce(w: World, i: nat) returns (w': World)
    requires Reachable(w) && (At(w, i, Rows) || At(w, i, Ring))
    ensures Reachable(w') && w' == w.(consumers := w.consumers[i := Replayed(w, w.consumers[i])])
  {
    hide Reachable, Replayed;
    ReachableStep(w, ReplayNext(i));
    w' := Do(w, ReplayNext(i));
  }

  lemma YieldsHead(w: World, i: nat) returns (w': World)
    requires Reachable(w) && At(w, i, Rows) && !w.consumers[i].gone
    requires w.consumers[i].todo != [] && w.consumers[i].todo[0].seqNo > w.consumers[i].delivered
    ensures Reachable(w')
    ensures var c := w.consumers[i]; w' == w.(consumers := w.consumers[i :=
      c.(todo := c.todo[1..], out := c.out + [c.todo[0]], delivered := c.todo[0].seqNo)])
  {
    w' := ReplaysOnce(w, i);
  }

  lemma CopiesRing(w: World, i: nat) returns (w': World)
    requires Reachable(w) && At(w, i, Rows) && !w.consumers[i].gone && w.consumers[i].todo == []
    requires !Between(w.log, w.consumers[i].delivered, OldestBuffered(w.hist))
    ensures Reachable(w')
    ensures w' == w.(consumers := w.consumers[i :=
      w.consumers[i].(pc := Ring, todo := w.hist.ring, mark := |w.log|, rolled := false)])
  {
    w' := ReplaysOnce(w, i);
  }

  lemma SkipsHead(w: World, i: nat) returns (w': World)
    requires Reachable(w) && At(w, i, Ring) && !w.consumers[i].gone
    requires w.consumers[i].todo != [] && w.consumers[i].todo[0].seqNo <= w.consumers[i].delivered
    ensures Reachable(w')
    ensures w' == w.(consumers := w.consumers[i := w.consumers[i].(todo := w.consumers[i].todo[1..])])
  {
    w' := ReplaysOnce(w, i);
  }

  lemma Marks(w: World, i: nat) returns (w': World)
    requires Reachable(w) && At(w, i, Ring) && w.consumers[i].todo == []
    ensures Reachable(w') && w' == w.(consumers := w.consumers[i := w.consumers[i].(pc := Marked)])
  {
    w' := ReplaysOnce(w, i);
  }

  /** The message that opens a session's first turn is not written, the next event is: what an attach then finds. */
  lemma FirstWriteFails(op: LifeOp, e: Event) returns (w: World)
    requires op.OpensTurn? && ByTurn(Emits(e))
    ensures Reachable(w) && w.durable && |w.consumers| == 1 && w.subscriber == Some(0) && w.turn
    ensures w.log == w.hist.ring == [Sequenced(EventOf(op), 1), Sequenced(e, 2)] && w.hist.seqNo == 2
    ensures w.thread.rows == map[2 := e] && w.thread.lastSeq == 2 && w.lost == {1}
  {
    w := NewTurn(true, op);
    LivedOnce(w.hist, Emits(e));
    hide Reachable, Lived, EventOf;
    w := TurnSends(w, e);
    ReachableStep(w, WriteFails);
    w := Do(w, WriteFails);
    ReachableStep(w, WriteLands);
    w := Do(w, WriteLands);
  }

  /**
   One failed write makes a hole no replay fills: a client with no history attaches during the turn, is sent the second
   event and never the first, though the ring holds both.
   */
  lemma OneFailureLeavesAHole(op: LifeOp, e: Event) returns (w: World)
    requires op.OpensTurn? && ByTurn(Emits(e))
    ensures Reachable(w) && |w.consumers| == 2 && Consecutive(w.log)
    ensures w.hist.ring == w.log == [Sequenced(EventOf(op), 1), Sequenced(e, 2)]
    ensures var c := w.consumers[1]; c.pc.Marked? && !c.gone && !c.rolled && c.base == 0 && c.out == [Sequenced(e, 2)]
  {
    hide Reachable, LoadEvents, Consecutive, Replayed, EventOf;
    w := FirstWriteFails(op, e);
    OnlySecondIsStored(w.thread, e);
    TakesOver(w, 0);
    w := TakenOver(w, 0);
    w := ReadsRows(w, 1);
    w := YieldsHead(w, 1);
    w := CopiesRing(w, 1);
    w := SkipsHead(w, 1);
    w := SkipsHead(w, 1);
    w := Marks(w, 1);
    BothNumbered(w.log);
  }

  lemma BothNumbered(log: seq<Sequenced>)
    requires |log| == 2 && log[0].seqNo == 1 && log[1].seqNo == 2
    ensures Consecutive(log)
  {
  }

  lemma OnlySecondIsStored(t: Thread, e: Event)
    requires t.rows == map[2 := e] && t.lastSeq == 2
    ensures LoadEvents(t, 0) == [Sequenced(e, 2)]
  {
    assert RowsBetween(t.rows, 0, 0) == [];
    assert RowsBetween(t.rows, 0, 1) == [];
  }

  // ---- Many events -----------------------------------------------------------------------------

  /** A turn goes on emitting while its reader `i` does not read: what that leaves, `n` events on. */
  ghost predicate EmittedOn(w: World, w': World, i: nat, e: Event, n: nat) {
    && w' == w.(log := w'.log, hist := w'.hist, chain := w'.chain, consumers := w'.consumers)
    && |w'.log| == |w.log| + n && w'.log[..|w.log|] == w.log
    && (forall k :: |w.log| <= k < |w'.log| ==> w'.log[k].event == e)
    && (Consecutive(w.log) ==> Consecutive(w'.log))
    && i < |w.consumers| == |w'.consumers|
    && w'.consumers == w.consumers[i := w.consumers[i].(chan := w'.consumers[i].chan)]
    && Filled(w.consumers[i].chan, w'.consumers[i].chan, n)
  }

  /** `n` pushes later a channel nobody reads holds as many values more, or has closed; closed, it stays so. */
  predicate Filled(before: Chan<Sequenced>, after: Chan<Sequenced>, n: nat) {
    && !after.waiter && |after.buffer| <= MAX_BUFFER
    && (before.closed ==> after.closed)
    && (!after.closed ==> |after.buffer| == |before.buffer| + n)
  }

  /** Reader `i` is not reading while a turn emits. */
  predicate Unread(w: World, i: nat) {
    && TurnBegan(w) && i < |w.consumers| && w.subscriber == Some(i)
    && !w.consumers[i].chan.waiter && |w.consumers[i].chan.buffer| <= MAX_BUFFER
  }

  lemma EmitOnce(w: World, i: nat, e: Event) returns (w': World)
    requires Reachable(w) && ByTurn(Emits(e)) && Unread(w, i)
    ensures Reachable(w') && EmittedOn(w, w', i, e, 1)
  {
    hide *;
    UnreadIs(w, i);
    CanEmit(w, e);
    ReachableStep(w, Emit(Emits(e)));
    w' := DoEmit(w, Emits(e));
    ReachableHolds(w);
    Parts(w);
    ConsecutiveGrows(w.log, Sequenced(e, w.hist.seqNo + 1));
    EmittedOnce(w, i, e);
  }

  lemma UnreadIs(w: World, i: nat)
    requires Unread(w, i)
    ensures TurnBegan(w)
  {
  }

  lemma CanEmit(w: World, e: Event)
    requires ByTurn(Emits(e)) && TurnBegan(w)
    ensures Enabled(w, Emit(Emits(e))) && Do(w, Emit(Emits(e))) == DoEmit(w, Emits(e))
  {
    hide DoEmit;
  }

  lemma EmittedOnce(w: World, i: nat, e: Event)
    requires Unread(w, i)
    requires Consecutive(w.log) ==> Consecutive(w.log + [Sequenced(e, w.hist.seqNo + 1)])
    ensures EmittedOn(w, DoEmit(w, Emits(e)), i, e, 1)
  {
    PushFills(w.consumers[i], Sequenced(e, w.hist.seqNo + 1));
    hide Lived, Consecutive, Pushed, Filled;
  }

  lemma PushFills(c: Consumer, s: Sequenced)
    requires !c.chan.waiter && |c.chan.buffer| <= MAX_BUFFER
    ensures Pushed(c, s) == c.(chan := Pushed(c, s).chan) && Filled(c.chan, Pushed(c, s).chan, 1)
  {
  }

  lemma ConsecutiveGrows(log: seq<Sequenced>, s: Sequenced)
    requires s.seqNo == LastSeq(log) + 1
    ensures Consecutive(log) ==> Consecutive(log + [s])
  {
  }

  lemma EmittedNothing(w: World, i: nat, e: Event)
    requires Unread(w, i)
    ensures EmittedOn(w, w, i, e, 0)
  {
    hide Consecutive;
  }

  lemma EmittedFurther(w: World, w1: World, w': World, i: nat, e: Event, n: nat)
    requires EmittedOn(w, w1, i, e, n) && EmittedOn(w1, w', i, e, 1)
    ensures EmittedOn(w, w', i, e, n + 1)
  {
    hide Consecutive;
    assert w'.log[..|w.log|] == w'.log[..|w1.log|][..|w.log|];
    forall k | |w.log| <= k < |w'.log|
      ensures w'.log[k].event == e
    {
      if k < |w1.log| {
        assert w'.log[k] == w1.log[k];
      }
    }
  }

  lemma StillUnread(w: World, w': World, i: nat, e: Event, n: nat)
    requires Unread(w, i) && EmittedOn(w, w', i, e, n)
    ensures Unread(w', i)
  {
    hide Consecutive;
    var j :| 0 <= j < |w.consumers| && w.consumers[j].kind.Stream? && !w.consumers[j].pc.Announced?;
    assert w'.consumers[j].kind.Stream? && !w'.consumers[j].pc.Announced?;
  }

  lemma {:induction false} EmitsMany(w: World, i: nat, e: Event, n: nat) returns (w': World)
    requires Reachable(w) && ByTurn(Emits(e)) && Unread(w, i)
    ensures Reachable(w') && EmittedOn(w, w', i, e, n)
  {
    hide Reachable, ByTurn, Unread, EmittedOn;
    if n == 0 {
      w' := w;
      EmittedNothing(w, i, e);
    } else {
      var w1 := EmitsMany(w, i, e, n - 1);
      StillUnread(w, w1, i, e, n - 1);
      w' := EmitOnce(w1, i, e);
      EmittedFurther(w, w1, w', i, e, n - 1);
    }
  }
}

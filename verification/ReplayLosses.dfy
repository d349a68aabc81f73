/**
 The other ways an event passes a client by, each as a run: a turn that ends while an attach still replays, a tool that
 outlives its turn, a crash that hands out known numbers again, and a ring that rolls during a replay.
 */
module ReplayLosses {
  import opened Protocol
  import opened Logs
  import opened EventChannels
  import opened Threads
  import opened Sessions
  import opened ReplayModel
  import opened ReplayTheorems
  import opened ReplayRuns

  // ---- A turn ends during a replay -------------------------------------------------------------

  /**
   The turn's last event comes between the ring's copy and the busy check: the attach ends with the event still in its
   channel, its client present, no write lost and no ring rolled.
   */
  lemma ATurnEndsEarly(op: LifeOp, e: Event) returns (w: World)
    requires op.OpensTurn? && ByTurn(Emits(e))
    ensures Reachable(w) && w.log == [Sequenced(EventOf(op), 1), Sequenced(e, 2)] && |w.consumers| == 2
    ensures var c := w.consumers[1];
      && c.kind.Attach? && c.pc.Finished? && !c.gone && !c.drained && !c.readLost && !c.rolled
      && c.base == 1 && c.out == [] && c.chan.buffer == [Sequenced(e, 2)]
  {
    w := AttachMarks(op);
    w := LastEvent(w, e);
    w := EndsAtCheck(w);
  }

  /**
   A client that knows the opening message attaches during its turn; its replay is through, and the sender's stream is
   told the end.
   */
  lemma AttachMarks(op: LifeOp) returns (w: World)
    requires op.OpensTurn?
    ensures Reachable(w) && w.turn && w.busy && w.subscriber == Some(1) && |w.consumers| == 2 && !w.durable
    ensures w.log == [Sequenced(EventOf(op), 1)] && w.hist.seqNo == 1
    ensures w.consumers[0].pc.Draining? && w.consumers[0].kind.Stream?
    ensures w.consumers[1] == Subscribed(NewConsumer(Attach, 1), 1, Marked).(mark := 1)
  {
    var w0 := NewTurn(false, op);
    hide Reachable, EventOf, Replayed;
    TakesOver(w0, 1);
    w := ChoosesTail(TakenOver(w0, 1), op);
    w := SkipsHead(w, 1);
    w := Marks(w, 1);
    w := SenderIsTold(w);
  }

  lemma ChoosesTail(w: World, op: LifeOp) returns (w': World)
    requires Reachable(w) && At(w, 1, Choosing) && |w.consumers| == 2 && w.consumers[1].delivered == 1
    requires w.hist.ring == w.log == [Sequenced(EventOf(op), 1)]
    ensures Reachable(w')
    ensures w' == w.(consumers := w.consumers[1 := w.consumers[1].(pc := Ring, todo := w.log, mark := 1)])
  {
    hide Reachable, EventOf;
    ReachableStep(w, Choose(1));
    w' := Do(w, Choose(1));
  }

  lemma SenderIsTold(w: World) returns (w': World)
    requires Reachable(w) && |w.consumers| == 2 && At(w, 0, Live) && w.consumers[0].kind.Stream?
    requires w.consumers[0].inflight == Some(End)
    ensures Reachable(w') && w' == w.(consumers := w'.consumers) && |w'.consumers| == 2
    ensures w'.consumers[0].pc.Draining? && w'.consumers[0].kind.Stream? && w'.consumers[1] == w.consumers[1]
  {
    hide Reachable;
    ReachableStep(w, Handle(0));
    w' := Do(w, Handle(0));
  }

  lemma LastEmitted(w: World, e: Event) returns (w': World)
    requires Reachable(w) && ByTurn(Emits(e)) && w.subscriber == Some(1) && |w.consumers| == 2
    requires w.consumers[0].pc.Draining? && w.consumers[0].kind.Stream? && w.consumers[1].chan == Chan([], false, false)
    ensures Reachable(w') && w'.turn == w.turn && w'.busy == w.busy && w'.subscriber == w.subscriber
    ensures w'.log == w.log + [Sequenced(e, w.hist.seqNo + 1)]
    ensures w'.consumers ==
      w.consumers[1 := w.consumers[1].(chan := Chan([Sequenced(e, w.hist.seqNo + 1)], false, false))]
  {
    hide Reachable, Lived;
    assert TurnBegan(w) && [] + [Sequenced(e, w.hist.seqNo + 1)] == [Sequenced(e, w.hist.seqNo + 1)];
    ReachableStep(w, Emit(Emits(e)));
    w' := Do(w, Emit(Emits(e)));
  }

  /** The turn's last event comes, the turn ends, and its sender's stream returns. */
  lemma LastEvent(w: World, e: Event) returns (w': World)
    requires Reachable(w) && ByTurn(Emits(e)) && w.turn && w.busy && w.subscriber == Some(1) && |w.consumers| == 2
    requires w.consumers[0].pc.Draining? && w.consumers[0].kind.Stream? && w.consumers[1].chan == Chan([], false, false)
    ensures Reachable(w') && !w'.busy && |w'.consumers| == 2 && w'.subscriber == None
    ensures w'.log == w.log + [Sequenced(e, w.hist.seqNo + 1)]
    ensures w'.consumers[1] ==
      w.consumers[1].(chan := Chan([Sequenced(e, w.hist.seqNo + 1)], false, true), endAt := Some(|w.log| + 1))
  {
    hide Reachable, Lived;
    w' := LastEmitted(w, e);
    ReachableStep(w', TurnEnds);
    w' := Do(w', TurnEnds);
    ReachableStep(w', StreamReturns(0));
    w' := Do(w', StreamReturns(0));
  }

  lemma EndsAtCheck(w: World) returns (w': World)
    requires Reachable(w) && !w.busy && w.subscriber == None && |w.consumers| == 2 && At(w, 1, Marked)
    requires !w.consumers[1].gone && w.consumers[1].chan.closed
    ensures Reachable(w') && w'.log == w.log && |w'.consumers| == 2
    ensures w'.consumers[1] == w.consumers[1].(pc := Finished, listening := false)
  {
    hide Reachable;
    ReachableStep(w, CheckLive(1));
    w' := Do(w, CheckLive(1));
  }

  // ---- A tool outlives its turn ----------------------------------------------------------------

  /** A tool that outlives its turn emits: the event joins the log, and the sender, still connected, is not sent it. */
  lemma AToolOutlivesItsTurn(op: LifeOp, e: Event) returns (w: World)
    requires op.OpensTurn? && ByTurn(Emits(e))
    ensures Reachable(w) && !w.turn && w.log == [Sequenced(EventOf(op), 1), Sequenced(e, 2)] && |w.consumers| == 1
    ensures var c := w.consumers[0];
      !c.gone && c.endAt == Some(1) && c.out == c.chan.buffer == [] && c.chan.closed && c.inflight == Some(End)
  {
    w := NewTurn(false, op);
    hide Reachable, Lived, EventOf;
    ReachableStep(w, TurnEnds);
    w := Do(w, TurnEnds);
    assert w.consumers[0].kind.Stream? && !w.consumers[0].pc.Announced?;
    w := EmitsUnheard(w, e);
  }

  lemma EmitsUnheard(w: World, e: Event) returns (w': World)
    requires Reachable(w) && ByTurn(Emits(e)) && w.subscriber == None && TurnBegan(w) && w.hist.seqNo == |w.log|
    ensures Reachable(w') && w'.log == w.log + [Sequenced(e, |w.log| + 1)]
    ensures w'.consumers == w.consumers && w'.turn == w.turn
  {
    hide Reachable, Lived;
    ReachableStep(w, Emit(Emits(e)));
    w' := Do(w, Emit(Emits(e)));
  }

  // ---- A crash reuses numbers ------------------------------------------------------------------

  /**
   A live client is sent an event whose write is still queued, and the process dies: the next life numbers the message
   that opens it below the client's cursor, and the client that comes back with it is never sent that message.
   */
  lemma ACrashReusesNumbers(op: LifeOp, e: Event, next: LifeOp) returns (w: World, w': World)
    requires op.OpensTurn? && ByTurn(Emits(e)) && next.OpensTurn?
    ensures Reachable(w) && w.lost == {} && |w.consumers| == 1 && w.consumers[0].out == [Sequenced(e, 2)]
    ensures w.consumers[0].delivered == 2 && !w.consumers[0].gone
    ensures Reachable(w') && w'.birth == Do(w, Crash).birth && w'.thread == Do(w, Crash).thread
    ensures w'.log == [Sequenced(EventOf(next), 1)] && |w'.consumers| == 2
    ensures var c := w'.consumers[1]; c.base == 2 && c.pc.Marked? && !c.gone && !c.readLost && !c.rolled && c.out == []
  {
    hide *;
    w := SentAndQueued(op, e);
    CrashEmpties(w);
    w' := Restarted(w, next);
    w' := ComesBack(w', next);
  }

  lemma SentAndQueued(op: LifeOp, e: Event) returns (w: World)
    requires op.OpensTurn? && ByTurn(Emits(e))
    ensures Reachable(w) && w.lost == {} && w.durable && w.thread == NewThread("", None) && |w.consumers| == 1
    ensures var c := w.consumers[0]; c.out == [Sequenced(e, 2)] && c.delivered == 2 && !c.gone
  {
    hide Reachable, EventOf, Lived;
    w := NewTurn(true, op);
    w := TurnSends(w, e);
  }

  lemma Restarted(w: World, next: LifeOp) returns (w': World)
    requires Reachable(w) && w.durable && w.thread == NewThread("", None) && next.OpensTurn?
    ensures TurnBegun(w', next) && w'.durable && w'.birth == Do(w, Crash).birth && w'.thread == Do(w, Crash).thread
    ensures w'.log == [Sequenced(EventOf(next), 1)] && Reachable(w')
  {
    CrashEmpties(w);
    hide Reachable, EventOf, FromThread, LoadEvents;
    ReachableStep(w, Crash);
    w' := FirstTurn(Do(w, Crash), next);
  }

  /** Nothing was stored, so nothing is left. */
  lemma CrashEmpties(w: World)
    requires w.durable && w.thread == NewThread("", None)
    ensures Do(w, Crash) == Start([], FRESH, true, NewThread("", None), 0)
  {
    NewThreadIsFresh();
    assert LoadEvents(NewThread("", None), 0) == [];
    hide FromThread, LoadEvents;
  }

  lemma ComesBack(w: World, op: LifeOp) returns (w': World)
    requires TurnBegun(w, op) && w.durable
    ensures Reachable(w') && w'.log == w.log && w'.birth == w.birth && w'.thread == w.thread && |w'.consumers| == 2
    ensures var c := w'.consumers[1]; c.base == 2 && c.pc.Marked? && !c.gone && !c.readLost && !c.rolled && c.out == []
  {
    assert LoadEvents(w.thread, 2) == [];
    hide Reachable, LoadEvents, Replayed, EventOf;
    TakesOver(w, 2);
    w' := ReadsRows(TakenOver(w, 2), 1);
    w' := CopiesRing(w', 1);
    w' := SkipsHead(w', 1);
    w' := Marks(w', 1);
  }

  // ---- A ring rolls ----------------------------------------------------------------------------

  /**
   A turn opens, a client attaches, and between its durable read and the ring's copy the turn emits as many events as
   the ring holds: no write failed, and the opening message is in neither list.
   */
  lemma ARingRolls(op: LifeOp, e: Event) returns (w: World)
    requires op.OpensTurn? && ByTurn(Emits(e))
    ensures Reachable(w) && Consecutive(w.log) && |w.log| == EVENT_BUFFER_CAP + 1 && w.lost == {} && |w.consumers| == 2
    ensures var c := w.consumers[1];
      && c.rolled && !c.readLost && !c.gone && c.base == 0 && c.out == [w.log[1]]
  {
    var w0 := AttachHasRead(op);
    var w1 := EmitsMany(w0, 1, e, EVENT_BUFFER_CAP);
    RingIsLogsEnd(w1);
    RolledOne(w0, w1, e);
    hide Reachable, Replayed, EmittedOn, Consecutive;
    w := ReplaysOnce(w1, 1);
    CopyRolled(w1, 1);
    w := ReplaysOnce(w, 1);
    YieldsPast(w1, w1.consumers[1]);
  }

  /** An attach during a first turn, none of whose writes has landed yet, has read no rows. */
  lemma AttachHasRead(op: LifeOp) returns (w: World)
    requires op.OpensTurn?
    ensures Reachable(w) && Unread(w, 1) && |w.consumers| == 2
    ensures w.log == [Sequenced(EventOf(op), 1)] && w.lost == {} && w.birth.ringFrom == 0
    ensures var c := w.consumers[1];
      && c.pc.Rows? && c.todo == [] && c.out == [] && c.base == c.delivered == 0 && c.chan == Chan([], false, false)
      && !c.gone && !c.readLost
  {
    var w0 := NewTurn(true, op);
    assert LoadEvents(w0.thread, 0) == [];
    hide Reachable, LoadEvents, EventOf;
    TakesOver(w0, 0);
    w := ReadsRows(TakenOver(w0, 0), 1);
    assert w.consumers[0].kind.Stream? && !w.consumers[0].pc.Announced?;
  }

  /** After so many events the ring starts at the second of the log. */
  lemma RolledOne(w0: World, w1: World, e: Event)
    requires |w0.log| == 1 && w0.log[0].seqNo == 1 && w0.birth.ringFrom == 0 && |w0.consumers| == 2
    requires EmittedOn(w0, w1, 1, e, EVENT_BUFFER_CAP)
    requires |w1.hist.ring| == EVENT_BUFFER_CAP && w1.hist.ring == w1.log[1..]
    ensures |w1.log| == EVENT_BUFFER_CAP + 1 && Consecutive(w1.log)
    ensures w1.log[0].seqNo == 1
    ensures w1.hist.ring[0] == w1.log[1] && w1.log[1].seqNo == 2 && w1.lost == w0.lost && |w1.consumers| == 2
    ensures w1.consumers[1] == w0.consumers[1].(chan := w1.consumers[1].chan)
  {
  }

  lemma CopyRolled(w: World, i: nat)
    requires At(w, i, Rows) && !w.consumers[i].gone && w.consumers[i].todo == []
    requires w.consumers[i].delivered == 0 && w.hist.ring != [] && w.hist.ring[0].seqNo == 2
    requires w.log != [] && w.log[0].seqNo == 1
    ensures Replayed(w, w.consumers[i]) ==
      w.consumers[i].(pc := Ring, todo := w.hist.ring, mark := |w.log|, rolled := true)
  {
  }

  lemma YieldsPast(w: World, c: Consumer)
    requires c.out == [] && c.delivered == 0 && !c.gone && w.hist.ring != [] && w.hist.ring[0].seqNo == 2
    ensures var copied := c.(pc := Ring, todo := w.hist.ring, mark := |w.log|, rolled := true);
      forall w2 :: Replayed(w2, copied) == copied.(todo := copied.todo[1..], out := [w.hist.ring[0]], delivered := 2)
  {
  }
}

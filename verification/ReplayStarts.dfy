/** Where a consumer starts, and that it goes on from there: the number its client asked with, or its own message. */
module ReplayStarts {
  import opened Protocol
  import opened Logs
  import opened EventChannels
  import opened Threads
  import opened Sessions
  import opened ReplayModel
  import opened ReplayInvariant
  import opened ReplaySteps
  import opened ReplayTheorems
  import opened ReplayRuns

  /**
   A consumer goes on from where it started, unless it was sent a snapshot; once its client is gone it is sent nothing
   more.
   */
  predicate KeepsStart(c: Consumer, c': Consumer) {
    && c'.kind == c.kind
    && (!c.pc.Announced? ==> !c'.pc.Announced?)
    && (c'.snap.None? ==> c.snap.None?)
    && (c'.snap.None? ==> c'.base == c.base || (c.kind.Stream? && c.pc.Announced?))
    && (c.gone ==> c'.gone && c'.out == c.out)
  }

  ghost predicate AllKeepStart(w: World, w': World) {
    && |w.consumers| <= |w'.consumers|
    && forall i :: 0 <= i < |w.consumers| ==> KeepsStart(w.consumers[i], w'.consumers[i])
  }

  lemma Shuts(c: Consumer)
    ensures KeepsStart(c, Shut(c)) && Shut(c).pc == c.pc
  {
    hide AfterClose;
  }

  lemma Closes(c: Consumer, pc: Pc)
    requires !pc.Announced?
    ensures KeepsStart(c, Closed(c, pc))
  {
    hide AfterClose;
  }

  lemma Pushes(c: Consumer, s: Sequenced)
    ensures KeepsStart(c, Pushed(c, s))
  {
    hide AfterPush, PushOutcomeOf;
  }

  lemma Pulls(c: Consumer)
    ensures KeepsStart(c, Pulled(c))
  {
    hide AfterNext, NextOutcomeOf;
  }

  lemma Yields(c: Consumer, s: Sequenced)
    requires !c.gone
    ensures KeepsStart(c, Yielded(c, s))
  {
  }

  lemma ReadsTheRows(w: World, c: Consumer)
    ensures KeepsStart(c, RowsRead(w, c))
  {
    hide LoadEvents;
  }

  lemma Chooses(w: World, c: Consumer)
    ensures KeepsStart(c, Chosen(w, c))
  {
    hide OldestBuffered;
  }

  lemma Replays(w: World, c: Consumer)
    ensures KeepsStart(c, Replayed(w, c))
  {
    hide OldestBuffered, Between, Yielded;
    if !c.gone && c.todo != [] {
      Yields(c.(todo := c.todo[1..]), c.todo[0]);
    }
  }

  lemma ShutKeepsStart(w: World)
    ensures AllKeepStart(w, ShutSubscriber(w)) && |ShutSubscriber(w).consumers| == |w.consumers|
    ensures ShutSubscriber(w).hist == w.hist
    ensures forall i :: 0 <= i < |w.consumers| ==> ShutSubscriber(w).consumers[i].pc == w.consumers[i].pc
  {
    if w.subscriber.Some? && w.subscriber.value < |w.consumers| {
      Shuts(w.consumers[w.subscriber.value]);
    }
    hide Shut;
  }

  lemma EmitKeepsStart(w: World, op: LifeOp)
    ensures AllKeepStart(w, DoEmit(w, op))
  {
    NextIs(w, op);
    if w.subscriber.Some? && w.subscriber.value < |w.consumers| {
      Pushes(w.consumers[w.subscriber.value], Sequenced(EventOf(op), w.hist.seqNo + 1));
    }
    hide Written, Pushed, EventOf;
  }

  lemma NextIs(w: World, op: LifeOp)
    ensures Written(w, op).hist.seqNo == w.hist.seqNo + 1 && Written(w, op).consumers == w.consumers
  {
    hide EventOf;
  }

  lemma StreamKeepsStart(w: World, i: nat, op: LifeOp)
    requires At(w, i, Announced) && w.consumers[i].kind == Stream
    ensures AllKeepStart(w, DoStreamSubscribes(w, i, op))
    ensures var w' := DoStreamSubscribes(w, i, op);
      |w'.consumers| == |w.consumers| && w'.consumers[i].base == w.hist.seqNo + 1
        && !w'.consumers[i].pc.Announced? && w'.consumers[i].kind.Stream?
  {
    ShutKeepsStart(w);
    NextIs(ShutSubscriber(w), op);
    hide ShutSubscriber, Written;
  }

  lemma AttachKeepsStart(w: World, i: nat)
    requires At(w, i, Announced)
    ensures AllKeepStart(w, DoAttachSubscribes(w, i))
  {
    ShutKeepsStart(w);
    hide ShutSubscriber;
  }

  lemma ReaderKeepsStart(w: World, i: nat, c: Consumer)
    requires i < |w.consumers| && KeepsStart(w.consumers[i], c)
    ensures AllKeepStart(w, w.(consumers := w.consumers[i := c]))
  {
  }

  lemma AttachEndKeepsStart(w: World, i: nat, c: Consumer)
    requires i < |w.consumers| && KeepsStart(w.consumers[i], c)
    ensures AllKeepStart(w, AttachEnds(w, i, c))
  {
    Closes(c, Finished);
    hide Closed;
  }

  lemma HandleKeepsStart(w: World, i: nat)
    requires i < |w.consumers| && w.consumers[i].inflight.Some?
    ensures AllKeepStart(w, DoHandle(w, i))
  {
    hide AllKeepStart, AttachEnds, Closed, Yielded;
    var r := w.consumers[i].inflight.value;
    var c := w.consumers[i].(inflight := None, drained := r.End?);
    assert KeepsStart(w.consumers[i], c);
    AttachEndKeepsStart(w, i, c);
    ReaderKeepsStart(w, i, c);
    Closes(c, Draining);
    ReaderKeepsStart(w, i, Closed(c, Draining));
    if r.Value? && !c.gone {
      Yields(c, r.value);
      ReaderKeepsStart(w, i, Yielded(c, r.value));
    }
    hide KeepsStart;
  }

  lemma GoneKeepsStart(w: World, i: nat)
    requires i < |w.consumers|
    ensures AllKeepStart(w, DoClientGone(w, i))
  {
    Shuts(w.consumers[i].(gone := true));
    hide Shut;
  }

  lemma TurnEndKeepsStart(w: World)
    ensures AllKeepStart(w, DoTurnEnds(w))
  {
    if w.subscriber.Some? && w.subscriber.value < |w.consumers| {
      Shuts(w.consumers[w.subscriber.value]);
    }
    hide Shut;
  }

  lemma CheckKeepsStart(w: World, i: nat)
    requires i < |w.consumers|
    ensures AllKeepStart(w, DoCheckLive(w, i))
  {
    Closes(w.consumers[i], Finished);
    hide Closed;
  }

  lemma StepKeepsStart(w: World, step: Step)
    requires Enabled(w, step) && !step.Crash?
    ensures AllKeepStart(w, Do(w, step))
  {
    hide DoEmit, DoStreamSubscribes, DoAttachSubscribes, DoCheckLive, DoHandle, DoClientGone, DoTurnEnds;
    hide RowsRead, Chosen, Replayed, Pulled, Closed;
    match step {
      case Emit(op) => EmitKeepsStart(w, op);
      case StreamSubscribes(i, op) => StreamKeepsStart(w, i, op);
      case AttachSubscribes(i) => AttachKeepsStart(w, i);
      case DurableRead(i) => ReadsTheRows(w, w.consumers[i]);
      case Choose(i) => Chooses(w, w.consumers[i]);
      case ReplayNext(i) => Replays(w, w.consumers[i]);
      case CheckLive(i) => CheckKeepsStart(w, i);
      case Pull(i) => Pulls(w.consumers[i]);
      case Handle(i) => HandleKeepsStart(w, i);
      case ClientGone(i) => GoneKeepsStart(w, i);
      case TurnEnds => TurnEndKeepsStart(w);
      case StreamReturns(i) => Closes(w.consumers[i], Finished);
      case _ =>
    }
  }

  lemma {:induction false} RunKeepsStart(w: World, steps: seq<Step>, i: nat)
    requires i < |w.consumers| && Crash !in steps
    ensures i < |Run(w, steps).consumers|
    ensures KeepsStart(w.consumers[i], Run(w, steps).consumers[i])
  {
    hide Do, Enabled;
    if steps != [] {
      var before, step := steps[..|steps| - 1], steps[|steps| - 1];
      RunKeepsStart(w, before, i);
      assert step in steps;
      if Enabled(Run(w, before), step) {
        StepKeepsStart(Run(w, before), step);
      }
    }
  }

  lemma {:induction false} RunOn(w: World, a: seq<Step>, b: seq<Step>)
    ensures Run(w, a + b) == Run(Run(w, a), b)
  {
    if b == [] {
      assert a + b == a;
    } else {
      RunOn(w, a, b[..|b| - 1]);
      assert (a + b)[..|a + b| - 1] == a + b[..|b| - 1];
      hide Do, Enabled;
    }
  }

  lemma RunFrom(w: World, steps: seq<Step>, at: nat)
    requires at < |steps|
    ensures var there := Run(w, steps[..at]);
      Run(w, steps) == Run(if Enabled(there, steps[at]) then Do(there, steps[at]) else there, steps[at + 1..])
  {
    hide Do, Enabled;
    RunOn(w, steps[..at + 1], steps[at + 1..]);
    assert steps[..at + 1] + steps[at + 1..] == steps;
    RunOnce(w, steps, at);
  }

  lemma RunOnce(w: World, steps: seq<Step>, at: nat)
    requires at < |steps|
    ensures var there := Run(w, steps[..at]);
      Run(w, steps[..at + 1]) == if Enabled(there, steps[at]) then Do(there, steps[at]) else there
  {
    hide Do, Enabled;
    assert steps[..at + 1][..at] == steps[..at];
  }

  lemma {:induction false} RunStaysReachable(w: World, steps: seq<Step>)
    requires Reachable(w)
    ensures Reachable(Run(w, steps))
  {
    hide Reachable, Do, Enabled;
    if steps != [] {
      RunStaysReachable(w, steps[..|steps| - 1]);
      if Enabled(Run(w, steps[..|steps| - 1]), steps[|steps| - 1]) {
        ReachableStep(Run(w, steps[..|steps| - 1]), steps[|steps| - 1]);
      }
    }
  }

  /**
   A client that attaches with the number it has come to is, in every later state of that life and unless it was sent a
   snapshot, served from that number: everything sent to it is numbered past it.
   */
  lemma AttachStartsWhereAsked(w: World, n: nat, steps: seq<Step>)
    requires Reachable(w) && Crash !in steps
    ensures var w', i := Run(Do(w, OpenAttach(n)), steps), |w.consumers|;
      && i < |w'.consumers|
      && var c := w'.consumers[i];
         && c.kind.Attach?
         && (c.snap.None? ==> c.base == n && forall k :: 0 <= k < |c.out| ==> c.out[k].seqNo > n)
  {
    var w1, i := Do(w, OpenAttach(n)), |w.consumers|;
    assert w1.consumers[i].base == n && w1.consumers[i].kind.Attach?;
    ReachableStep(w, OpenAttach(n));
    hide Reachable, Do, Run;
    RunKeepsStart(w1, steps, i);
    RunStaysReachable(w1, steps);
    ExactlyOnce(Run(w1, steps), i);
  }

  /** And one that sends a message is served from that message on, which is numbered next in the log it joins. */
  lemma SenderStartsAtItsMessage(w: World, i: nat, op: LifeOp, steps: seq<Step>)
    requires Reachable(w) && Enabled(w, StreamSubscribes(i, op)) && Crash !in steps
    ensures var w' := Run(Do(w, StreamSubscribes(i, op)), steps);
      && i < |w'.consumers| && w'.consumers[i].kind.Stream?
      && (w'.consumers[i].snap.None? ==> w'.consumers[i].base == LastSeq(w.log) + 1)
  {
    StreamKeepsStart(w, i, op);
    ReachableHolds(w);
    Parts(w);
    hide Reachable, Run, DoStreamSubscribes, Inv, StoreOk, ConsumersOk, LifeOk, Increasing;
    RunKeepsStart(Do(w, StreamSubscribes(i, op)), steps, i);
  }

  /** A client that is gone is sent nothing more, wherever it left off and whatever happens. */
  lemma TheGoneAreSentNothing(w: World, i: nat, steps: seq<Step>)
    requires i < |w.consumers| && w.consumers[i].gone && Crash !in steps
    ensures i < |Run(w, steps).consumers|
    ensures Run(w, steps).consumers[i].gone && Run(w, steps).consumers[i].out == w.consumers[i].out
  {
    RunKeepsStart(w, steps, i);
    hide Run;
  }
}

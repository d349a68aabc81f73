/**
 Who watches a running turn. A turn that runs on with no open channel normally has its orphan timer armed; this says
 exactly when it does not, over every run.
 */
module ReplayWatch {
  import opened Protocol
  import opened EventChannels
  import opened Threads
  import opened Sessions
  import opened ReplayModel
  import opened ReplayInvariant
  import opened ReplaySteps
  import opened ReplayTheorems
  import opened ReplayRuns

  // ---- Listening -------------------------------------------------------------------------------

  /** Whoever subscribed with its client still there has its abort listener attached until it finishes. */
  predicate Hears(c: Consumer) {
    !c.gone && !c.pc.Announced? && !c.pc.Finished? ==> c.listening
  }

  ghost predicate AllHear(w: World) {
    forall i :: 0 <= i < |w.consumers| ==> Hears(w.consumers[i])
  }

  lemma SubscriberHears(w: World, s: Sequenced)
    requires AllHear(w)
    ensures AllHear(ShutSubscriber(w))
    ensures forall i :: 0 <= i < |w.consumers| ==> Hears(Pushed(w.consumers[i], s)) && Hears(Shut(w.consumers[i]))
  {
    hide AfterPush, AfterClose;
  }

  lemma StepsHear(w: World, i: nat)
    requires AllHear(w) && i < |w.consumers| && !w.consumers[i].pc.Announced? && !w.consumers[i].pc.Finished?
    ensures Hears(RowsRead(w, w.consumers[i])) && Hears(Chosen(w, w.consumers[i])) && Hears(Pulled(w.consumers[i]))
    ensures w.consumers[i].pc.Rows? || w.consumers[i].pc.Ring? ==> Hears(Replayed(w, w.consumers[i]))
  {
    hide LoadEvents, AfterNext;
  }

  lemma HandleHears(w: World, i: nat)
    requires AllHear(w) && At(w, i, Live) && w.consumers[i].inflight.Some?
    ensures AllHear(DoHandle(w, i))
  {
    var c := w.consumers[i].(inflight := None, drained := w.consumers[i].inflight.value.End?);
    assert Hears(w.consumers[i]);
    EndsHear(w, i, c);
    hide AllHear, AttachEnds, Closed, Yielded, Hears;
  }

  lemma EndsHear(w: World, i: nat, c: Consumer)
    requires AllHear(w) && i < |w.consumers| && Hears(c) && c.pc.Live?
    ensures AllHear(AttachEnds(w, i, c))
    ensures AllHear(w.(consumers := w.consumers[i := c]))
    ensures AllHear(w.(consumers := w.consumers[i := Closed(c, Draining)]))
    ensures forall s :: AllHear(w.(consumers := w.consumers[i := Yielded(c, s)]))
  {
    hide AfterClose;
  }

  lemma CheckHears(w: World, i: nat)
    requires AllHear(w) && At(w, i, Marked)
    ensures AllHear(DoCheckLive(w, i))
  {
    hide AfterClose;
  }

  lemma GoneHears(w: World, i: nat)
    requires AllHear(w) && i < |w.consumers|
    ensures AllHear(DoClientGone(w, i))
  {
    hide AfterClose;
  }

  lemma EmitHears(w: World, op: LifeOp)
    requires AllHear(w)
    ensures AllHear(DoEmit(w, op))
  {
    SubscriberHears(w, Sequenced(EventOf(op), w.hist.seqNo + 1));
    hide Pushed, Hears, Lived, EventOf;
  }

  lemma SubscribeHears(w: World, i: nat)
    requires AllHear(w) && i < |w.consumers|
    ensures AllHear(DoAttachSubscribes(w, i))
    ensures forall op :: AllHear(DoStreamSubscribes(w, i, op))
  {
    SubscriberHears(w, Sequenced(AssistantText(""), 0));
    hide ShutSubscriber, Pushed, Shut, Lived, EventOf;
  }

  lemma TurnEndHears(w: World)
    requires AllHear(w)
    ensures AllHear(DoTurnEnds(w))
  {
    hide AfterClose;
  }

  lemma StepHears(w: World, step: Step)
    requires AllHear(w) && Enabled(w, step)
    ensures AllHear(Do(w, step))
  {
    hide DoEmit, DoStreamSubscribes, DoAttachSubscribes, DoCheckLive, DoHandle, DoClientGone, DoTurnEnds,
      RowsRead, Chosen, Replayed, Pulled, Stored, Lived, EventOf, LoadEvents, FromThread, AfterClose, OldestBuffered;
    match step {
      case Emit(op) => EmitHears(w, op);
      case StreamSubscribes(i, op) => SubscribeHears(w, i);
      case AttachSubscribes(i) => SubscribeHears(w, i);
      case CheckLive(i) => CheckHears(w, i);
      case Handle(i) => HandleHears(w, i);
      case ClientGone(i) => GoneHears(w, i);
      case TurnEnds => TurnEndHears(w);
      case DurableRead(i) => StepsHear(w, i);
      case Choose(i) => StepsHear(w, i);
      case ReplayNext(i) => StepsHear(w, i);
      case Pull(i) => StepsHear(w, i);
      case _ =>
    }
  }

  lemma {:induction false} RunHears(w0: World, steps: seq<Step>)
    requires Initial(w0)
    ensures AllHear(Run(w0, steps))
  {
    hide Initial, Do, Enabled, AllHear;
    if steps == [] {
      NobodyYet(w0);
      NobodyHears(w0);
    } else {
      RunHears(w0, steps[..|steps| - 1]);
      var w := Run(w0, steps[..|steps| - 1]);
      if Enabled(w, steps[|steps| - 1]) {
        StepHears(w, steps[|steps| - 1]);
      }
    }
  }

  lemma NobodyHears(w: World)
    requires w.consumers == []
    ensures AllHear(w)
  {
  }

  lemma ReachableHears(w: World)
    requires Reachable(w)
    ensures AllHear(w)
  {
    hide AllHear, Initial, Run;
    var w0, steps :| Initial(w0) && w == Run(w0, steps);
    RunHears(w0, steps);
  }

  // ---- Unheard turns ---------------------------------------------------------------------------

  /** A running turn that is left to itself and its own timeout: no open channel, no armed timer, no abort requested. */
  ghost predicate Unheard(w: World) {
    w.turn && !w.aborted && !w.timer && forall i :: 0 <= i < |w.consumers| ==> w.consumers[i].chan.closed
  }

  /** The stricter reading: not even a subscriber is left. */
  predicate Unwatched(w: World) {
    w.turn && !w.aborted && !w.timer && w.subscriber == None
  }

  /**
   A step that leaves a turn unheard: its reader's client had gone before it subscribed, so no listener tells of it, and
   the reader now finds out; or its reader's channel overflows.
   */
  predicate Lapses(w: World, step: Step) {
    && w.turn && !w.aborted
    && w.subscriber.Some? && w.subscriber.value < |w.consumers|
    && var c := w.consumers[w.subscriber.value];
       match step
       case CheckLive(i) => w.subscriber == Some(i) && c.gone
       case Handle(i) => w.subscriber == Some(i) && c.gone
       case Emit(_) => !c.chan.waiter && |c.chan.buffer| >= MAX_BUFFER
       case _ => false
  }

  /** A step that ends it: a new reader, the turn's end, a crash, or the overflown reader's client leaving. */
  predicate Rescues(w: World, step: Step) {
    match step
    case StreamSubscribes(_, _) => true
    case AttachSubscribes(_) => true
    case TurnEnds => true
    case Crash => true
    case ClientGone(i) => w.subscriber == Some(i)
    case _ => false
  }

  /** A step that leaves it unwatched: the reader is an attach, and finds its client gone or its channel ended. */
  predicate Abandons(w: World, step: Step) {
    && w.turn && !w.aborted
    && match step
       case CheckLive(i) => w.subscriber == Some(i) && i < |w.consumers| && w.consumers[i].gone
       case Handle(i) =>
         && w.subscriber == Some(i) && i < |w.consumers| && w.consumers[i].kind.Attach?
         && (w.consumers[i].gone || w.consumers[i].inflight == Some(End))
       case _ => false
  }

  predicate Returns(step: Step) {
    step.StreamSubscribes? || step.AttachSubscribes? || step.TurnEnds? || step.Crash?
  }

  /** Of a session's channels only the subscriber's can be open. */
  predicate Left(w: World) {
    && w.turn && !w.aborted && !w.timer
    && (w.subscriber.Some? && w.subscriber.value < |w.consumers| ==> w.consumers[w.subscriber.value].chan.closed)
  }

  lemma LeftIsUnheard(w: World)
    requires LifeOk(w)
    ensures Unheard(w) <==> Left(w)
  {
  }

  ghost predicate Accounts(w: World, step: Step, w': World) {
    && (Left(w') <==> (Left(w) && !Rescues(w, step)) || Lapses(w, step))
    && (Unwatched(w') <==> (Unwatched(w) && !Returns(step)) || Abandons(w, step))
  }

  lemma EmitAccounts(w: World, op: LifeOp)
    requires LifeOk(w)
    ensures Accounts(w, Emit(op), DoEmit(w, op))
  {
    hide Lived, EventOf;
  }

  lemma CheckLiveAccounts(w: World, i: nat)
    requires LifeOk(w) && At(w, i, Marked)
    ensures Accounts(w, CheckLive(i), DoCheckLive(w, i))
  {
  }

  lemma HandleAccounts(w: World, i: nat)
    requires LifeOk(w) && At(w, i, Live) && w.consumers[i].inflight.Some?
    requires w.consumers[i].inflight == Some(End) ==> w.consumers[i].chan.closed
    ensures Accounts(w, Handle(i), DoHandle(w, i))
  {
    var c := w.consumers[i].(inflight := None, drained := w.consumers[i].inflight.value.End?);
    ClosedDoor(c, Draining);
    ClosedDoor(c, Finished);
    OpenIsSubscribers(w, i);
    hide LifeOk, Closed;
  }

  lemma ClosedDoor(c: Consumer, pc: Pc)
    ensures Closed(c, pc).chan.closed
  {
  }

  lemma OpenIsSubscribers(w: World, i: nat)
    requires LifeOk(w) && i < |w.consumers|
    ensures w.consumers[i].chan.closed || w.subscriber == Some(i)
    ensures w.timer ==> w.subscriber == None
    ensures w.subscriber.Some? ==> w.subscriber.value < |w.consumers|
  {
  }

  lemma ClientGoneAccounts(w: World, i: nat)
    requires LifeOk(w) && AllHear(w) && Enabled(w, ClientGone(i))
    ensures Accounts(w, ClientGone(i), DoClientGone(w, i))
  {
    assert Hears(w.consumers[i]);
  }

  lemma SubscribesAccounts(w: World, i: nat, op: LifeOp)
    requires LifeOk(w) && i < |w.consumers|
    ensures Accounts(w, AttachSubscribes(i), DoAttachSubscribes(w, i))
    ensures Accounts(w, StreamSubscribes(i, op), DoStreamSubscribes(w, i, op))
  {
    hide Lived, EventOf, AfterClose;
  }

  /** A consumer's step that neither opens nor shuts a door. */
  lemma DoorStays(w: World, i: nat, c: Consumer)
    requires i < |w.consumers| && c.chan.closed == w.consumers[i].chan.closed
    ensures var w' := w.(consumers := w.consumers[i := c]);
      (Left(w') <==> Left(w)) && (Unwatched(w') <==> Unwatched(w))
  {
  }

  lemma ReaderAccounts(w: World, step: Step, i: nat, c: Consumer)
    requires Enabled(w, step) && i < |w.consumers| && c.chan.closed == w.consumers[i].chan.closed
    requires step in {DurableRead(i), DurableReadFails(i), Choose(i), ReplayNext(i), Pull(i)}
    requires Do(w, step) == w.(consumers := w.consumers[i := c])
    ensures Accounts(w, step, Do(w, step))
  {
    DoorStays(w, i, c);
    hide Do, Enabled, Left, Unwatched;
  }

  lemma ReadDoor(w: World, c: Consumer)
    ensures RowsRead(w, c).chan == c.chan
  {
    hide LoadEvents;
  }

  lemma ChosenDoor(w: World, c: Consumer)
    ensures Chosen(w, c).chan == c.chan
  {
  }

  lemma ReplayedDoor(w: World, c: Consumer)
    ensures Replayed(w, c).chan == c.chan
  {
  }

  lemma PulledDoor(c: Consumer)
    ensures Pulled(c).chan.closed == c.chan.closed
  {
  }

  /** The steps of a consumer that concern nobody else. */
  lemma OwnStepAccounts(w: World, step: Step, i: nat)
    requires Enabled(w, step)
    requires step in {DurableRead(i), DurableReadFails(i), Choose(i), ReplayNext(i), Pull(i)}
    ensures Accounts(w, step, Do(w, step))
  {
    hide RowsRead, Chosen, Replayed, Pulled, Accounts;
    var c := w.consumers[i];
    match step {
      case DurableRead(_) =>
        ReadDoor(w, c);
        ReaderAccounts(w, step, i, RowsRead(w, c));
      case DurableReadFails(_) => ReaderAccounts(w, step, i, c.(pc := Choosing));
      case Choose(_) =>
        ChosenDoor(w, c);
        ReaderAccounts(w, step, i, Chosen(w, c));
      case ReplayNext(_) =>
        ReplayedDoor(w, c);
        ReaderAccounts(w, step, i, Replayed(w, c));
      case Pull(_) =>
        PulledDoor(c);
        ReaderAccounts(w, step, i, Pulled(c));
    }
  }

  lemma JoinsAccount(w: World, kind: Kind, lastSeq: nat)
    requires LifeOk(w) && (kind.Stream? ==> !w.busy)
    ensures var w' := w.(busy := w.busy || kind.Stream?, consumers := w.consumers + [NewConsumer(kind, lastSeq)]);
      (Left(w') <==> Left(w)) && (Unwatched(w') <==> Unwatched(w))
  {
  }

  lemma CrashAccounts(w: World)
    ensures Accounts(w, Crash, Do(w, Crash))
  {
    hide LoadEvents, FromThread;
  }

  lemma TurnEndsAccounts(w: World)
    requires w.turn
    ensures Accounts(w, TurnEnds, Do(w, TurnEnds))
  {
    hide AfterClose;
  }

  lemma OrphanAccounts(w: World)
    requires LifeOk(w) && w.timer
    ensures Accounts(w, OrphanFires, Do(w, OrphanFires))
  {
  }

  lemma ReturnAccounts(w: World, i: nat)
    requires Enabled(w, StreamReturns(i))
    ensures Accounts(w, StreamReturns(i), Do(w, StreamReturns(i)))
  {
    hide Closed;
  }

  lemma StepAccounts(w: World, step: Step)
    requires Inv(w) && AllHear(w) && Enabled(w, step)
    ensures Accounts(w, step, Do(w, step))
  {
    hide Inv, LifeOk, Accounts, AllHear, Do;
    Parts(w);
    match step {
      case CheckLive(i) => ReaderLeaves(w, step, i);
      case Handle(i) => ReaderLeaves(w, step, i);
      case ClientGone(i) => ReaderLeaves(w, step, i);
      case DurableRead(i) => OwnStepAccounts(w, step, i);
      case DurableReadFails(i) => OwnStepAccounts(w, step, i);
      case Choose(i) => OwnStepAccounts(w, step, i);
      case ReplayNext(i) => OwnStepAccounts(w, step, i);
      case Pull(i) => OwnStepAccounts(w, step, i);
      case TurnEnds => TurnEndsAccounts(w);
      case Crash => CrashAccounts(w);
      case OrphanFires => OrphanAccounts(w);
      case StreamReturns(i) => ReturnAccounts(w, i);
      case OpenStream => JoinsScene(w, step, Stream, 0);
      case OpenAttach(lastSeq) => JoinsScene(w, step, Attach, lastSeq);
      case WriteLands => WritesAccount(w, step, true);
      case WriteFails => WritesAccount(w, step, false);
      case Emit(op) => ReaderMoves(w, step);
      case StreamSubscribes(i, op) => ReaderMoves(w, step);
      case AttachSubscribes(i) => ReaderMoves(w, step);
    }
  }

  lemma ReaderLeaves(w: World, step: Step, i: nat)
    requires Inv(w) && LifeOk(w) && AllHear(w) && Enabled(w, step) && step in {CheckLive(i), Handle(i), ClientGone(i)}
    ensures Accounts(w, step, Do(w, step))
  {
    hide Inv, LifeOk, Accounts, AllHear, DoCheckLive, DoHandle, DoClientGone;
    match step {
      case CheckLive(_) => CheckLiveAccounts(w, i);
      case Handle(_) =>
        EndMeansClosed(w, i);
        HandleAccounts(w, i);
      case ClientGone(_) => ClientGoneAccounts(w, i);
    }
  }

  lemma ReaderMoves(w: World, step: Step)
    requires LifeOk(w) && Enabled(w, step) && (step.Emit? || step.StreamSubscribes? || step.AttachSubscribes?)
    ensures Accounts(w, step, Do(w, step))
  {
    hide LifeOk, Accounts, DoEmit, DoStreamSubscribes, DoAttachSubscribes;
    match step {
      case Emit(op) => EmitAccounts(w, op);
      case StreamSubscribes(i, op) => SubscribesAccounts(w, i, op);
      case AttachSubscribes(i) => SubscribesAccounts(w, i, AppliesOps([], WorkflowIr(None, "")));
    }
  }

  lemma JoinsScene(w: World, step: Step, kind: Kind, lastSeq: nat)
    requires LifeOk(w) && Enabled(w, step)
    requires step == if kind.Stream? then OpenStream else OpenAttach(lastSeq)
    requires kind.Stream? ==> lastSeq == 0
    ensures Accounts(w, step, Do(w, step))
  {
    JoinsAccount(w, kind, lastSeq);
    hide LifeOk, NewConsumer, Left, Unwatched;
  }

  lemma WritesAccount(w: World, step: Step, lands: bool)
    requires Enabled(w, step) && step == if lands then WriteLands else WriteFails
    ensures Accounts(w, step, Do(w, step))
  {
    hide Stored;
  }

  lemma EndMeansClosed(w: World, i: nat)
    requires Inv(w) && At(w, i, Live)
    ensures w.consumers[i].inflight == Some(End) ==> w.consumers[i].chan.closed
  {
    ConsumerAt(w, i);
    hide LogOk, StoreOk, LifeOk, ConsumersOk, OutOk, TrackOk, HoleOk, SnapOk;
  }

  /**
   Exactly when a step leaves a running turn unheard, whatever state the protocol is in: it lapses, or the turn was
   unheard already and the step is no rescue. And exactly when it leaves one unwatched.
   */
  lemma UnheardByStep(w: World, step: Step)
    requires Reachable(w) && Enabled(w, step)
    ensures Unheard(Do(w, step)) <==> (Unheard(w) && !Rescues(w, step)) || Lapses(w, step)
    ensures Unwatched(Do(w, step)) <==> (Unwatched(w) && !Returns(step)) || Abandons(w, step)
  {
    ReachableHolds(w);
    ReachableHears(w);
    ReachableStep(w, step);
    ReachableHolds(Do(w, step));
    Parts(w);
    Parts(Do(w, step));
    StepAccounts(w, step);
    LeftIsUnheard(w);
    LeftIsUnheard(Do(w, step));
    hide Reachable, Inv, LifeOk, AllHear, Do, Enabled, Rescues, Lapses, Unheard, Left, Unwatched, Abandons;
  }

  /** Somewhere in a run the turn lapsed, and nothing rescued it since. */
  ghost predicate LeftSince(w0: World, steps: seq<Step>) {
    exists k :: LapsedAt(w0, steps, k) && forall j :: k < j < |steps| ==> !RescuedAt(w0, steps, j)
  }

  predicate LapsedAt(w0: World, steps: seq<Step>, k: int) {
    0 <= k < |steps| && Enabled(Run(w0, steps[..k]), steps[k]) && Lapses(Run(w0, steps[..k]), steps[k])
  }

  predicate RescuedAt(w0: World, steps: seq<Step>, k: int) {
    0 <= k < |steps| && Enabled(Run(w0, steps[..k]), steps[k]) && Rescues(Run(w0, steps[..k]), steps[k])
  }

  lemma SameBefore(w0: World, steps: seq<Step>, k: nat)
    requires k < |steps| - 1
    ensures LapsedAt(w0, steps, k) == LapsedAt(w0, steps[..|steps| - 1], k)
    ensures RescuedAt(w0, steps, k) == RescuedAt(w0, steps[..|steps| - 1], k)
  {
    hide Run, Enabled, Lapses, Rescues;
    var front := steps[..|steps| - 1];
    assert front[..k] == steps[..k] && front[k] == steps[k];
  }

  lemma LeftSinceSnoc(w0: World, steps: seq<Step>)
    requires steps != []
    ensures var front, n := steps[..|steps| - 1], |steps| - 1;
      LeftSince(w0, steps) <==> LapsedAt(w0, steps, n) || (LeftSince(w0, front) && !RescuedAt(w0, steps, n))
  {
    hide LapsedAt, RescuedAt;
    var front, n := steps[..|steps| - 1], |steps| - 1;
    forall k | 0 <= k < n
      ensures LapsedAt(w0, steps, k) == LapsedAt(w0, front, k) && RescuedAt(w0, steps, k) == RescuedAt(w0, front, k)
    {
      SameBefore(w0, steps, k);
    }
    if LapsedAt(w0, steps, n) {
      assert forall j :: n < j < |steps| ==> !RescuedAt(w0, steps, j);
    } else if LeftSince(w0, front) && !RescuedAt(w0, steps, n) {
      var k :| LapsedAt(w0, front, k) && forall j :: k < j < |front| ==> !RescuedAt(w0, front, j);
      LapsedInside(w0, front, k);
      assert LapsedAt(w0, steps, k) && forall j :: k < j < |steps| ==> !RescuedAt(w0, steps, j);
    } else if LeftSince(w0, steps) {
      LeftBefore(w0, steps);
    }
  }

  lemma LeftBefore(w0: World, steps: seq<Step>)
    requires steps != [] && LeftSince(w0, steps) && !LapsedAt(w0, steps, |steps| - 1)
    ensures LeftSince(w0, steps[..|steps| - 1]) && !RescuedAt(w0, steps, |steps| - 1)
  {
    hide LapsedAt, RescuedAt;
    var front, n := steps[..|steps| - 1], |steps| - 1;
    var k :| LapsedAt(w0, steps, k) && forall j :: k < j < |steps| ==> !RescuedAt(w0, steps, j);
    LapsedInside(w0, steps, k);
    SameBefore(w0, steps, k);
    forall j | k < j < |front|
      ensures !RescuedAt(w0, front, j)
    {
      SameBefore(w0, steps, j);
    }
  }

  lemma LapsedInside(w0: World, steps: seq<Step>, k: int)
    requires LapsedAt(w0, steps, k)
    ensures 0 <= k < |steps|
  {
  }

  /**
   Over every run: a turn stands running with no open channel, no armed timer and no abort requested if and only if its
   reader lapsed at some step and nothing rescued it since.
   */
  lemma {:induction false} UnheardExactlyWhen(w0: World, steps: seq<Step>)
    requires Initial(w0)
    ensures Unheard(Run(w0, steps)) <==> LeftSince(w0, steps)
  {
    hide Initial, Do, Enabled, Lapses, Rescues, Reachable, Unheard;
    if steps == [] {
      NoTurnYet(w0);
    } else {
      var front, n := steps[..|steps| - 1], |steps| - 1;
      UnheardExactlyWhen(w0, front);
      LeftSinceSnoc(w0, steps);
      RunIsReachable(w0, front);
      hide LeftSince;
      var w := Run(w0, front);
      if Enabled(w, steps[n]) {
        UnheardByStep(w, steps[n]);
      }
    }
  }

  lemma NoTurnYet(w0: World)
    requires Initial(w0)
    ensures !Unheard(w0)
  {
    hide LoadEvents, FromThread;
  }

  /** A running turn whose reader's client leaves it has no open channel and its timer armed. */
  lemma DroppedTurnIsTimed(w: World, i: nat)
    requires Reachable(w) && w.subscriber == Some(i) && w.turn && Enabled(w, ClientGone(i))
    ensures var w' := Do(w, ClientGone(i));
      w'.timer && w'.subscriber == None && forall j :: 0 <= j < |w'.consumers| ==> w'.consumers[j].chan.closed
  {
    hide Reachable, AllHear, Inv, LifeOk;
    ReachableHolds(w);
    ReachableHears(w);
    Parts(w);
    OneChannel(w, i);
    HearsAt(w, i);
    GoneIsTimed(w, i);
  }

  /** Any client's leaving: the subscriber's frees its place, and arms the timer exactly while the session is busy. */
  lemma LeavingExactly(w: World, i: nat)
    requires Reachable(w) && Enabled(w, ClientGone(i))
    ensures var w' := Do(w, ClientGone(i));
      && i < |w'.consumers| && w'.consumers[i].gone && w'.consumers[i].out == w.consumers[i].out
      && w'.subscriber == (if w.subscriber == Some(i) then None else w.subscriber)
      && (w'.timer <==> w.timer || (w.subscriber == Some(i) && w.busy))
      && (w.subscriber == Some(i) ==> w'.consumers[i].chan.closed)
  {
    hide *;
    ReachableHolds(w);
    ReachableHears(w);
    Parts(w);
    SomeoneLeaves(w, i);
    HearsAt(w, i);
    SubscriberListens(w, i);
    LeavingIs(w, i);
  }

  lemma SomeoneLeaves(w: World, i: nat)
    requires Enabled(w, ClientGone(i))
    ensures i < |w.consumers| && !w.consumers[i].gone && Do(w, ClientGone(i)) == DoClientGone(w, i)
  {
    hide Shut;
  }

  lemma SubscriberListens(w: World, i: nat)
    requires LifeOk(w) && i < |w.consumers| && Hears(w.consumers[i]) && !w.consumers[i].gone
    ensures w.subscriber == Some(i) ==> w.consumers[i].listening
  {
  }

  lemma LeavingIs(w: World, i: nat)
    requires i < |w.consumers| && (w.subscriber == Some(i) ==> w.consumers[i].listening)
    ensures var w' := DoClientGone(w, i);
      && i < |w'.consumers| && w'.consumers[i].gone && w'.consumers[i].out == w.consumers[i].out
      && w'.subscriber == (if w.subscriber == Some(i) then None else w.subscriber)
      && (w'.timer <==> w.timer || (w.subscriber == Some(i) && w.busy))
      && (w.subscriber == Some(i) ==> w'.consumers[i].chan.closed)
  {
  }

  lemma HearsAt(w: World, i: nat)
    requires AllHear(w) && i < |w.consumers|
    ensures Hears(w.consumers[i])
  {
  }

  lemma GoneIsTimed(w: World, i: nat)
    requires w.subscriber == Some(i) && w.busy && Enabled(w, ClientGone(i)) && w.consumers[i].listening
    requires forall j :: 0 <= j < |w.consumers| && j != i ==> w.consumers[j].chan.closed
    ensures var w' := Do(w, ClientGone(i));
      w'.timer && w'.subscriber == None && forall j :: 0 <= j < |w'.consumers| ==> w'.consumers[j].chan.closed
  {
  }

  lemma OneChannel(w: World, i: nat)
    requires LifeOk(w) && w.subscriber == Some(i)
    ensures forall j :: 0 <= j < |w.consumers| && j != i ==> w.consumers[j].chan.closed
    ensures i < |w.consumers| && !w.consumers[i].pc.Finished? && !w.consumers[i].pc.Announced?
    ensures w.turn ==> w.busy
  {
  }

  // ---- A turn nobody watches -------------------------------------------------------------------

  /**
   A busy session without a consumer need not have its timer armed: an attach whose client left before it subscribed
   takes over from the stream, disarms nothing it could arm again, and ends.
   */
  lemma AnUnwatchedTurn(op: LifeOp) returns (w: World)
    requires op.OpensTurn?
    ensures Reachable(w) && Unheard(w) && Unwatched(w)
  {
    w := NewTurn(false, op);
    hide Reachable, EventOf;
    ReachableStep(w, OpenAttach(0));
    w := Do(w, OpenAttach(0));
    ReachableStep(w, ClientGone(1));
    w := Do(w, ClientGone(1));
    w := GoneAttach(w);
    ReachableHolds(w);
    Parts(w);
    LeftIsUnheard(w);
    hide Inv, LifeOk, Unheard;
  }

  lemma GoneAttach(w: World) returns (w': World)
    requires Reachable(w) && |w.consumers| == 2 && At(w, 1, Announced) && w.consumers[1].kind == Attach
    requires w.consumers[1].gone
    requires w.turn && w.busy && !w.aborted && !w.durable
    ensures Reachable(w') && w'.turn && w'.busy && w'.subscriber == None && !w'.timer && !w'.aborted
  {
    hide Reachable, AfterClose;
    ReachableStep(w, AttachSubscribes(1));
    w' := Do(w, AttachSubscribes(1));
    ReachableStep(w', Choose(1));
    w' := Do(w', Choose(1));
    w' := GoneAttachEnds(w');
  }

  lemma GoneAttachEnds(w: World) returns (w': World)
    requires Reachable(w) && |w.consumers| == 2 && At(w, 1, Ring) && w.consumers[1].gone
    requires w.turn && w.busy && !w.aborted && w.subscriber == Some(1) && !w.timer
    ensures Reachable(w') && w'.turn && w'.busy && w'.subscriber == None && !w'.timer && !w'.aborted
  {
    hide Reachable, AfterClose;
    ReachableStep(w, ReplayNext(1));
    w' := Do(w, ReplayNext(1));
    ReachableStep(w', CheckLive(1));
    w' := Do(w', CheckLive(1));
  }

  /**
   A sender whose client left before its turn began: the first event it is handed, it stops reading. Its turn runs on
   with no open channel, and no timer is armed.
   */
  lemma AnUnheardStream(op: LifeOp, e: Event) returns (w: World)
    requires op.OpensTurn? && ByTurn(Emits(e))
    ensures Reachable(w) && Unheard(w) && w.subscriber == Some(0)
  {
    w := StreamOpens();
    hide Reachable, Lived, EventOf;
    ReachableStep(w, ClientGone(0));
    w := Do(w, ClientGone(0));
    ReachableStep(w, StreamSubscribes(0, op));
    w := Do(w, StreamSubscribes(0, op));
    ReachableStep(w, Pull(0));
    w := Do(w, Pull(0));
    w := HandedToGone(w, e);
  }

  /** A memory-only session's first message has arrived. */
  lemma StreamOpens() returns (w: World)
    ensures Reachable(w) && w.busy && !w.turn && !w.timer && !w.aborted && !w.durable && w.subscriber == None
    ensures w.consumers == [NewConsumer(Stream, 0)] && w.log == [] && w.hist.seqNo == 0 && w.hist.ring == []
  {
    w := MemoryOnly();
    assert Initial(w);
    assert Run(w, []) == w;
    assert Reachable(w);
    hide Reachable, Initial;
    ReachableStep(w, OpenStream);
    w := Do(w, OpenStream);
  }

  lemma HandedToGone(w: World, e: Event) returns (w': World)
    requires Reachable(w) && ByTurn(Emits(e)) && |w.consumers| == 1 && w.subscriber == Some(0) && At(w, 0, Live)
    requires w.turn && !w.aborted && !w.timer
    requires var c := w.consumers[0]; c.kind.Stream? && c.gone && c.chan == Chan([], true, false) && c.inflight == None
    ensures Reachable(w') && Unheard(w') && w'.subscriber == Some(0)
  {
    hide Reachable, Lived, EventOf;
    assert w.consumers[0].kind.Stream? && !w.consumers[0].pc.Announced?;
    ReachableStep(w, Emit(Emits(e)));
    w' := Do(w, Emit(Emits(e)));
    ReachableStep(w', Handle(0));
    w' := Do(w', Handle(0));
  }

  /**
   A client attaches during a turn, and while its durable read is pending the turn emits more than the channel holds:
   the channel overflows, and the turn runs on unheard, though the client is there.
   */
  lemma AnOverflownReader(op: LifeOp, e: Event) returns (w: World)
    requires op.OpensTurn? && ByTurn(Emits(e))
    ensures Reachable(w) && Unheard(w) && |w.consumers| == 2 && At(w, 1, Reading) && !w.consumers[1].gone
  {
    var w0 := NewTurn(true, op);
    hide Reachable, EventOf;
    TakesOver(w0, 0);
    var w1 := TakenOver(w0, 0);
    assert w1.consumers[0].kind.Stream? && !w1.consumers[0].pc.Announced?;
    w := EmitsMany(w1, 1, e, MAX_BUFFER + 1);
  }
}

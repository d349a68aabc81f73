/**
 The composer session in place: its counter, ring and snapshot, its one live consumer, its timer, its running turn.
 */
module LiveSession {
  import opened Protocol
  import opened SnapshotFold
  import opened EventChannels
  import opened Threads
  import opened Sessions
  import opened Turns
  import opened PendingQuestions
  import FixBound

  /** A resolved thread, and whether the transcript of its agent session survives. */
  datatype Resolved = Resolved(id: string, thread: Thread, transcriptExists: bool)

  /** A message as it comes in. */
  datatype Received = Received(text: string, branch: Option<string>, canvas: Option<WorkflowIr>)

  /** A history that goes on under a thread's numbers. */
  function Adopted(h: Hist, thread: Thread): Hist {
    h.(seqNo := if thread.lastSeq > h.seqNo then thread.lastSeq else h.seqNo)
  }

  /** The thread is written to, and its agent session resumed if there is none yet and its transcript survives. */
  function Joined(l: Life, id: string, thread: Thread, transcriptExists: bool): Life {
    l.(thread := Some(id),
       agent := if l.agent.None? && thread.sdkSessionId.Some? && transcriptExists then thread.sdkSessionId else l.agent)
  }

  /** A session is bound to the caller's thread, unless it is bound, has no caller, or the thread was not resolved. */
  function BoundTo(h: Hist, l: Life, caller: Option<string>, resolved: Option<Resolved>): (Hist, Life)
  {
    if l.thread.Some? || caller.None? || resolved.None? then (h, l)
    else
      var r := resolved.value;
      (Adopted(h, r.thread), Joined(l, r.id, r.thread, r.transcriptExists))
  }

  /** What a turn's reading has seen of its stream: a result, text, and why the provider refused. */
  datatype Seen = Seen(result: bool, text: bool, refusal: Option<string>)

  function SeenBy(r: Running): Seen {
    Seen(r.sawResult, r.sawText, r.refusal)
  }

  /** The history and the threads a turn begins on. */
  datatype Before = Before(history: Hist, threads: map<string, Thread>)

  class ComposerSession {
    const id: string
    const store: ThreadStore
    const tools: FixBound.ToolSession
    var threadId: Option<string>
    var userKey: Option<string>        // the user whose thread it is
    var ownerSub: Option<string>       // who created the session
    var sdkSessionId: Option<string>   // the agent's own session, to resume
    var seqNo: nat
    var buffer: seq<Sequenced>
    var snapshot: Snapshot
    var canvasBranch: Option<string>
    var draftSteps: Option<seq<CanvasStep>>
    var draftIr: Option<WorkflowIr>
    var busy: bool
    var subscriber: EventChannel?<Sequenced>
    var orphanTimer: bool         // armed
    var turnAbort: Option<bool>   // the running turn's abort controller, and whether it was fired
    var timedOut: bool            // the running turn's own timeout signal

    ghost predicate Valid()
      reads this, store, subscriber, if subscriber == null then {} else {subscriber.waiter}
    {
      store.Valid() && (subscriber != null ==> subscriber.Valid())
    }

    /** What the session remembers of its history. */
    ghost function History(): Hist
      reads this
    {
      Hist(seqNo, buffer, snapshot, canvasBranch, draftSteps, draftIr)
    }

    /** Who is connected, what is armed, which agent session to resume and which thread to write to. */
    ghost function LifeNow(): Life
      reads this
    {
      Life(busy, subscriber != null, orphanTimer, turnAbort, timedOut, sdkSessionId, threadId)
    }

    /** The writes queued for the session's thread. */
    ghost function Queued(): seq<Sequenced>
      reads this, store
    {
      if threadId.Some? then store.Chain(threadId.value) else []
    }

    /** Everything a session's step may change. */
    ghost function Parts(): set<object?>
      reads this, subscriber
    {
      {this, subscriber} + if subscriber == null then {} else {subscriber.waiter}
    }

    constructor (id: string, store: ThreadStore, draftIr: Option<WorkflowIr>)
      requires store.Valid()
      ensures Valid() && this.store == store && fresh(tools)
      ensures threadId == userKey == ownerSub == None
      ensures History() == FRESH.(draft := draftIr) && LifeNow() == Life(false, false, false, None, false, None, None)
    {
      this.id, this.store, threadId := id, store, None;
      tools := new FixBound.ToolSession();
      userKey, ownerSub, sdkSessionId := None, None, None;
      seqNo, buffer, snapshot, canvasBranch, draftSteps := 0, [], EMPTY_SNAPSHOT, None, None;
      this.draftIr, busy, subscriber, orphanTimer, turnAbort, timedOut := draftIr, false, null, false, None, false;
    }

    method TrackCanvas(event: Event)
      modifies this`draftSteps, this`canvasBranch
      ensures History() == Tracked(old(History()), event)
    {
      match event {
        case OpApplied(_, ir) => draftSteps := Some(StepsOf(ir));
        case UserMessage(_, branch, steps) => canvasBranch, draftSteps := branch, steps;
        case _ =>
      }
    }

    method Buffer(s: Sequenced)
      modifies this`buffer
      ensures buffer == Sessions.Buffered(old(buffer), s)
    {
      buffer := buffer + [s];
      if |buffer| > EVENT_BUFFER_CAP {
        buffer := buffer[1..];
      }
    }

    /** Write through to the thread, if the session is bound to one. */
    method Persist(s: Sequenced)
      requires Valid() && s.seqNo >= 1
      modifies store`chains
      ensures Valid() && Queued() == if threadId.Some? then old(Queued()) + [s] else []
    {
      if threadId.Some? {
        store.Append(threadId.value, s);
      }
    }

    /** Number, fold, buffer, persist and forward one event. */
    method EmitToSession(event: Event)
      requires Valid()
      modifies this`seqNo, this`snapshot, this`draftSteps, this`canvasBranch, this`buffer, store`chains
      modifies subscriber, if subscriber == null then {} else {subscriber.waiter}
      ensures Valid()
      ensures History() == Emitted(old(History()), event)
      ensures Queued() == if threadId.Some? then old(Queued()) + [Sequenced(event, seqNo)] else []
      ensures subscriber != null ==> subscriber.State() == AfterPush(old(subscriber.State()), Sequenced(event, seqNo))
    {
      hide Fold, AfterPush, StepsOf, ThreadStore.Valid, ThreadStore.Chain, EventChannel<Sequenced>.Valid;
      seqNo := seqNo + 1;
      snapshot := Fold(snapshot, event);
      TrackCanvas(event);
      var sequenced := Sequenced(event, seqNo);
      Buffer(sequenced);
      assert History() == Emitted(old(History()), event);
      hide Emitted, Tracked, Sessions.Buffered;
      Persist(sequenced);
      hide Queued;
      if subscriber != null {
        var _ := subscriber.Push(sequenced);
      }
    }

    /** The user's message: buffered and persisted, neither folded nor forwarded. */
    method RecordUserMessage(text: string, branch: Option<string>, steps: Option<seq<CanvasStep>>)
      requires Valid()
      modifies this`seqNo, this`draftSteps, this`canvasBranch, this`buffer, store`chains
      ensures Valid()
      ensures History() == Recorded(old(History()), UserMessage(text, branch, steps))
      ensures Queued() ==
        if threadId.Some? then old(Queued()) + [Sequenced(UserMessage(text, branch, steps), seqNo)] else []
    {
      seqNo := seqNo + 1;
      var sequenced := Sequenced(UserMessage(text, branch, steps), seqNo);
      TrackCanvas(sequenced.event);
      Buffer(sequenced);
      assert History() == Recorded(old(History()), UserMessage(text, branch, steps));
      hide Recorded, Tracked, Sessions.Buffered;
      Persist(sequenced);
    }

    /** One stored event joins a session being rebuilt: nothing is forwarded or persisted again. */
    method RehydrateIntoSession(s: Sequenced)
      modifies this`seqNo, this`snapshot, this`draftSteps, this`canvasBranch, this`draftIr, this`buffer
      ensures History() == Rehydrated(old(History()), s)
    {
      hide Fold, StepsOf;
      if s.seqNo > seqNo { seqNo := s.seqNo; }
      snapshot := Fold(snapshot, s.event);
      TrackCanvas(s.event);
      if s.event.OpApplied? { draftIr := Some(s.event.ir); }
      Buffer(s);
    }

    /**
     Bind a resolved thread: it is this user's, new events continue its numbers, and its agent session is resumed if
     this one has none and the transcript survives.
     */
    method AdoptThread(id: string, userKey: string, thread: Thread, transcriptExists: bool)
      modifies this`threadId, this`userKey, this`ownerSub, this`sdkSessionId, this`seqNo
      ensures threadId == Some(id) && this.userKey == Some(userKey)
      ensures ownerSub == if old(ownerSub).None? then Some(userKey) else old(ownerSub)
      ensures sdkSessionId ==
        if old(sdkSessionId).None? && thread.sdkSessionId.Some? && transcriptExists then thread.sdkSessionId
        else old(sdkSessionId)
      ensures seqNo == if thread.lastSeq > old(seqNo) then thread.lastSeq else old(seqNo)
      ensures LifeNow() == Joined(old(LifeNow()), id, thread, transcriptExists)
      ensures History() == Adopted(old(History()), thread)
    {
      this.userKey := Some(userKey);
      if ownerSub == None { ownerSub := Some(userKey); }
      threadId := Some(id);
      if thread.lastSeq > seqNo { seqNo := thread.lastSeq; }
      if sdkSessionId == None && thread.sdkSessionId.Some? && transcriptExists {
        sdkSessionId := thread.sdkSessionId;
      }
    }

    /** Bind the caller's thread, unless one is bound, there is no caller to key it by, or it could not be resolved. */
    method BindThread(caller: Option<string>, resolved: Option<Resolved>)
      modifies this`threadId, this`userKey, this`ownerSub, this`sdkSessionId, this`seqNo
      ensures (History(), LifeNow()) == BoundTo(old(History()), old(LifeNow()), caller, resolved)
      ensures if old(threadId).Some? || caller.None? || resolved.None?
        then threadId == old(threadId) && sdkSessionId == old(sdkSessionId) && seqNo == old(seqNo)
        else
          && threadId == Some(resolved.value.id) && userKey == caller
          && seqNo >= old(seqNo) && seqNo >= resolved.value.thread.lastSeq
          && (old(sdkSessionId).Some? ==> sdkSessionId == old(sdkSessionId))
          && (old(sdkSessionId).None? && resolved.value.transcriptExists ==>
                sdkSessionId == resolved.value.thread.sdkSessionId)
          && (old(sdkSessionId).None? && !resolved.value.transcriptExists ==> sdkSessionId == None)
    {
      if caller.None? || threadId.Some? || resolved.None? { return; }
      AdoptThread(resolved.value.id, caller.value, resolved.value.thread, resolved.value.transcriptExists);
    }

    /** Rebuild this new session from a thread's stored log. */
    method Rehydrate(id: string, userKey: string, thread: Thread, transcriptExists: bool)
      requires History() == FRESH
      modifies this`threadId, this`userKey, this`ownerSub, this`sdkSessionId
      modifies this`seqNo, this`snapshot, this`draftSteps, this`canvasBranch, this`draftIr, this`buffer
      ensures threadId == Some(id) && this.userKey == Some(userKey)
      ensures History() == FromThread(thread)
      ensures LifeNow() == Joined(old(LifeNow()), id, thread, transcriptExists)
    {
      AdoptThread(id, userKey, thread, transcriptExists);
      ghost var adopted := History();
      hide Rehydrated, History;
      var log := LoadEvents(thread, 0);
      for i := 0 to |log|
        invariant threadId == Some(id) && this.userKey == Some(userKey)
        invariant LifeNow() == Joined(old(LifeNow()), id, thread, transcriptExists)
        invariant History() == RehydratedAll(adopted, log[..i])
      {
        assert log[..i + 1][..i] == log[..i];
        RehydrateIntoSession(log[i]);
      }
      assert log[..|log|] == log;
    }

    // ---- Consumers -----------------------------------------------------------------------------

    /** A stream or an attach becomes the one live consumer; the one before it is closed, and no timer stays armed. */
    method Subscribe() returns (channel: EventChannel<Sequenced>)
      requires Valid()
      modifies this`subscriber, this`orphanTimer, subscriber, if subscriber == null then {} else {subscriber.waiter}
      ensures Valid() && fresh(channel) && subscriber == channel && channel.waiter == null
      ensures channel.buffer == [] && !channel.closed && !orphanTimer
      ensures channel.State() == Opened<Sequenced>().chan
      ensures LifeNow() == Acted(old(LifeNow()), Reattaches)
      ensures old(subscriber) != null ==> old(subscriber).State() == AfterClose(old(subscriber.State()))
    {
      channel := new EventChannel();
      if subscriber != null { subscriber.Close(); }
      subscriber := channel;
      orphanTimer := false;
    }

    /** A consumer's client vanished; a consumer already replaced is none of the session's business. */
    method DropSubscriber(channel: EventChannel<Sequenced>)
      requires Valid()
      modifies this`subscriber, this`orphanTimer, subscriber, if subscriber == null then {} else {subscriber.waiter}
      ensures Valid()
      ensures LifeNow() == if old(subscriber) == channel then Dropped(old(LifeNow())) else old(LifeNow())
      ensures orphanTimer <==> old(orphanTimer) || (old(subscriber) == channel && busy)
      ensures subscriber == if old(subscriber) == channel then null else old(subscriber)
      ensures old(subscriber) == channel ==> channel.State() == AfterClose(old(subscriber.State()))
      ensures subscriber != null ==>
        subscriber.State() == old(subscriber.State()) && subscriber.waiter == old(subscriber.waiter)
    {
      if subscriber != channel { return; }
      subscriber := null;
      channel.Close();
      if !busy { return; }
      orphanTimer := true;
    }

    /** The grace period is over. */
    method OrphanFires()
      requires orphanTimer
      modifies this`orphanTimer, this`turnAbort
      ensures LifeNow() == OrphanFired(old(LifeNow()))
      ensures !orphanTimer
      ensures turnAbort ==
        if busy && subscriber == null && old(turnAbort).Some? then Some(true) else old(turnAbort)
    {
      orphanTimer := false;
      if busy && subscriber == null && turnAbort.Some? {
        turnAbort := Some(true);
      }
    }

    // ---- One turn ------------------------------------------------------------------------------

    /** Emit for a tool or the turn; an applied batch becomes the draft first. */
    method Emit(event: Event)
      requires Valid()
      modifies Parts(), store`chains
      ensures Valid() && LifeNow() == old(LifeNow()) && Parts() <= old(Parts()) + {null}
      ensures History() == EmittedBy(old(History()), event)
    {
      if event.OpApplied? { draftIr := Some(event.ir); }
      hide Emitted;
      EmitToSession(event);
    }

    /** What happens to the session while its turn waits. */
    method Waits(acts: seq<Act>)
      requires Valid()
      modifies Parts(), store`chains
      ensures Valid() && fresh(Parts() - old(Parts()) - {null})
      ensures LifeNow() == ActedAll(old(LifeNow()), acts)
      ensures History() == EmittedAll(old(History()), ToolEvents(acts))
    {
      for i := 0 to |acts|
        invariant Valid() && fresh(Parts() - old(Parts()) - {null})
        invariant LifeNow() == ActedAll(old(LifeNow()), acts[..i])
        invariant History() == EmittedAll(old(History()), ToolEvents(acts[..i]))
      {
        assert acts[..i + 1][..i] == acts[..i];
        OneMoreAct(old(History()), acts, i);
        hide EmittedAll, ActedAll, EmittedBy;
        Happens(acts[i]);
      }
      assert acts[..|acts|] == acts;
    }

    method Happens(act: Act)
      requires Valid()
      modifies Parts(), store`chains
      ensures Valid() && fresh(Parts() - old(Parts()) - {null})
      ensures LifeNow() == Acted(old(LifeNow()), act)
      ensures History() == if act.Tool? then EmittedBy(old(History()), act.e) else old(History())
    {
      hide EmittedBy;
      match act {
        case Tool(e) => Emit(e);
        case ClientDrops => if subscriber != null { DropSubscriber(subscriber); }
        case Reattaches => var _ := Subscribe();
        case OrphanTimer => if orphanTimer { OrphanFires(); }
        case TimesOut => timedOut := true;
      }
    }

    /** Close the turn as failed. */
    method EndWithError(message: string, ctx: Context)
      requires Valid()
      modifies Parts(), store`chains
      ensures Valid() && LifeNow() == old(LifeNow()) && Parts() <= old(Parts()) + {null}
      ensures History() == EmittedAll(old(History()), [Error(message), Done(ctx.sessionId, None)])
    {
      EmittedTwo(History(), Error(message), Done(ctx.sessionId, None));
      hide EmittedBy, EmittedAll;
      Emit(Error(message));
      Emit(Done(ctx.sessionId, None));
    }

    /** The agent's session is known, and left with the thread if that update lands. */
    method NoteAgent(session: string, recorded: bool)
      requires Valid()
      modifies this`sdkSessionId, store`threads
      ensures Valid() && LifeNow() == old(LifeNow()).(agent := Some(session)) && History() == old(History())
      ensures store.threads == Remembering(old(store.threads), threadId, if recorded then Some(session) else None)
      ensures sdkSessionId == Some(session) && store.threads.Keys == old(store.threads).Keys
      ensures forall id :: id in store.threads ==>
        store.threads[id] ==
        if recorded && threadId == Some(id) then old(store.threads)[id].(sdkSessionId := Some(session))
        else old(store.threads)[id]
    {
      hide ThreadStore.Valid, Remembering;
      RemembersNothing(store.threads, threadId);
      NoThreadRemembers(store.threads, Some(session));
      sdkSessionId := Some(session);
      if threadId.Some? && recorded { store.RecordSdkSession(threadId.value, session); }
    }

    /** One message of the agent's stream, mapped to events. */
    method Speaks(sawText: bool, refusal: Option<string>, m: Message, ctx: Context)
      requires Valid()
      modifies Parts(), store`chains
      ensures Valid() && LifeNow() == old(LifeNow()) && Parts() <= old(Parts()) + {null}
      ensures forall r: Running :: r.sawText == sawText && r.refusal == refusal ==>
        History() == EmittedAll(old(History()), Spoken(r, m, ctx))
    {
      EmittedNone(History());
      match m {
        case TextBlockStarts =>
          if sawText {
            EmittedOne(History(), AssistantText("\n\n"));
            Emit(AssistantText("\n\n"));
          }
        case TextDelta(text) =>
          EmittedOne(History(), AssistantText(text));
          Emit(AssistantText(text));
        case Result(success, isError, subtype, numTurns) =>
          var done := Done(ctx.sessionId, Some(numTurns));
          if !success {
            EmittedTwo(History(), Error("The composer stopped early (" + subtype + ")."), done);
            Emit(Error("The composer stopped early (" + subtype + ")."));
          } else if isError {
            EmittedTwo(History(), Error(ctx.failure(refusal)), done);
            Emit(Error(ctx.failure(refusal)));
          } else {
            EmittedOne(History(), done);
          }
          Emit(done);
        case _ =>
      }
    }

    /**
     Run one turn to its end, whatever its stream, its tools and its clients do: it emits what the script makes a turn
     emit, and its clean-up leaves no consumer, no timer, no abort controller and no waiting question.
     */
    method RunTurn(script: Script, ctx: Context, answers: PendingAnswers)
      requires Valid() && answers.Valid()
      modifies Parts(), store`chains, store`threads, tools, answers`pending, answers.all.Values
      ensures Valid() && answers.Valid()
      ensures var r := TurnRun(old(LifeNow()), script, ctx);
        && LifeNow() == Over(r.life) && History() == EmittedAll(WithoutOffer(old(History())), r.out)
        && store.threads == Remembering(old(store.threads), threadId, r.recorded)
      ensures threadId == old(threadId) && subscriber == null && !orphanTimer && turnAbort == None
      ensures tools.State() == FixBound.NO_FIXES
      ensures answers.State() == CancelledIn(old(answers.State()), id) && !SessionWaits(answers.State(), id)
    {
      hide TurnRun, EmittedAll, CancelledIn, SessionWaits, PendingAnswers.Valid, PendingAnswers.State;
      hide ThreadStore.Valid, EventChannel<Sequenced>.Valid, FixBound.ToolSession.State;
      hide FixBound.NO_FIXES, Begun, Over, WithoutOffer, Remembering;
      ghost var life := LifeNow();
      BeginTurn();
      Turn(script, ctx, life);
      ThreadStays(LifeNow());
      TurnKeepsThread(life, script, ctx);
      assert fresh(Parts() - old(Parts()) - {null});
      assert tools.State() == FixBound.NO_FIXES;
      assert answers.Valid() && answers.State() == old(answers.State()) && answers.all == old(answers.all);
      hide Parts, Valid;
      CleanUp(answers);
    }

    /**
     One message: refused while the session is busy; else the caller's thread is bound if none is, the canvas becomes
     the draft, the sender the one consumer, the text an event, and its turn runs to the end, after which nobody is
     connected and nothing armed.
     */
    method Stream(caller: Option<string>, resolved: Option<Resolved>, message: Received, script: Script, ctx: Context,
      answers: PendingAnswers) returns (accepted: bool)
      requires Valid() && answers.Valid()
      modifies Parts(), store`chains, store`threads, tools, answers`pending, answers.all.Values
      ensures Valid() && answers.Valid()
      ensures accepted <==> !old(busy)
      ensures accepted ==> subscriber == null && !orphanTimer && turnAbort == None && !busy
      ensures !accepted ==>
        History() == old(History()) && LifeNow() == old(LifeNow()) && store.threads == old(store.threads)
      ensures accepted ==>
        var (h, l) := BoundTo(old(History()), old(LifeNow()).(busy := true), caller, resolved);
        var r := TurnRun(l.(connected := true, timer := false), script, ctx);
        && History() == EmittedAll(Lived(h, OpensTurn(message.text, message.branch, message.canvas)), r.out)
        && LifeNow() == Over(r.life).(busy := false)
        && store.threads == Remembering(old(store.threads), threadId, r.recorded)
        && !SessionWaits(answers.State(), id)
    {
      if busy { return false; }
      hide TurnRun, EmittedAll, SessionWaits, Lived, PendingAnswers.Valid, PendingAnswers.State;
      hide EventChannel<Sequenced>.Valid, ThreadStore.Valid, BoundTo, Over, Remembering;
      busy := true;
      BindAndHandle(caller, resolved, message, script, ctx, answers);
      busy := false;
      return true;
    }

    method BindAndHandle(
      caller: Option<string>, resolved: Option<Resolved>, message: Received, script: Script, ctx: Context,
      answers: PendingAnswers)
      requires Valid() && answers.Valid()
      modifies Parts(), store`chains, store`threads, tools, answers`pending, answers.all.Values
      ensures Valid() && answers.Valid()
      ensures
        var (h, l) := BoundTo(old(History()), old(LifeNow()), caller, resolved);
        var r := TurnRun(l.(connected := true, timer := false), script, ctx);
        && History() == EmittedAll(Lived(h, OpensTurn(message.text, message.branch, message.canvas)), r.out)
        && LifeNow() == Over(r.life)
        && store.threads == Remembering(old(store.threads), threadId, r.recorded)
        && !SessionWaits(answers.State(), id)
      ensures subscriber == null && !orphanTimer && turnAbort == None
    {
      hide TurnRun, EmittedAll, SessionWaits, Lived, PendingAnswers.Valid, PendingAnswers.State;
      hide EventChannel<Sequenced>.Valid, ThreadStore.Valid, BoundTo, Over, Remembering;
      BindThread(caller, resolved);
      Handle(message, script, ctx, answers);
    }

    method Handle(message: Received, script: Script, ctx: Context, answers: PendingAnswers)
      requires Valid() && answers.Valid()
      modifies Parts(), store`chains, store`threads, tools, answers`pending, answers.all.Values
      ensures Valid() && answers.Valid()
      ensures var r := TurnRun(old(LifeNow()).(connected := true, timer := false), script, ctx);
        && History() ==
           EmittedAll(Lived(old(History()), OpensTurn(message.text, message.branch, message.canvas)), r.out)
        && LifeNow() == Over(r.life)
        && store.threads == Remembering(old(store.threads), threadId, r.recorded)
      ensures subscriber == null && !orphanTimer && turnAbort == None
      ensures !SessionWaits(answers.State(), id)
    {
      hide TurnRun, EmittedAll, CancelledIn, SessionWaits, PendingAnswers.Valid, PendingAnswers.State;
      ghost var h := History();
      OpenTurn(message.text, message.branch, message.canvas);
      TurnIsOpened(h, message.text, message.branch, message.canvas);
      assert fresh(Parts() - old(Parts()) - {null});
      hide Valid, Parts, Recorded, Lived, WithoutOffer;
      RunTurn(script, ctx, answers);
    }

    method OpenTurn(text: string, branch: Option<string>, canvas: Option<WorkflowIr>)
      requires Valid()
      modifies Parts(), store`chains
      ensures Valid() && fresh(Parts() - old(Parts()) - {null})
      ensures LifeNow() == old(LifeNow()).(connected := true, timer := false)
      ensures History() ==
        Recorded(if canvas.Some? then old(History()).(draft := canvas) else old(History()),
          EventOf(OpensTurn(text, branch, canvas)))
    {
      hide Recorded, AfterClose, ThreadStore.Valid, EventChannel<Sequenced>.Valid, EventChannel<Sequenced>.State;
      if canvas.Some? { draftIr := canvas; }
      var _ := Subscribe();
      RecordUserMessage(text, branch, if canvas.Some? then Some(StepsOf(canvas.value)) else None);
    }

    /** A new turn counts its fixes from nothing, withdraws any standing offer, and has its own abort controller. */
    method BeginTurn()
      requires Valid()
      modifies this`snapshot, this`turnAbort, this`timedOut, tools
      ensures tools.State() == FixBound.NO_FIXES
      ensures turnAbort == Some(false) && !timedOut && !snapshot.offerPending
      ensures Valid() && LifeNow() == Begun(old(LifeNow())).life && History() == WithoutOffer(old(History()))
    {
      tools.NewTurn();
      snapshot := snapshot.(offerPending := false);
      turnAbort, timedOut := Some(false), false;
    }

    /** However a turn ends, it leaves nobody connected, nothing armed and no question open. */
    method CleanUp(answers: PendingAnswers)
      requires Valid() && answers.Valid()
      modifies Parts(), answers`pending, answers.all.Values
      ensures Valid() && answers.Valid()
      ensures LifeNow() == Over(old(LifeNow())) && History() == old(History())
      ensures subscriber == null && !orphanTimer && turnAbort == None
      ensures answers.State() == CancelledIn(old(answers.State()), id) && !SessionWaits(answers.State(), id)
      ensures old(subscriber) != null ==> old(subscriber).State() == AfterClose(old(subscriber.State()))
    {
      hide CancelledIn, SessionWaits, PendingAnswers.Valid;
      hide PendingAnswers.State, ThreadStore.Valid, EventChannel<Sequenced>.Valid;
      turnAbort := None;
      orphanTimer := false;
      answers.CancelForSession(id);
      if subscriber != null { subscriber.Close(); }
      subscriber := null;
    }

    method Turn(script: Script, ctx: Context, ghost life: Life)
      requires Valid() && LifeNow() == Begun(life).life
      modifies Parts(), store`chains, store`threads
      ensures Valid() && fresh(Parts() - old(Parts()) - {null})
      ensures var r := TurnRun(life, script, ctx);
        && LifeNow() == r.life && History() == EmittedAll(old(History()), r.out)
        && store.threads == Remembering(old(store.threads), threadId, r.recorded)
    {
      ghost var from, r := Before(History(), store.threads), Waited(Begun(life), script.keyWait);
      TurnBegins(from, life);
      hide Follows, Parts, Valid, Begun, Waited, Consumed, EndedWith, Remembering;
      WaitsFor(script.keyWait, from, Begun(life));
      if script.key.KeyThrows? {
        Fail(ctx.failure(None), ctx, from, r);
      } else if timedOut || turnAbort == Some(true) {
        Fail(INTERRUPTED, ctx, from, r);
      } else if script.key.NoKey? {
        Fail(script.key.reason, ctx, from, r);
      } else if script.startThrows {
        Fail(ctx.failure(None), ctx, from, r);
      } else {
        Consume(script.arrivals, ctx, from, r);
      }
      FollowsIs(from, TurnRun(life, script, ctx));
    }

    /** The session stands where a turn begun on this history and these threads stands after `r`. */
    ghost predicate Follows(from: Before, r: Running)
      reads this, store
    {
      && LifeNow() == r.life && History() == EmittedAll(from.history, r.out)
      && store.threads == Remembering(from.threads, threadId, r.recorded)
    }

    lemma FollowsIs(from: Before, r: Running)
      requires Follows(from, r)
      ensures LifeNow() == r.life && History() == EmittedAll(from.history, r.out)
      ensures store.threads == Remembering(from.threads, threadId, r.recorded)
    {
    }

    lemma TurnBegins(from: Before, life: Life)
      requires from == Before(History(), store.threads) && LifeNow() == Begun(life).life
      ensures Follows(from, Begun(life))
    {
      EmittedNone(History());
      RemembersNothing(store.threads, threadId);
    }

    /** What fails the turn as it stands closes it. */
    method Fail(message: string, ctx: Context, ghost from: Before, ghost r: Running)
      requires Valid() && Follows(from, r)
      modifies Parts(), store`chains
      ensures Valid() && Parts() <= old(Parts()) + {null}
      ensures Follows(from, EndedWith(r, message, ctx))
    {
      EmittedAllConcat(from.history, r.out, [Error(message), Done(ctx.sessionId, None)]);
      hide EmittedAll, Remembering;
      EndWithError(message, ctx);
    }

    method WaitsFor(acts: seq<Act>, ghost from: Before, ghost r: Running)
      requires Valid() && Follows(from, r)
      modifies Parts(), store`chains
      ensures Valid() && fresh(Parts() - old(Parts()) - {null})
      ensures Follows(from, Waited(r, acts)) && (timedOut || turnAbort == Some(true) <==> Aborted(Waited(r, acts).life))
    {
      EmittedAllConcat(from.history, r.out, ToolEvents(acts));
      WaitingKeepsThread(r.life, acts);
      hide EmittedAll, ActedAll, ToolEvents, Remembering;
      Waits(acts);
    }

    method Takes(sawText: bool, refusal: Option<string>, m: Message, ctx: Context, ghost from: Before, ghost r: Running)
      requires Valid() && Follows(from, r) && sawText == r.sawText && refusal == r.refusal
      modifies Parts(), store`chains, store`threads
      ensures Valid() && Parts() <= old(Parts()) + {null}
      ensures Follows(from, Took(r, m, ctx))
    {
      EmittedAllConcat(from.history, r.out, Spoken(r, m, ctx));
      RemembersLast(from.threads, threadId, r.recorded, m);
      SpokenInit(r, m, ctx);
      EmittedNone(History());
      RemembersNothing(store.threads, threadId);
      hide EmittedAll, Spoken, Remembering;
      if m.Init? {
        NoteAgent(m.session, m.recorded);
      } else {
        Speaks(sawText, refusal, m, ctx);
      }
    }

    /**
     Wait for what the stream brings next and take it, unless it ends the reading: a throw, the end, or an abort by
     then.
     */
    method Next(
      arrivals: seq<Arrival>, i: nat, seen: Seen, ctx: Context, ghost from: Before, ghost r: Running)
      returns (stops: bool, seen': Seen, ghost r': Running)
      requires Valid() && Follows(from, r) && seen == SeenBy(r) && i < |arrivals|
      modifies Parts(), store`chains, store`threads
      ensures Valid() && fresh(Parts() - old(Parts()) - {null}) && Follows(from, r') && seen' == SeenBy(r')
      ensures Consumed(r, arrivals[i..], ctx) ==
        if !stops then Consumed(r', arrivals[i + 1..], ctx)
        else if arrivals[i].got.Throws? then Caught(r', ctx)
        else Exhausted(r', ctx)
    {
      var arrival := arrivals[i];
      r' := Waited(r, arrival.during);
      ConsumedStep(r, arrivals, i, ctx);
      hide Follows, Aborted, EmittedAll, ActedAll, ToolEvents, Spoken, Consumed, Valid, Parts;
      WaitsFor(arrival.during, from, r);
      if !arrival.got.Arrives? || timedOut || turnAbort == Some(true) {
        return true, seen, r';
      }
      var m := arrival.got.m;
      Takes(seen.text, seen.refusal, m, ctx, from, r');
      TookTells(r', m, ctx);
      r' := Took(r', m, ctx);
      seen' := Seen(seen.result || m.Result?, seen.text || m.TextDelta?,
        if m.ProviderError? then Some(m.reason) else seen.refusal);
      return false, seen', r';
    }

    /**
     Read the agent's stream to its end, or until the turn is aborted or the stream throws; `r0` is the turn so far,
     from what was before.
     */
    method Consume(arrivals: seq<Arrival>, ctx: Context, ghost from: Before, ghost r0: Running)
      requires Valid() && Follows(from, r0) && SeenBy(r0) == Seen(false, false, None)
      modifies Parts(), store`chains, store`threads
      ensures Valid() && fresh(Parts() - old(Parts()) - {null})
      ensures Follows(from, Consumed(r0, arrivals, ctx))
    {
      hide Consumed, Follows, Valid, Caught, Exhausted, SeenBy, EmittedAll, Remembering;
      var seen, stops := Seen(false, false, None), false;
      ghost var r := r0;
      var i := 0;
      assert arrivals[0..] == arrivals && arrivals[|arrivals|..] == [];
      while i < |arrivals| && !stops
        invariant 0 <= i <= |arrivals| && (stops ==> i < |arrivals|)
        invariant Valid() && fresh(Parts() - old(Parts()) - {null}) && Follows(from, r) && seen == SeenBy(r)
        invariant Consumed(r0, arrivals, ctx) ==
          if !stops then Consumed(r, arrivals[i..], ctx)
          else if arrivals[i].got.Throws? then Caught(r, ctx)
          else Exhausted(r, ctx)
        decreases |arrivals| - i, !stops
      {
        stops, seen, r := Next(arrivals, i, seen, ctx, from, r);
        if !stops { i := i + 1; }
      }
      NothingLeft(r, ctx);
      Finish(seen, stops && arrivals[i].got.Throws?, ctx, from, r);
    }

    /** A turn that has not closed yet closes as failed. */
    method Finish(seen: Seen, threw: bool, ctx: Context, ghost from: Before, ghost r: Running)
      requires Valid() && Follows(from, r) && seen == SeenBy(r)
      modifies Parts(), store`chains
      ensures Valid() && Parts() <= old(Parts()) + {null}
      ensures Follows(from, if threw then Caught(r, ctx) else Exhausted(r, ctx))
    {
      if !seen.result {
        var aborted := timedOut || turnAbort == Some(true);
        var message := if !threw && aborted then INTERRUPTED else ctx.failure(seen.refusal);
        Fail(message, ctx, from, r);
      }
    }
  }

  lemma ThreadStays(l: Life)
    ensures Over(l).thread == Begun(l).life.thread == l.thread
  {
  }

  lemma {:induction false} WaitingKeepsThread(l: Life, acts: seq<Act>)
    ensures ActedAll(l, acts).thread == l.thread
  {
    if acts != [] {
      WaitingKeepsThread(l, acts[..|acts| - 1]);
    }
  }

  lemma {:induction false} ReadingKeepsThread(r: Running, arrivals: seq<Arrival>, ctx: Context)
    ensures Consumed(r, arrivals, ctx).life.thread == r.life.thread
    decreases |arrivals|
  {
    if arrivals != [] {
      var r' := Waited(r, arrivals[0].during);
      WaitingKeepsThread(r.life, arrivals[0].during);
      hide ActedAll, ToolEvents, Spoken;
      if arrivals[0].got.Arrives? && !Aborted(r'.life) {
        ReadingKeepsThread(Took(r', arrivals[0].got.m, ctx), arrivals[1..], ctx);
      }
    }
  }

  /** A turn writes to one thread. */
  lemma TurnKeepsThread(life: Life, script: Script, ctx: Context)
    ensures TurnRun(life, script, ctx).life.thread == life.thread
  {
    WaitingKeepsThread(Begun(life).life, script.keyWait);
    ReadingKeepsThread(Waited(Begun(life), script.keyWait), script.arrivals, ctx);
    hide ActedAll, ToolEvents, Consumed;
  }

  lemma RemembersNothing(threads: map<string, Thread>, threadId: Option<string>)
    ensures Remembering(threads, threadId, None) == threads
  {
  }

  /** Only the turn's own thread is told, if it is there and there is something to tell. */
  lemma RememberingIs(threads: map<string, Thread>, threadId: Option<string>, agent: Option<string>)
    ensures var told := Remembering(threads, threadId, agent);
      && told.Keys == threads.Keys
      && forall id :: id in threads ==>
           told[id] ==
           if threadId == Some(id) && agent.Some? then threads[id].(sdkSessionId := agent) else threads[id]
  {
  }

  lemma NoThreadRemembers(threads: map<string, Thread>, agent: Option<string>)
    ensures Remembering(threads, None, agent) == threads
  {
  }

  lemma SpokenInit(r: Running, m: Message, ctx: Context)
    ensures m.Init? ==> Spoken(r, m, ctx) == []
  {
  }

  lemma RemembersLast(threads: map<string, Thread>, threadId: Option<string>, was: Option<string>, m: Message)
    ensures Remembering(Remembering(threads, threadId, was), threadId, NowRecorded(None, m)) ==
            Remembering(threads, threadId, NowRecorded(was, m))
  {
  }

  /** What the turn has seen so far, one message on. */
  lemma TookTells(r: Running, m: Message, ctx: Context)
    ensures var r' := Took(r, m, ctx);
      && r'.sawText == (r.sawText || m.TextDelta?)
      && r'.refusal == (if m.ProviderError? then Some(m.reason) else r.refusal)
      && r'.sawResult == (r.sawResult || m.Result?)
  {
    hide Spoken;
  }

  lemma NothingLeft(r: Running, ctx: Context)
    ensures Consumed(r, [], ctx) == Exhausted(r, ctx)
  {
  }

  /** One arrival: what it makes of the reading, and that waiting alone tells the turn nothing. */
  lemma ConsumedStep(r: Running, arrivals: seq<Arrival>, i: nat, ctx: Context)
    requires i < |arrivals|
    ensures var w := Waited(r, arrivals[i].during);
      w.sawResult == r.sawResult && w.sawText == r.sawText && w.refusal == r.refusal
    ensures var r' := Waited(r, arrivals[i].during);
      Consumed(r, arrivals[i..], ctx) == match arrivals[i].got
        case Throws => Caught(r', ctx)
        case Ends => Exhausted(r', ctx)
        case Arrives(m) =>
          if Aborted(r'.life) then Exhausted(r', ctx)
          else Consumed(Took(r', m, ctx), arrivals[i + 1..], ctx)
  {
    assert arrivals[i..][0] == arrivals[i] && arrivals[i..][1..] == arrivals[i + 1..];
  }

  function WithoutOffer(h: Hist): Hist {
    h.(snap := h.snap.(offerPending := false))
  }

  lemma TurnIsOpened(h: Hist, text: string, branch: Option<string>, canvas: Option<WorkflowIr>)
    ensures var op := OpensTurn(text, branch, canvas);
      WithoutOffer(Recorded(if canvas.Some? then h.(draft := canvas) else h, EventOf(op))) == Lived(h, op)
  {
  }

  /**
   A session rebuilt from a thread handles a message to the end of its turn, whatever that turn does; its writes land,
   and it is rebuilt again. That gives the session that lived exactly when the turn made an offer or none was ever made,
   and applied a batch or brought no canvas but the draft there was; else all of it but the offer or the draft.
   */
  lemma HandledMessageRehydrates(t: Thread, op: LifeOp, life: Life, script: Script, ctx: Context)
    requires ThreadOk(t) && op.OpensTurn? && FairScript(script)
    ensures var start, out := FromThread(t), TurnRun(life, script, ctx).out;
      var lived := EmittedAll(Lived(start, op), out);
      var again := FromThread(StoredAll(t, LogOf(t.lastSeq, [op] + OpsOf(out))));
      var offer := Last(out, Offers) >= 0 || !start.snap.offerPending;
      var draft := Last(out, Drafts) >= 0 || op.canvas.None? || op.canvas == start.draft;
      && SameHistory(lived, again)
      && again.seqNo == t.lastSeq + 1 + |out|
      && (lived.snap == again.snap <==> offer)
      && (lived.draft == again.draft <==> draft)
      && (lived == again <==> offer && draft)
  {
    var out := TurnRun(life, script, ctx).out;
    EveryTurnCloses(life, script, ctx);
    assert forall i :: 0 <= i < |out| ==> !out[i].UserMessage?;
    HandledRehydrates(t, op, out);
    hide TurnRun;
  }

  lemma HandledRehydrates(t: Thread, op: LifeOp, out: seq<Event>)
    requires ThreadOk(t) && op.OpensTurn? && forall i :: 0 <= i < |out| ==> !out[i].UserMessage?
    ensures var start, lived := FromThread(t), EmittedAll(Lived(FromThread(t), op), out);
      var again := FromThread(StoredAll(t, LogOf(t.lastSeq, [op] + OpsOf(out))));
      var offer := Last(out, Offers) >= 0 || !start.snap.offerPending;
      var draft := Last(out, Drafts) >= 0 || op.canvas.None? || op.canvas == start.draft;
      && SameHistory(lived, again)
      && again.seqNo == t.lastSeq + 1 + |out|
      && (lived.snap == again.snap <==> offer)
      && (lived.draft == again.draft <==> draft)
      && (lived == again <==> offer && draft)
  {
    var ops := [op] + OpsOf(out);
    assert forall i :: 0 <= i < |ops| ==> ByTurn(ops[i]);
    RehydrationEqualsLiving(t, ops);
    assert [op][..0] == [] && LivedAll(FromThread(t), [op]) == Lived(FromThread(t), op);
    EmittedIsLived(FromThread(t), [op], out);
    TurnKeepsOffer(FromThread(t).snap.offerPending, t.lastSeq, op, out);
    TurnKeepsDraft(FromThread(t).draft, op, out);
    hide FromThread, StoredAll, SameHistory, ByTurn, Lived, LivedAll, EmittedAll, OfferKept, DraftKept;
  }

  lemma TurnKeepsOffer(pending: bool, from: nat, op: LifeOp, out: seq<Event>)
    requires op.OpensTurn? && forall i :: 0 <= i < |out| ==> !out[i].UserMessage?
    ensures OfferKept(pending, Events(LogOf(from, [op] + OpsOf(out)))) <==> Last(out, Offers) >= 0 || !pending
  {
    EventsOfTurn(from, op, out);
    LastBehind(EventOf(op), out, Offers);
    LastBehind(EventOf(op), out, UserMessages);
    assert !Hits(Offers, EventOf(op)) && Hits(UserMessages, EventOf(op));
    hide LogOf, OpsOf, Events, EventOf;
  }

  lemma EventsOfTurn(from: nat, op: LifeOp, out: seq<Event>)
    ensures Events(LogOf(from, [op] + OpsOf(out))) == [EventOf(op)] + out
  {
    var log := Events(LogOf(from, [op] + OpsOf(out)));
    forall i | 0 <= i < |log|
      ensures log[i] == ([EventOf(op)] + out)[i]
    {
      if i > 0 {
        assert EventOf(OpsOf(out)[i - 1]) == out[i - 1];
      }
    }
  }

  lemma {:induction false} LastBehind(e: Event, out: seq<Event>, q: Query)
    ensures Last([e] + out, q) == if Last(out, q) >= 0 then Last(out, q) + 1 else if Hits(q, e) then 0 else -1
  {
    if out == [] {
      assert [e] + out == [e] && [e][..0] == [];
    } else {
      assert ([e] + out)[..|out|] == [e] + out[..|out| - 1];
      LastBehind(e, out[..|out| - 1], q);
    }
  }

  lemma {:induction false} TurnKeepsDraft(draft: Option<WorkflowIr>, op: LifeOp, out: seq<Event>)
    requires op.OpensTurn?
    ensures var ops := [op] + OpsOf(out);
      if Last(out, Drafts) >= 0 then StandingCanvas(ops) == None
      else StandingCanvas(ops) == op.canvas && LastApplied(draft, ops) == draft
  {
    var ops := [op] + OpsOf(out);
    if out == [] {
      assert ops == [op] && [op][..0] == [];
    } else {
      var front := out[..|out| - 1];
      assert ops[..|ops| - 1] == [op] + OpsOf(front);
      TurnKeepsDraft(draft, op, front);
    }
  }

  lemma EmittedNone(h: Hist)
    ensures EmittedAll(h, []) == h
  {
  }

  lemma EmittedOne(h: Hist, e: Event)
    ensures EmittedAll(h, [e]) == EmittedBy(h, e)
  {
    assert [e][..0] == [];
  }

  lemma EmittedTwo(h: Hist, a: Event, b: Event)
    ensures EmittedAll(h, [a, b]) == EmittedBy(EmittedBy(h, a), b)
  {
    hide EmittedBy;
    EmittedOne(h, a);
    assert [a, b][..1] == [a];
  }

  lemma OneMoreAct(h: Hist, acts: seq<Act>, i: nat)
    requires i < |acts|
    ensures EmittedAll(h, ToolEvents(acts[..i + 1])) ==
      var h' := EmittedAll(h, ToolEvents(acts[..i])); if acts[i].Tool? then EmittedBy(h', acts[i].e) else h'
    ensures forall l :: ActedAll(l, acts[..i + 1]) == Acted(ActedAll(l, acts[..i]), acts[i])
  {
    assert acts[..i + 1][..i] == acts[..i];
    hide EmittedBy;
    var before := ToolEvents(acts[..i]);
    if acts[i].Tool? {
      assert (before + [acts[i].e])[..|before|] == before;
    } else {
      assert before + [] == before;
    }
  }
}

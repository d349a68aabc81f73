/**
 What a turn says, sort by sort, told from its script alone: the texts of the agent's stream, the ends and errors of its
 results, the events of its tools; what it keeps of the agent's session; and exactly when it is cut short.
 */
module TurnWords {
  import opened Protocol
  import opened Turns

  // ---- Sorts of events -------------------------------------------------------------------------

  /** Texts, ends with the errors that announce them, and everything else, which is what tools did. */
  datatype Sort = Texts | Closes | Deeds

  predicate Of(sort: Sort, e: Event) {
    match sort
    case Texts => e.AssistantText?
    case Closes => e.Done? || e.Error?
    case Deeds => !e.AssistantText? && !e.Done? && !e.Error?
  }

  function Only(events: seq<Event>, sort: Sort): seq<Event> {
    if events == [] then []
    else
      var last := events[|events| - 1];
      Only(events[..|events| - 1], sort) + (if Of(sort, last) then [last] else [])
  }

  lemma {:induction false} OnlyConcat(a: seq<Event>, b: seq<Event>, sort: Sort)
    ensures Only(a + b, sort) == Only(a, sort) + Only(b, sort)
  {
    if b == [] {
      assert a + b == a;
    } else {
      OnlyConcat(a, b[..|b| - 1], sort);
      assert (a + b)[..|a + b| - 1] == a + b[..|b| - 1];
    }
  }

  lemma OnlyOne(e: Event, sort: Sort)
    ensures Only([e], sort) == if Of(sort, e) then [e] else []
  {
    assert [e][..0] == [];
  }

  lemma OnlyTwo(a: Event, b: Event, sort: Sort)
    ensures Only([a, b], sort) == Only([a], sort) + Only([b], sort)
  {
    OnlyConcat([a], [b], sort);
    assert [a] + [b] == [a, b];
  }

  // ---- What a script lets the turn take --------------------------------------------------------

  /** The messages that arrive before the stream first throws or ends, or the turn is aborted. */
  function TakenOf(life: Life, arrivals: seq<Arrival>): seq<Message>
    decreases |arrivals|
  {
    if arrivals == [] then []
    else
      var l, got := ActedAll(life, arrivals[0].during), arrivals[0].got;
      if !got.Arrives? || Aborted(l) then [] else [got.m] + TakenOf(Told(l, got.m), arrivals[1..])
  }

  /** What the tools emitted among these acts. */
  function Did(acts: seq<Act>): seq<Event> {
    if acts == [] then []
    else if acts[0].Tool? then [acts[0].e] + Did(acts[1..])
    else Did(acts[1..])
  }

  lemma {:induction false} DidConcat(a: seq<Act>, b: seq<Act>)
    ensures Did(a + b) == Did(a) + Did(b)
  {
    if a == [] {
      assert a + b == b;
    } else {
      DidConcat(a[1..], b);
      assert (a + b)[1..] == a[1..] + b && (a + b)[0] == a[0];
    }
  }

  lemma {:induction false} ToolEventsAreDid(acts: seq<Act>)
    ensures ToolEvents(acts) == Did(acts)
  {
    if acts != [] {
      var front, last := acts[..|acts| - 1], acts[|acts| - 1];
      ToolEventsAreDid(front);
      DidConcat(front, [last]);
      assert acts == front + [last] && [last][1..] == [];
    }
  }

  /** What happened while it waited for them, and for what stopped it. */
  function ActsOf(life: Life, arrivals: seq<Arrival>): seq<Act>
    decreases |arrivals|
  {
    if arrivals == [] then []
    else
      var l, got := ActedAll(life, arrivals[0].during), arrivals[0].got;
      arrivals[0].during +
      if !got.Arrives? || Aborted(l) then [] else ActsOf(Told(l, got.m), arrivals[1..])
  }

  function TakenMessages(life: Life, script: Script): seq<Message> {
    if Reads(life, script) then TakenOf(KeyLife(life, script), script.arrivals) else []
  }

  function AllActs(life: Life, script: Script): seq<Act> {
    script.keyWait + if Reads(life, script) then ActsOf(KeyLife(life, script), script.arrivals) else []
  }

  // ---- What is said of messages ----------------------------------------------------------------

  /** Every delta, and a break where a text block starts behind one. */
  function TextsOf(ms: seq<Message>): seq<Event> {
    if ms == [] then []
    else
      var front, last := ms[..|ms| - 1], ms[|ms| - 1];
      TextsOf(front) +
      (if last.TextDelta? then [AssistantText(last.text)]
       else if last.TextBlockStarts? && exists i :: 0 <= i < |front| && front[i].TextDelta? then [AssistantText("\n\n")]
       else [])
  }

  /** Why the provider last refused. */
  function RefusalOf(ms: seq<Message>): Option<string> {
    if ms == [] then None
    else if ms[|ms| - 1].ProviderError? then Some(ms[|ms| - 1].reason)
    else RefusalOf(ms[..|ms| - 1])
  }

  /** Every result's end with the session's name and its turns, an error before it unless it succeeded. */
  function EndsOf(ms: seq<Message>, ctx: Context): seq<Event> {
    if ms == [] then []
    else
      var front, last := ms[..|ms| - 1], ms[|ms| - 1];
      EndsOf(front, ctx) +
      (if !last.Result? then []
       else if !last.success then
         [Error("The composer stopped early (" + last.subtype + ")."), Done(ctx.sessionId, Some(last.numTurns))]
       else if last.isError then
         [Error(ctx.failure(RefusalOf(front))), Done(ctx.sessionId, Some(last.numTurns))]
       else [Done(ctx.sessionId, Some(last.numTurns))])
  }

  /** The agent session last named, or the one before; and the one last left with the thread. */
  function AgentOf(ms: seq<Message>, before: Option<string>): Option<string> {
    if ms == [] then before
    else if ms[|ms| - 1].Init? then Some(ms[|ms| - 1].session)
    else AgentOf(ms[..|ms| - 1], before)
  }

  function RecordedOf(ms: seq<Message>): Option<string> {
    if ms == [] then None
    else if ms[|ms| - 1].Init? && ms[|ms| - 1].recorded then Some(ms[|ms| - 1].session)
    else RecordedOf(ms[..|ms| - 1])
  }

  predicate NoText(acts: seq<Act>) {
    forall i :: 0 <= i < |acts| && acts[i].Tool? ==> !acts[i].e.AssistantText?
  }

  predicate AnyDelta(ms: seq<Message>) {
    exists i :: 0 <= i < |ms| && ms[i].TextDelta?
  }

  predicate AnyResult(ms: seq<Message>) {
    exists i :: 0 <= i < |ms| && ms[i].Result?
  }

  // ---- The turn under way ----------------------------------------------------------------------

  /** What a turn has said so far is what these messages and acts say. */
  ghost predicate SaysSoFar(r: Running, ms: seq<Message>, acts: seq<Act>, before: Option<string>, ctx: Context) {
    && Only(r.out, Closes) == EndsOf(ms, ctx)
    && Only(r.out, Deeds) == Only(Did(acts), Deeds)
    && (NoText(acts) ==> Only(r.out, Texts) == TextsOf(ms))
    && Knows(r, ms, before)
  }

  ghost predicate Knows(r: Running, ms: seq<Message>, before: Option<string>) {
    && (r.sawText <==> AnyDelta(ms))
    && (r.sawResult <==> AnyResult(ms))
    && r.refusal == RefusalOf(ms)
    && r.life.agent == AgentOf(ms, before)
    && r.recorded == RecordedOf(ms)
  }

  lemma {:induction false} ToolsDo(acts: seq<Act>)
    requires Tools(acts)
    ensures Only(ToolEvents(acts), Closes) == []
    ensures NoText(acts) ==> Only(ToolEvents(acts), Texts) == []
  {
    if acts != [] {
      var front, last := acts[..|acts| - 1], acts[|acts| - 1];
      ToolsDo(front);
      if last.Tool? {
        OnlyConcat(ToolEvents(front), [last.e], Closes);
        OnlyConcat(ToolEvents(front), [last.e], Texts);
        OnlyOne(last.e, Closes);
        OnlyOne(last.e, Texts);
      } else {
        assert ToolEvents(acts) == ToolEvents(front);
      }
    }
  }

  lemma {:induction false} ActsKeepAgent(l: Life, acts: seq<Act>)
    ensures ActedAll(l, acts).agent == l.agent
  {
    if acts != [] {
      ActsKeepAgent(l, acts[..|acts| - 1]);
    }
  }

  lemma WaitedSays(r: Running, more: seq<Act>, ms: seq<Message>, acts: seq<Act>, before: Option<string>, ctx: Context)
    requires SaysSoFar(r, ms, acts, before, ctx) && Tools(more)
    ensures SaysSoFar(Waited(r, more), ms, acts + more, before, ctx)
  {
    OnlyConcat(r.out, ToolEvents(more), Closes);
    OnlyConcat(r.out, ToolEvents(more), Texts);
    OnlyConcat(r.out, ToolEvents(more), Deeds);
    ToolsDo(more);
    DidConcat(acts, more);
    ToolEventsAreDid(more);
    OnlyConcat(Did(acts), Did(more), Deeds);
    ActsKeepAgent(r.life, more);
    NoTextParts(acts, more);
    hide Only, ToolEvents, Did, ActedAll, EndsOf, TextsOf, NoText;
  }

  lemma NoTextParts(a: seq<Act>, b: seq<Act>)
    ensures NoText(a + b) <==> NoText(a) && NoText(b)
  {
    assert forall i :: 0 <= i < |a| ==> (a + b)[i] == a[i];
    assert forall i :: 0 <= i < |b| ==> (a + b)[|a| + i] == b[i];
  }

  lemma SaidOf(r: Running, m: Message, ms: seq<Message>, ctx: Context)
    requires (r.sawText <==> AnyDelta(ms)) && r.refusal == RefusalOf(ms)
    ensures EndsOf(ms + [m], ctx) == EndsOf(ms, ctx) + Only(Spoken(r, m, ctx), Closes)
    ensures TextsOf(ms + [m]) == TextsOf(ms) + Only(Spoken(r, m, ctx), Texts)
    ensures Only(Spoken(r, m, ctx), Deeds) == []
  {
    assert (ms + [m])[..|ms|] == ms;
    SpokenEnds(r, m, ctx);
    SpokenTexts(r, m, ctx);
    SpokenDeeds(r, m, ctx);
    hide Only, Spoken, RefusalOf;
  }

  lemma SpokenEnds(r: Running, m: Message, ctx: Context)
    ensures Only(Spoken(r, m, ctx), Closes) ==
      if !m.Result? then []
      else if !m.success then
        [Error("The composer stopped early (" + m.subtype + ")."), Done(ctx.sessionId, Some(m.numTurns))]
      else if m.isError then [Error(ctx.failure(r.refusal)), Done(ctx.sessionId, Some(m.numTurns))]
      else [Done(ctx.sessionId, Some(m.numTurns))]
  {
    SpokenOnly(r, m, ctx, Closes);
  }

  lemma SpokenTexts(r: Running, m: Message, ctx: Context)
    ensures Only(Spoken(r, m, ctx), Texts) ==
      if m.TextDelta? then [AssistantText(m.text)]
      else if m.TextBlockStarts? && r.sawText then [AssistantText("\n\n")]
      else []
  {
    SpokenOnly(r, m, ctx, Texts);
  }

  lemma SpokenDeeds(r: Running, m: Message, ctx: Context)
    ensures Only(Spoken(r, m, ctx), Deeds) == []
  {
    SpokenOnly(r, m, ctx, Deeds);
  }

  /** At most two events are said of a message, each of one sort. */
  lemma SpokenOnly(r: Running, m: Message, ctx: Context, sort: Sort)
    ensures var said := Spoken(r, m, ctx);
      && |said| <= 2
      && (|said| == 0 ==> Only(said, sort) == [])
      && (|said| == 1 ==> Only(said, sort) == if Of(sort, said[0]) then [said[0]] else [])
      && (|said| == 2 ==>
            Only(said, sort) ==
            (if Of(sort, said[0]) then [said[0]] else []) + (if Of(sort, said[1]) then [said[1]] else []))
  {
    var said := Spoken(r, m, ctx);
    if |said| == 1 {
      OnlyOne(said[0], sort);
      assert said == [said[0]];
    } else if |said| == 2 {
      OnlyOne(said[0], sort);
      OnlyOne(said[1], sort);
      OnlyTwo(said[0], said[1], sort);
      assert said == [said[0], said[1]];
    }
    hide Only, Of;
  }

  lemma TookSays(r: Running, m: Message, ms: seq<Message>, acts: seq<Act>, before: Option<string>, ctx: Context)
    requires SaysSoFar(r, ms, acts, before, ctx)
    ensures SaysSoFar(Took(r, m, ctx), ms + [m], acts, before, ctx)
  {
    var said := Spoken(r, m, ctx);
    OnlyConcat(r.out, said, Closes);
    OnlyConcat(r.out, said, Texts);
    OnlyConcat(r.out, said, Deeds);
    SaidOf(r, m, ms, ctx);
    TookKnows(r, m, ms, before, ctx);
    hide Only, Spoken, ToolEvents, EndsOf, TextsOf, NoText, Knows;
  }

  lemma TookKnows(r: Running, m: Message, ms: seq<Message>, before: Option<string>, ctx: Context)
    requires Knows(r, ms, before)
    ensures Knows(Took(r, m, ctx), ms + [m], before)
  {
    hide Spoken;
    assert (ms + [m])[..|ms|] == ms;
    assert forall i :: 0 <= i < |ms| ==> (ms + [m])[i] == ms[i];
    assert (ms + [m])[|ms|] == m;
  }

  // ---- The turn's close ------------------------------------------------------------------------

  /** A turn without a result closes with the words for how it ended. */
  function ClosingOf(ms: seq<Message>, ending: Ending, ctx: Context): seq<Event> {
    if AnyResult(ms) then [] else [Error(Words(ending, RefusalOf(ms), ctx)), Done(ctx.sessionId, None)]
  }

  ghost predicate SaysInAll(
    r: Running, ms: seq<Message>, acts: seq<Act>, ending: Ending, before: Option<string>, ctx: Context)
  {
    && Only(r.out, Closes) == EndsOf(ms, ctx) + ClosingOf(ms, ending, ctx)
    && Only(r.out, Deeds) == Only(Did(acts), Deeds)
    && (NoText(acts) ==> Only(r.out, Texts) == TextsOf(ms))
    && r.life.agent == AgentOf(ms, before)
    && r.recorded == RecordedOf(ms)
  }

  lemma EndedSays(
    r: Running, ms: seq<Message>, acts: seq<Act>, ending: Ending, before: Option<string>, ctx: Context)
    requires SaysSoFar(r, ms, acts, before, ctx)
    ensures SaysInAll(
      if r.sawResult then r else EndedWith(r, Words(ending, r.refusal, ctx), ctx), ms, acts, ending, before, ctx)
  {
    var a, b := Error(Words(ending, r.refusal, ctx)), Done(ctx.sessionId, None);
    if r.sawResult {
      assert EndsOf(ms, ctx) + [] == EndsOf(ms, ctx);
    } else {
      ClosesOnly(r.out, a, b, Closes);
      ClosesOnly(r.out, a, b, Texts);
      ClosesOnly(r.out, a, b, Deeds);
    }
    hide Only, ToolEvents, EndsOf, TextsOf, NoText, Words, RefusalOf, AnyResult;
  }

  lemma ClosesOnly(out: seq<Event>, a: Event, b: Event, sort: Sort)
    requires a.Error? && b.Done?
    ensures Only(out + [a, b], sort) == Only(out, sort) + if sort.Closes? then [a, b] else []
  {
    OnlyConcat(out, [a, b], sort);
    OnlyTwo(a, b, sort);
    OnlyOne(a, sort);
    OnlyOne(b, sort);
    hide Only;
    assert [a] + [b] == [a, b];
  }

  lemma {:induction false} ConsumedSays(
    r: Running, arrivals: seq<Arrival>, ms: seq<Message>, acts: seq<Act>, before: Option<string>, ctx: Context)
    requires SaysSoFar(r, ms, acts, before, ctx)
    requires forall i :: 0 <= i < |arrivals| ==> Tools(arrivals[i].during)
    ensures SaysInAll(Consumed(r, arrivals, ctx), ms + TakenOf(r.life, arrivals), acts + ActsOf(r.life, arrivals),
      EndingFrom(r.life, arrivals), before, ctx)
    decreases |arrivals|
  {
    hide SaysSoFar, SaysInAll, Tools, Waited, Took, EndedWith, Words;
    if arrivals == [] {
      ExhaustedIs(r, ctx);
      EndedSays(r, ms, acts, Stopped(Aborted(r.life)), before, ctx);
      assert ms + [] == ms && acts + [] == acts;
    } else {
      var during, got := arrivals[0].during, arrivals[0].got;
      var r' := Waited(r, during);
      WaitedLife(r, during);
      WaitedSays(r, during, ms, acts, before, ctx);
      if !got.Arrives? || Aborted(r'.life) {
        ExhaustedIs(r', ctx);
        EndedSays(r', ms, acts + during, if got.Throws? then Threw else Stopped(Aborted(r'.life)), before, ctx);
        assert ms + [] == ms && during + [] == during;
      } else {
        TookSays(r', got.m, ms, acts + during, before, ctx);
        TookLife(r', got.m, ctx);
        var rest := arrivals[1..];
        ConsumedSays(Took(r', got.m, ctx), rest, ms + [got.m], acts + during, before, ctx);
        var l := Told(r'.life, got.m);
        assert ms + [got.m] + TakenOf(l, rest) == ms + ([got.m] + TakenOf(l, rest));
        assert acts + during + ActsOf(l, rest) == acts + (during + ActsOf(l, rest));
      }
    }
  }

  lemma WaitedLife(r: Running, acts: seq<Act>)
    ensures Waited(r, acts).life == ActedAll(r.life, acts)
  {
  }

  lemma TookLife(r: Running, m: Message, ctx: Context)
    ensures Took(r, m, ctx).life == Told(r.life, m)
  {
    hide Spoken;
  }

  lemma ExhaustedIs(r: Running, ctx: Context)
    ensures Exhausted(r, ctx) ==
      if r.sawResult then r else EndedWith(r, Words(Stopped(Aborted(r.life)), r.refusal, ctx), ctx)
    ensures Caught(r, ctx) == if r.sawResult then r else EndedWith(r, Words(Threw, r.refusal, ctx), ctx)
  {
  }

  /**
   What a turn says, told from its script. Its ends are those of the results it takes, each with the session's name and
   its turns and an error before it unless it succeeded, or, without a result, one with the words for how it ended. Its
   tools' events are all there in order. Where tools say no text, its texts are the deltas it takes, in order, with a
   break where a block starts behind one. It keeps the agent session named last.
   */
  lemma TurnSays(life: Life, script: Script, ctx: Context)
    requires FairScript(script)
    ensures var r, ms, acts := TurnRun(life, script, ctx), TakenMessages(life, script), AllActs(life, script);
      && Only(r.out, Closes) == EndsOf(ms, ctx) + ClosingOf(ms, EndingOf(life, script), ctx)
      && Only(r.out, Deeds) == Only(Did(acts), Deeds)
      && (NoText(acts) ==> Only(r.out, Texts) == TextsOf(ms))
      && r.life.agent == AgentOf(ms, life.agent)
      && r.recorded == RecordedOf(ms)
  {
    var r := Waited(Begun(life), script.keyWait);
    BegunSays(life, ctx);
    assert [] + script.keyWait == script.keyWait;
    WaitedSays(Begun(life), script.keyWait, [], [], life.agent, ctx);
    hide Waited, SaysSoFar, Consumed, EndingOf, TurnRun, Begun, Words, EndedWith;
    if Reads(life, script) {
      ReadTurn(life, script, ctx);
      KeyLifeIs(life, script);
      ConsumedSays(r, script.arrivals, [], script.keyWait, life.agent, ctx);
      assert [] + TakenOf(r.life, script.arrivals) == TakenOf(r.life, script.arrivals);
    } else {
      UnreadTurn(life, script, ctx);
      NoneSeen(life, script);
      EndedSays(r, [], script.keyWait, EndingOf(life, script), life.agent, ctx);
      assert script.keyWait + [] == script.keyWait;
    }
  }

  lemma BegunSays(life: Life, ctx: Context)
    ensures SaysSoFar(Begun(life), [], [], life.agent, ctx)
  {
  }

  lemma KeyLifeIs(life: Life, script: Script)
    ensures Waited(Begun(life), script.keyWait).life == KeyLife(life, script)
  {
  }

  lemma NoneSeen(life: Life, script: Script)
    ensures var r := Waited(Begun(life), script.keyWait); !r.sawResult && r.refusal == None
  {
  }

  // ---- When a turn is cut short ----------------------------------------------------------------

  predicate Reattached(acts: seq<Act>) {
    exists j :: 0 <= j < |acts| && acts[j].Reattaches?
  }

  predicate TimedOutIn(acts: seq<Act>) {
    exists i :: 0 <= i < |acts| && acts[i].TimesOut?
  }

  /** Nobody has come back since the `d`-th act, at which a client was gone; or since the start, where one was. */
  predicate AloneSince(l: Life, acts: seq<Act>, d: int) {
    && -1 <= d < |acts|
    && (forall j :: d < j < |acts| ==> !acts[j].Reattaches?)
    && (if d == -1 then l.timer && !l.connected
        else acts[d].ClientDrops? && (l.connected || Reattached(acts[..d])))
  }

  ghost predicate Alone(l: Life, acts: seq<Act>) {
    exists d :: AloneSince(l, acts, d)
  }

  /** The grace period of a turn left alone has passed. */
  ghost predicate Abandoned(l: Life, acts: seq<Act>) {
    exists k :: 0 <= k < |acts| && acts[k].OrphanTimer? && Alone(l, acts[..k])
  }

  lemma AloneGrows(l: Life, acts: seq<Act>, a: Act)
    ensures Alone(l, acts + [a]) <==>
      || (Alone(l, acts) && !a.Reattaches?)
      || (a.ClientDrops? && (l.connected || Reattached(acts)))
  {
    var more := acts + [a];
    assert more[..|acts|] == acts && more[|acts|] == a;
    forall d | -1 <= d < |acts|
      ensures AloneSince(l, more, d) <==> AloneSince(l, acts, d) && !a.Reattaches?
    {
      assert d >= 0 ==> more[..d] == acts[..d] && more[d] == acts[d];
      assert forall j :: d < j < |acts| ==> more[j] == acts[j];
    }
    assert AloneSince(l, more, |acts|) <==> a.ClientDrops? && (l.connected || Reattached(acts));
    if Alone(l, acts) && !a.Reattaches? {
      var d :| AloneSince(l, acts, d);
      assert AloneSince(l, more, d);
    }
    if Alone(l, more) {
      var d :| AloneSince(l, more, d);
      assert d == |acts| || AloneSince(l, acts, d);
    }
  }

  lemma AbandonedGrows(l: Life, acts: seq<Act>, a: Act)
    ensures Abandoned(l, acts + [a]) <==> Abandoned(l, acts) || (a.OrphanTimer? && Alone(l, acts))
    ensures TimedOutIn(acts + [a]) <==> TimedOutIn(acts) || a.TimesOut?
    ensures Reattached(acts + [a]) <==> Reattached(acts) || a.Reattaches?
  {
    var more := acts + [a];
    assert more[..|acts|] == acts && more[|acts|] == a;
    assert forall k :: 0 <= k < |acts| ==> more[k] == acts[k] && more[..k] == acts[..k];
    hide Alone;
  }

  /** How a busy turn stands after these acts. */
  ghost predicate Stands(l: Life, acts: seq<Act>, s: Life) {
    && s.busy && s.turnAbort.Some?
    && (Aborted(s) <==> Aborted(l) || TimedOutIn(acts) || Abandoned(l, acts))
    && (Aborted(s) || (s.timer && !s.connected <==> Alone(l, acts)))
    && (s.connected ==> l.connected || Reattached(acts))
    && (!s.connected && (l.connected || Reattached(acts)) ==> Alone(l, acts))
  }

  lemma StandsNext(l: Life, acts: seq<Act>, a: Act, s: Life)
    requires Stands(l, acts, s)
    ensures Stands(l, acts + [a], Acted(s, a))
  {
    AloneGrows(l, acts, a);
    AbandonedGrows(l, acts, a);
    hide Alone, Abandoned, TimedOutIn, Reattached;
  }

  /**
   A running turn is aborted exactly when it has timed out, or its orphan timer fired while nobody had come back since
   a client left.
   */
  lemma {:induction false} AbortedExactlyWhen(l: Life, acts: seq<Act>)
    requires l.busy && l.turnAbort.Some?
    ensures Stands(l, acts, ActedAll(l, acts))
    ensures Aborted(ActedAll(l, acts)) <==> Aborted(l) || TimedOutIn(acts) || Abandoned(l, acts)
  {
    if acts == [] {
      NothingHappened(l);
    } else {
      var front := acts[..|acts| - 1];
      AbortedExactlyWhen(l, front);
      StandsNext(l, front, acts[|acts| - 1], ActedAll(l, front));
      assert front + [acts[|acts| - 1]] == acts;
      hide Stands;
    }
  }

  lemma NothingHappened(l: Life)
    requires l.busy && l.turnAbort.Some?
    ensures Stands(l, [], l)
  {
    assert AloneSince(l, [], -1) <==> l.timer && !l.connected;
  }

  /** A turn's own beginning: no abort of an earlier one counts. */
  lemma CutExactlyWhen(life: Life, acts: seq<Act>)
    requires life.busy
    ensures Aborted(ActedAll(Begun(life).life, acts)) <==> TimedOutIn(acts) || Abandoned(life, acts)
  {
    AbortedExactlyWhen(Begun(life).life, acts);
    forall k | 0 <= k < |acts|
      ensures Alone(Begun(life).life, acts[..k]) <==> Alone(life, acts[..k])
    {
      SameBeginning(life, acts[..k]);
    }
    hide Alone, Stands;
  }

  lemma SameBeginning(life: Life, acts: seq<Act>)
    ensures Alone(Begun(life).life, acts) <==> Alone(life, acts)
  {
    assert forall d :: AloneSince(Begun(life).life, acts, d) <==> AloneSince(life, acts, d);
  }
}

/**
 One turn, from the key read to its end: what it emits for any script of messages from the agent's stream, with tools
 emitting, clients dropping and returning, the orphan timer and the turn's own timeout firing at every wait, and a throw
 possible at every point that can throw.
 */
module Turns {
  import opened Protocol

  // ---- The session's life within a turn --------------------------------------------------------

  /**
   `turnAbort` is the running turn's abort controller, and whether it was fired; `timedOut` its timeout signal; `agent`
   the agent's own session, which the next turn resumes; `thread` the thread the session writes to.
   */
  datatype Life = Life(
    busy: bool,
    connected: bool,
    timer: bool,
    turnAbort: Option<bool>,
    timedOut: bool,
    agent: Option<string>,
    thread: Option<string>)

  /** What may happen while a turn waits. */
  datatype Act = Tool(e: Event) | ClientDrops | Reattaches | OrphanTimer | TimesOut

  predicate ByTool(e: Event) {
    !e.Done? && !e.Error? && !e.UserMessage?
  }

  predicate Tools(acts: seq<Act>) {
    forall i :: 0 <= i < |acts| && acts[i].Tool? ==> ByTool(acts[i].e)
  }

  function Dropped(l: Life): Life {
    if !l.connected then l else l.(connected := false, timer := l.timer || l.busy)
  }

  function OrphanFired(l: Life): Life {
    if !l.timer then l
    else l.(timer := false,
            turnAbort := if l.busy && !l.connected && l.turnAbort.Some? then Some(true) else l.turnAbort)
  }

  function Acted(l: Life, act: Act): Life {
    match act
    case Tool(_) => l
    case ClientDrops => Dropped(l)
    case Reattaches => l.(connected := true, timer := false)
    case OrphanTimer => OrphanFired(l)
    case TimesOut => l.(timedOut := true)
  }

  function ActedAll(l: Life, acts: seq<Act>): Life {
    if acts == [] then l else Acted(ActedAll(l, acts[..|acts| - 1]), acts[|acts| - 1])
  }

  predicate Aborted(l: Life) {
    l.timedOut || l.turnAbort == Some(true)
  }

  function ToolEvents(acts: seq<Act>): seq<Event> {
    if acts == [] then []
    else
      var last := acts[|acts| - 1];
      ToolEvents(acts[..|acts| - 1]) + (if last.Tool? then [last.e] else [])
  }

  // ---- Scripts ---------------------------------------------------------------------------------

  datatype Message =
    | Init(session: string, recorded: bool)
    | TextBlockStarts
    | TextDelta(text: string)
    | ProviderError(reason: string)
    | Result(success: bool, isError: bool, subtype: string, numTurns: nat)
    | Other

  datatype Got = Arrives(m: Message) | Throws | Ends
  datatype Arrival = Arrival(during: seq<Act>, got: Got)
  datatype KeyRead = KeyThrows | NoKey(reason: string) | Key
  datatype Script = Script(keyWait: seq<Act>, key: KeyRead, startThrows: bool, arrivals: seq<Arrival>)

  /** The session's name and the words the host finds for a provider's refusal. */
  datatype Context = Context(sessionId: string, failure: Option<string> -> string)

  const INTERRUPTED := "The conversation was interrupted — the build stopped."

  predicate FairScript(script: Script) {
    Tools(script.keyWait) && forall i :: 0 <= i < |script.arrivals| ==> Tools(script.arrivals[i].during)
  }

  // ---- What a turn emits -----------------------------------------------------------------------

  /**
   A turn under way; `results` and `clean` count the results it took, and those that succeeded; `recorded` is the agent
   session it left with its thread.
   */
  datatype Running = Running(
    life: Life,
    out: seq<Event>,
    sawResult: bool,
    sawText: bool,
    refusal: Option<string>,
    results: nat,
    clean: nat,
    recorded: Option<string>)

  function Waited(r: Running, acts: seq<Act>): Running {
    r.(life := ActedAll(r.life, acts), out := r.out + ToolEvents(acts))
  }

  function Clean(m: Message): bool {
    m.Result? && m.success && !m.isError
  }

  function Spoken(r: Running, m: Message, ctx: Context): seq<Event> {
    match m
    case TextBlockStarts => if r.sawText then [AssistantText("\n\n")] else []
    case TextDelta(text) => [AssistantText(text)]
    case Result(success, isError, subtype, numTurns) =>
      (if !success then [Error("The composer stopped early (" + subtype + ").")]
       else if isError then [Error(ctx.failure(r.refusal))]
       else [])
      + [Done(ctx.sessionId, Some(numTurns))]
    case _ => []
  }

  /** A stream's `init` names the agent's session. */
  function Told(l: Life, m: Message): Life {
    if m.Init? then l.(agent := Some(m.session)) else l
  }

  /** And the thread is told it; `recorded` says whether that update lands. */
  function NowRecorded(was: Option<string>, m: Message): Option<string> {
    if m.Init? && m.recorded then Some(m.session) else was
  }

  function Took(r: Running, m: Message, ctx: Context): Running {
    r.(life := Told(r.life, m),
       out := r.out + Spoken(r, m, ctx),
       sawText := r.sawText || m.TextDelta?,
       refusal := if m.ProviderError? then Some(m.reason) else r.refusal,
       sawResult := r.sawResult || m.Result?,
       results := if m.Result? then r.results + 1 else r.results,
       clean := if Clean(m) then r.clean + 1 else r.clean,
       recorded := NowRecorded(r.recorded, m))
  }

  function EndedWith(r: Running, message: string, ctx: Context): Running {
    r.(out := r.out + [Error(message), Done(ctx.sessionId, None)])
  }

  /** The stream threw: a turn that had its result is closed already. */
  function Caught(r: Running, ctx: Context): Running {
    if r.sawResult then r else EndedWith(r, ctx.failure(r.refusal), ctx)
  }

  /** The stream ended, or the turn stopped reading it. */
  function Exhausted(r: Running, ctx: Context): Running {
    if r.sawResult then r else EndedWith(r, if Aborted(r.life) then INTERRUPTED else ctx.failure(r.refusal), ctx)
  }

  function Consumed(r: Running, arrivals: seq<Arrival>, ctx: Context): Running
    decreases |arrivals|
  {
    if arrivals == [] then Exhausted(r, ctx)
    else
      var r' := Waited(r, arrivals[0].during);
      match arrivals[0].got
      case Throws => Caught(r', ctx)
      case Ends => Exhausted(r', ctx)
      case Arrives(m) => if Aborted(r'.life) then Exhausted(r', ctx) else Consumed(Took(r', m, ctx), arrivals[1..], ctx)
  }

  function Begun(life: Life): Running {
    Running(life.(turnAbort := Some(false), timedOut := false), [], false, false, None, 0, 0, None)
  }

  /** The turn up to its clean-up. */
  function TurnRun(life: Life, script: Script, ctx: Context): Running {
    var r := Waited(Begun(life), script.keyWait);
    if script.key.KeyThrows? then Caught(r, ctx)
    else if Aborted(r.life) then EndedWith(r, INTERRUPTED, ctx)
    else if script.key.NoKey? then EndedWith(r, script.key.reason, ctx)
    else if script.startThrows then Caught(r, ctx)
    else Consumed(r, script.arrivals, ctx)
  }

  /** The clean-up leaves nothing of the turn behind. */
  function Over(l: Life): Life {
    l.(turnAbort := None, timer := false, connected := false)
  }

  // ---- Ends and errors -------------------------------------------------------------------------

  function Dones(out: seq<Event>): nat {
    if out == [] then 0 else Dones(out[..|out| - 1]) + if out[|out| - 1].Done? then 1 else 0
  }

  function Errors(out: seq<Event>): nat {
    if out == [] then 0 else Errors(out[..|out| - 1]) + if out[|out| - 1].Error? then 1 else 0
  }

  /** No error stands without the end it announces, and only a client writes messages. */
  ghost predicate WellClosed(out: seq<Event>) {
    && (forall i :: 0 <= i < |out| && out[i].Error? ==> i + 1 < |out| && out[i + 1].Done?)
    && (forall i :: 0 <= i < |out| ==> !out[i].UserMessage?)
  }

  lemma {:induction false} CountsConcat(a: seq<Event>, b: seq<Event>)
    ensures Dones(a + b) == Dones(a) + Dones(b) && Errors(a + b) == Errors(a) + Errors(b)
  {
    if b == [] {
      assert a + b == a;
    } else {
      CountsConcat(a, b[..|b| - 1]);
      assert (a + b)[..|a + b| - 1] == a + b[..|b| - 1];
    }
  }

  lemma CountsOne(e: Event)
    ensures Dones([e]) == (if e.Done? then 1 else 0) && Errors([e]) == (if e.Error? then 1 else 0)
  {
    assert [e][..0] == [];
  }

  lemma CountsTwo(a: Event, b: Event)
    ensures Dones([a, b]) == Dones([a]) + Dones([b]) && Errors([a, b]) == Errors([a]) + Errors([b])
  {
    CountsConcat([a], [b]);
    assert [a] + [b] == [a, b];
  }

  lemma CloseConcat(a: seq<Event>, b: seq<Event>)
    requires WellClosed(a) && WellClosed(b)
    ensures WellClosed(a + b)
  {
    assert forall i :: 0 <= i < |a + b| ==> (a + b)[i] == if i < |a| then a[i] else b[i - |a|];
    forall i | 0 <= i < |a + b| && (a + b)[i].Error?
      ensures i + 1 < |a + b| && (a + b)[i + 1].Done?
    {
      if i < |a| {
        assert a[i].Error?;
      } else {
        assert b[i - |a|].Error?;
      }
    }
  }

  lemma {:induction false} ToolsSayNothingFinal(acts: seq<Act>)
    requires Tools(acts)
    ensures Dones(ToolEvents(acts)) == Errors(ToolEvents(acts)) == 0 && WellClosed(ToolEvents(acts))
  {
    if acts != [] {
      ToolsSayNothingFinal(acts[..|acts| - 1]);
      var last := acts[|acts| - 1];
      if !last.Tool? {
        assert ToolEvents(acts) == ToolEvents(acts[..|acts| - 1]);
      } else {
        CountsOne(last.e);
        CountsConcat(ToolEvents(acts[..|acts| - 1]), [last.e]);
        CloseConcat(ToolEvents(acts[..|acts| - 1]), [last.e]);
      }
    }
  }

  /** While a turn runs, it has closed once per result, and an error stands for each result that was no success. */
  ghost predicate InStep(r: Running) {
    && Dones(r.out) == r.results
    && r.clean <= r.results
    && Errors(r.out) == r.results - r.clean
    && WellClosed(r.out)
    && (r.sawResult <==> r.results > 0)
  }

  ghost predicate ClosedOnce(r: Running) {
    && Dones(r.out) == (if r.results == 0 then 1 else r.results)
    && (r.results == 0 ==> r.out != [] && r.out[|r.out| - 1].Done?)
    && r.clean <= r.results
    && Errors(r.out) == Dones(r.out) - r.clean
    && WellClosed(r.out)
  }

  lemma Appends(out: seq<Event>, more: seq<Event>, dones: nat, errors: nat)
    requires WellClosed(out) && WellClosed(more) && Dones(more) == dones && Errors(more) == errors
    ensures Dones(out + more) == Dones(out) + dones && Errors(out + more) == Errors(out) + errors
    ensures WellClosed(out + more)
  {
    CountsConcat(out, more);
    CloseConcat(out, more);
  }

  lemma WaitedInStep(r: Running, acts: seq<Act>)
    requires InStep(r) && Tools(acts)
    ensures InStep(Waited(r, acts))
  {
    ToolsSayNothingFinal(acts);
    Appends(r.out, ToolEvents(acts), 0, 0);
  }

  lemma TookInStep(r: Running, m: Message, ctx: Context)
    requires InStep(r)
    ensures InStep(Took(r, m, ctx))
  {
    var more := Spoken(r, m, ctx);
    SpokenCounts(r, m, ctx);
    Appends(r.out, more, if m.Result? then 1 else 0, if m.Result? && !Clean(m) then 1 else 0);
    hide Spoken, Dones, Errors, WellClosed;
  }

  lemma SpokenCounts(r: Running, m: Message, ctx: Context)
    ensures var more := Spoken(r, m, ctx);
      && Dones(more) == (if m.Result? then 1 else 0)
      && Errors(more) == (if m.Result? && !Clean(m) then 1 else 0)
      && WellClosed(more)
  {
    hide Dones, Errors, WellClosed;
    NothingSaid();
    match m {
      case TextBlockStarts => OneSaid(AssistantText("\n\n"));
      case TextDelta(text) => OneSaid(AssistantText(text));
      case Result(success, isError, subtype, numTurns) =>
        var done := Done(ctx.sessionId, Some(numTurns));
        OneSaid(done);
        if !success {
          EndSaid("The composer stopped early (" + subtype + ").", done);
        } else if isError {
          EndSaid(ctx.failure(r.refusal), done);
        } else {
          assert [] + [done] == [done];
        }
      case _ =>
    }
  }

  lemma NothingSaid()
    ensures Dones([]) == Errors([]) == 0 && WellClosed([])
  {
  }

  lemma OneSaid(e: Event)
    requires !e.Error? && !e.UserMessage?
    ensures Dones([e]) == (if e.Done? then 1 else 0) && Errors([e]) == 0 && WellClosed([e])
  {
    CountsOne(e);
  }

  lemma EndSaid(message: string, done: Event)
    requires done.Done?
    ensures Dones([Error(message)] + [done]) == 1 && Errors([Error(message)] + [done]) == 1
    ensures WellClosed([Error(message)] + [done])
  {
    CountsOne(Error(message));
    CountsOne(done);
    CountsConcat([Error(message)], [done]);
  }

  lemma EndedCloses(r: Running, message: string, ctx: Context)
    requires InStep(r) && !r.sawResult
    ensures ClosedOnce(EndedWith(r, message, ctx))
  {
    var more := [Error(message), Done(ctx.sessionId, None)];
    CountsOne(Error(message));
    CountsOne(Done(ctx.sessionId, None));
    CountsTwo(Error(message), Done(ctx.sessionId, None));
    Appends(r.out, more, 1, 1);
  }

  lemma FinishCloses(r: Running, ctx: Context)
    requires InStep(r)
    ensures ClosedOnce(Caught(r, ctx)) && ClosedOnce(Exhausted(r, ctx))
  {
    if !r.sawResult {
      EndedCloses(r, ctx.failure(r.refusal), ctx);
      EndedCloses(r, INTERRUPTED, ctx);
    }
  }

  // ---- What a script comes to ------------------------------------------------------------------

  /** Results a turn takes, and how many of them succeeded. */
  datatype Tally = Tally(results: nat, clean: nat)

  /** The results that arrive before the stream first throws or ends, or the turn is aborted. */
  function TakenFrom(life: Life, arrivals: seq<Arrival>): Tally
    decreases |arrivals|
  {
    if arrivals == [] then Tally(0, 0)
    else
      var l, got := ActedAll(life, arrivals[0].during), arrivals[0].got;
      if !got.Arrives? || Aborted(l) then Tally(0, 0)
      else
        var rest := TakenFrom(Told(l, got.m), arrivals[1..]);
        Tally(rest.results + (if got.m.Result? then 1 else 0), rest.clean + (if Clean(got.m) then 1 else 0))
  }

  /** The life a turn's key read leaves it with. */
  function KeyLife(life: Life, script: Script): Life {
    ActedAll(Begun(life).life, script.keyWait)
  }

  /** No stream is read after a key read that throws, aborts or finds no key, or a query that does not start. */
  predicate Reads(life: Life, script: Script) {
    script.key.Key? && !script.startThrows && !Aborted(KeyLife(life, script))
  }

  function TakenBy(life: Life, script: Script): Tally {
    if Reads(life, script) then TakenFrom(KeyLife(life, script), script.arrivals) else Tally(0, 0)
  }

  /** How a turn comes to its end: something threw, there was no key, or it stopped, aborted or not. */
  datatype Ending = Threw | Keyless(reason: string) | Stopped(aborted: bool)

  function EndingFrom(life: Life, arrivals: seq<Arrival>): Ending
    decreases |arrivals|
  {
    if arrivals == [] then Stopped(Aborted(life))
    else
      var l, got := ActedAll(life, arrivals[0].during), arrivals[0].got;
      if got.Throws? then Threw
      else if got.Ends? || Aborted(l) then Stopped(Aborted(l))
      else EndingFrom(Told(l, got.m), arrivals[1..])
  }

  function EndingOf(life: Life, script: Script): Ending {
    if script.key.KeyThrows? then Threw
    else if Aborted(KeyLife(life, script)) then Stopped(true)
    else if script.key.NoKey? then Keyless(script.key.reason)
    else if script.startThrows then Threw
    else EndingFrom(KeyLife(life, script), script.arrivals)
  }

  /** The words a turn without a result is closed with. */
  function Words(ending: Ending, refusal: Option<string>, ctx: Context): string {
    match ending
    case Stopped(true) => "The conversation was interrupted — the build stopped."
    case Keyless(reason) => reason
    case _ => ctx.failure(refusal)
  }

  ghost predicate SaysWhy(r: Running, ending: Ending, ctx: Context) {
    !r.sawResult ==>
      && |r.out| >= 2
      && r.out[|r.out| - 2..] == [Error(Words(ending, r.refusal, ctx)), Done(ctx.sessionId, None)]
  }

  // ---- Every turn closes once ------------------------------------------------------------------

  lemma {:induction false} ConsumedCloses(r: Running, arrivals: seq<Arrival>, ctx: Context)
    requires InStep(r) && forall i :: 0 <= i < |arrivals| ==> Tools(arrivals[i].during)
    ensures ClosedOnce(Consumed(r, arrivals, ctx))
    decreases |arrivals|
  {
    hide InStep, ClosedOnce, Waited, Took, Caught, Exhausted;
    if arrivals == [] {
      FinishCloses(r, ctx);
    } else {
      var r' := Waited(r, arrivals[0].during);
      WaitedInStep(r, arrivals[0].during);
      FinishCloses(r', ctx);
      if arrivals[0].got.Arrives? && !Aborted(r'.life) {
        TookInStep(r', arrivals[0].got.m, ctx);
        ConsumedCloses(Took(r', arrivals[0].got.m, ctx), arrivals[1..], ctx);
      }
    }
  }

  /** A turn takes the results its script lets it take. */
  lemma {:induction false} ConsumedTakes(r: Running, arrivals: seq<Arrival>, ctx: Context)
    ensures var r', t := Consumed(r, arrivals, ctx), TakenFrom(r.life, arrivals);
      r'.results == r.results + t.results && r'.clean == r.clean + t.clean
    decreases |arrivals|
  {
    if arrivals != [] {
      var r' := Waited(r, arrivals[0].during);
      if arrivals[0].got.Arrives? && !Aborted(r'.life) {
        ConsumedTakes(Took(r', arrivals[0].got.m, ctx), arrivals[1..], ctx);
      }
    }
  }

  lemma {:induction false} ConsumedSaysWhy(r: Running, arrivals: seq<Arrival>, ctx: Context)
    ensures SaysWhy(Consumed(r, arrivals, ctx), EndingFrom(r.life, arrivals), ctx)
    decreases |arrivals|
  {
    hide SaysWhy, Caught, Exhausted, Took, ActedAll, ToolEvents;
    if arrivals == [] {
      FinishSaysWhy(r, ctx);
    } else {
      var r' := Waited(r, arrivals[0].during);
      FinishSaysWhy(r', ctx);
      if arrivals[0].got.Arrives? && !Aborted(r'.life) {
        TookLives(r', arrivals[0].got.m, ctx);
        ConsumedSaysWhy(Took(r', arrivals[0].got.m, ctx), arrivals[1..], ctx);
      }
    }
  }

  lemma TookLives(r: Running, m: Message, ctx: Context)
    ensures Took(r, m, ctx).life == Told(r.life, m)
  {
    hide Spoken;
  }

  lemma FinishSaysWhy(r: Running, ctx: Context)
    ensures SaysWhy(Caught(r, ctx), Threw, ctx)
    ensures SaysWhy(Exhausted(r, ctx), Stopped(Aborted(r.life)), ctx)
  {
    EndSaysWhy(r, Threw, ctx);
    EndSaysWhy(r, Stopped(Aborted(r.life)), ctx);
  }

  lemma EndSaysWhy(r: Running, ending: Ending, ctx: Context)
    ensures SaysWhy(EndedWith(r, Words(ending, r.refusal, ctx), ctx), ending, ctx)
  {
    var more := [Error(Words(ending, r.refusal, ctx)), Done(ctx.sessionId, None)];
    assert (r.out + more)[|r.out + more| - 2..] == more;
  }

  /** The turn as far as its key read. */
  lemma AfterKey(life: Life, script: Script)
    requires FairScript(script)
    ensures var r := Waited(Begun(life), script.keyWait);
      && InStep(r) && r.results == r.clean == 0 && !r.sawResult && r.refusal == None && r.life == KeyLife(life, script)
  {
    assert InStep(Begun(life));
    WaitedInStep(Begun(life), script.keyWait);
    hide InStep;
  }

  /** A turn that reads no stream. */
  lemma UnreadTurn(life: Life, script: Script, ctx: Context)
    requires !Reads(life, script)
    ensures var r := Waited(Begun(life), script.keyWait);
      TurnRun(life, script, ctx) == EndedWith(r, Words(EndingOf(life, script), None, ctx), ctx)
  {
    hide ActedAll, ToolEvents;
  }

  lemma ReadTurn(life: Life, script: Script, ctx: Context)
    requires Reads(life, script)
    ensures TurnRun(life, script, ctx) == Consumed(Waited(Begun(life), script.keyWait), script.arrivals, ctx)
    ensures EndingOf(life, script) == EndingFrom(KeyLife(life, script), script.arrivals)
  {
    hide ActedAll, ToolEvents, Consumed, EndingFrom;
  }

  lemma TurnCloses(life: Life, script: Script, ctx: Context)
    requires FairScript(script)
    ensures ClosedOnce(TurnRun(life, script, ctx))
    ensures var r, t := TurnRun(life, script, ctx), TakenBy(life, script); r.results == t.results && r.clean == t.clean
  {
    hide InStep, ClosedOnce, TurnRun, Waited, Consumed, Reads, EndingOf, KeyLife, TakenFrom;
    var r := Waited(Begun(life), script.keyWait);
    AfterKey(life, script);
    if Reads(life, script) {
      ReadTurn(life, script, ctx);
      ConsumedCloses(r, script.arrivals, ctx);
      ConsumedTakes(r, script.arrivals, ctx);
    } else {
      UnreadTurn(life, script, ctx);
      EndedCloses(r, Words(EndingOf(life, script), None, ctx), ctx);
    }
  }

  lemma TurnSaysWhy(life: Life, script: Script, ctx: Context)
    requires FairScript(script)
    ensures SaysWhy(TurnRun(life, script, ctx), EndingOf(life, script), ctx)
  {
    hide InStep, SaysWhy, TurnRun, Waited, Consumed, Reads, EndingOf, KeyLife, EndingFrom, EndedWith, Words;
    var r := Waited(Begun(life), script.keyWait);
    AfterKey(life, script);
    if Reads(life, script) {
      ReadTurn(life, script, ctx);
      ConsumedSaysWhy(r, script.arrivals, ctx);
    } else {
      UnreadTurn(life, script, ctx);
      EndSaysWhy(r, EndingOf(life, script), ctx);
    }
  }

  /**
   Whatever the agent's stream brings, and wherever the turn is aborted or something throws, it emits one end per result
   that arrives before the stream first throws, ends or is cut by an abort, and one if there is none; each end is
   announced by an error unless its result succeeded, and each error by nothing but its end. A turn without a result
   closes with the words for how it ended: it says it was interrupted when an abort stopped it, and not when a throw
   did.
   */
  lemma EveryTurnCloses(life: Life, script: Script, ctx: Context)
    requires FairScript(script)
    ensures var out, t := TurnRun(life, script, ctx).out, TakenBy(life, script);
      && Dones(out) == (if t.results == 0 then 1 else t.results)
      && Errors(out) == Dones(out) - t.clean
      && WellClosed(out)
      && (t.results == 0 ==>
            && |out| >= 2
            && out[|out| - 2..] ==
                 [Error(Words(EndingOf(life, script), TurnRun(life, script, ctx).refusal, ctx)),
                   Done(ctx.sessionId, None)])
  {
    hide TurnRun, TakenBy, Dones, Errors, WellClosed, EndingOf, Words;
    TurnCloses(life, script, ctx);
    TurnSaysWhy(life, script, ctx);
    NoResultSeen(life, script, ctx);
  }

  lemma NoResultSeen(life: Life, script: Script, ctx: Context)
    requires FairScript(script)
    ensures TurnRun(life, script, ctx).sawResult <==> TurnRun(life, script, ctx).results > 0
  {
    hide InStep, TurnRun, Waited, Consumed, Reads, EndingOf, KeyLife, Words;
    var r := Waited(Begun(life), script.keyWait);
    AfterKey(life, script);
    if Reads(life, script) {
      ReadTurn(life, script, ctx);
      SeenIsCounted(r, script.arrivals, ctx);
    } else {
      UnreadTurn(life, script, ctx);
    }
  }

  lemma {:induction false} SeenIsCounted(r: Running, arrivals: seq<Arrival>, ctx: Context)
    requires r.sawResult <==> r.results > 0
    ensures Consumed(r, arrivals, ctx).sawResult <==> Consumed(r, arrivals, ctx).results > 0
    decreases |arrivals|
  {
    if arrivals != [] {
      var r' := Waited(r, arrivals[0].during);
      if arrivals[0].got.Arrives? && !Aborted(r'.life) {
        SeenIsCounted(Took(r', arrivals[0].got.m, ctx), arrivals[1..], ctx);
      }
    }
  }

  /** A turn ends once exactly when its script lets it take at most one result. */
  lemma OneEndExactlyWhen(life: Life, script: Script, ctx: Context)
    requires FairScript(script)
    ensures Dones(TurnRun(life, script, ctx).out) == 1 <==> TakenBy(life, script).results <= 1
  {
    hide TurnRun, TakenBy, Dones, Errors, WellClosed, EndingOf, Words;
    EveryTurnCloses(life, script, ctx);
  }
}

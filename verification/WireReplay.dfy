/**
 Replay as the client sees it: what its parser makes of the characters that arrived before a connection dropped, over
 any number of connections and lives of the process, each resumed from the number of the last history frame.
 */
module WireReplay {
  import opened Protocol
  import opened Logs
  import opened SseCodec
  import opened ReplayModel
  import opened ReplayInvariant
  import opened ReplayTheorems
  import opened ReplayLives

  /** An event's name on the wire. */
  function NameOf(e: Event): string {
    match e
    case UserMessage(_, _, _) => "user_message"
    case AssistantText(_) => "assistant_text"
    case OpApplied(_, _) => "op_applied"
    case BriefPosted(_) => "brief"
    case QuestionAsked(_) => "question"
    case QuestionResolved(_, _, _) => "question_resolved"
    case Assumption(_, _) => "assumption"
    case Offer(_) => "offer"
    case ConnectionNeeded(_, _, _) => "connection_needed"
    case ConnectionResolved(_) => "connection_resolved"
    case StepResult(_, _, _) => "step_result"
    case RunResult(_, _, _) => "run_result"
    case Done(_, _) => "done"
    case Error(_) => "error"
  }

  /** Names tell the kinds of events apart, and none is one of the frames that carry no history. */
  lemma NamesTell(a: Event, b: Event)
    ensures NameOf(a) !in {"session", "snapshot", "replayed"}
    ensures NameOf(a) == NameOf(b) ==>
      && (a.UserMessage? <==> b.UserMessage?) && (a.AssistantText? <==> b.AssistantText?)
      && (a.OpApplied? <==> b.OpApplied?) && (a.BriefPosted? <==> b.BriefPosted?)
      && (a.QuestionAsked? <==> b.QuestionAsked?) && (a.QuestionResolved? <==> b.QuestionResolved?)
      && (a.Assumption? <==> b.Assumption?) && (a.Offer? <==> b.Offer?)
      && (a.ConnectionNeeded? <==> b.ConnectionNeeded?) && (a.ConnectionResolved? <==> b.ConnectionResolved?)
      && (a.StepResult? <==> b.StepResult?) && (a.RunResult? <==> b.RunResult?)
      && (a.Done? <==> b.Done?) && (a.Error? <==> b.Error?)
  {
  }

  /** The frame of a logged event; `data` is what the host serialises of it. */
  function FrameOf<D>(s: Sequenced, data: Event -> D): Frame<D> {
    Frame(NameOf(s.event), data(s.event), s.seqNo)
  }

  function FramesOf<D>(out: seq<Sequenced>, data: Event -> D): seq<Frame<D>> {
    seq(|out|, i requires 0 <= i < |out| => FrameOf(out[i], data))
  }

  /** The frames that carry history: not the session's name, a snapshot, or the end of a replay. */
  function History<D>(frames: seq<Frame<D>>): seq<Frame<D>> {
    if frames == [] then []
    else
      var last := frames[|frames| - 1];
      History(frames[..|frames| - 1]) + if last.name in {"session", "snapshot", "replayed"} then [] else [last]
  }

  lemma {:induction false} HistoryPrefix<D>(frames: seq<Frame<D>>, k: nat)
    requires k <= |frames|
    ensures History(frames[..k]) <= History(frames)
  {
    if k == |frames| {
      assert frames[..k] == frames;
    } else {
      HistoryPrefix(frames[..|frames| - 1], k);
      assert frames[..|frames| - 1][..k] == frames[..k];
    }
  }

  lemma {:induction false} HistoryConcat<D>(a: seq<Frame<D>>, b: seq<Frame<D>>)
    ensures History(a + b) == History(a) + History(b)
  {
    if b == [] {
      assert a + b == a;
    } else {
      HistoryConcat(a, b[..|b| - 1]);
      assert (a + b)[..|a + b| - 1] == a + b[..|b| - 1];
    }
  }

  /** Every logged event's frame is history. */
  lemma {:induction false} LoggedIsHistory<D>(out: seq<Sequenced>, data: Event -> D)
    ensures History(FramesOf(out, data)) == FramesOf(out, data)
  {
    if out != [] {
      LoggedIsHistory(out[..|out| - 1], data);
      NamesTell(out[|out| - 1].event, out[|out| - 1].event);
      assert FramesOf(out, data)[..|out| - 1] == FramesOf(out[..|out| - 1], data);
    }
  }

  lemma OneFrame<D>(frame: Frame<D>)
    ensures History([frame]) == if frame.name in {"session", "snapshot", "replayed"} then [] else [frame]
  {
    assert [frame][..0] == [];
  }

  /** The history of a connection, whatever it replayed and forwarded, is its consumer's output. */
  lemma ConnectionIsHistory<D>(
    session: Frame<D>, replayed: seq<Sequenced>, marker: Frame<D>, live: seq<Sequenced>, data: Event -> D)
    requires session.name == "session" && marker.name == "replayed"
    ensures History([session] + FramesOf(replayed, data) + [marker] + FramesOf(live, data)) ==
            FramesOf(replayed + live, data)
  {
    HistoryConcat([session] + FramesOf(replayed, data) + [marker], FramesOf(live, data));
    HistoryConcat([session] + FramesOf(replayed, data), [marker]);
    HistoryConcat([session], FramesOf(replayed, data));
    OneFrame(session);
    OneFrame(marker);
    LoggedIsHistory(replayed, data);
    LoggedIsHistory(live, data);
    FramesJoin(replayed, live, data);
    hide History, FramesOf;
  }

  /** A leg on the wire: the frames its consumer was sent, and the chunks that arrived. */
  datatype WireLeg<D> = WireLeg(steps: seq<Step>, at: nat, i: nat, sent: seq<Frame<D>>, chunks: seq<string>)

  function Received<D>(v: WireLeg<D>, json: Json<D>, other: string -> int): seq<Frame<D>> {
    History(Read(Concat(v.chunks), json, other).events)
  }

  /**
   The number a client resumes from: its last history frame's. A `session` frame's number may be ahead of history not
   yet sent, and would lose it.
   */
  function CursorOf<D>(cursor: int, received: seq<Frame<D>>): int {
    if received == [] then cursor else received[|received| - 1].seqNo
  }

  /** The same connections, counted in events. */
  function LegsOf<D>(legs: seq<WireLeg<D>>, json: Json<D>, other: string -> int): seq<Leg> {
    if legs == [] then []
    else
      var v := legs[|legs| - 1];
      LegsOf(legs[..|legs| - 1], json, other) + [Leg(v.steps, v.at, v.i, |Received(v, json, other)|)]
  }

  /** The message a client sent itself: held, as the log has it, once a frame behind it arrives. */
  function OwnFrames<D>(
    now: World, cursor: int, v: WireLeg<D>, data: Event -> D, json: Json<D>, other: string -> int): seq<Frame<D>>
  {
    if Received(v, json, other) != [] && v.i < |now.consumers| && cursor < now.consumers[v.i].base
    then FramesOf(EntryOf(now.log, now.consumers[v.i].base), data)
    else []
  }

  /** The history frames a client holds after these connections. */
  function Held<D>(
    w: World, cursor: nat, legs: seq<WireLeg<D>>, data: Event -> D, json: Json<D>, other: string -> int)
    : seq<Frame<D>>
  {
    if legs == [] then []
    else
      var v, before := legs[|legs| - 1], Held(w, cursor, legs[..|legs| - 1], data, json, other);
      var now := WorldAt(w, LegsOf(legs, json, other));
      before + (OwnFrames(now, CursorOf(cursor, before), v, data, json, other) + Received(v, json, other))
  }

  /**
   Each connection is opened by the client with its cursor, is sent no snapshot and meets no hole; what it was sent
   carries its consumer's output as history, and what arrived is a beginning of that text, dropped at any character and
   cut anywhere.
   */
  ghost predicate WireResumed<D>(
    w: World, cursor: nat, legs: seq<WireLeg<D>>, data: Event -> D, json: Json<D>, other: string -> int)
  {
    legs == [] ||
    (var v, before, now := legs[|legs| - 1], legs[..|legs| - 1], WorldAt(w, LegsOf(legs, json, other));
     var from := CursorOf(cursor, Held(w, cursor, before, data, json, other));
     && WireResumed(w, cursor, before, data, json, other)
     && v.i < |now.consumers|
     && AllSendable(v.sent, json)
     && History(v.sent) == FramesOf(now.consumers[v.i].out, data)
     && Concat(v.chunks) <= StreamText(v.sent, json)
     && from >= 0 && Opens(WorldAt(w, LegsOf(before, json, other)), from, v.steps, v.at, v.i)
     && (now.consumers[v.i].snap.Some? ==> now.consumers[v.i].base == from)
     && !now.consumers[v.i].readLost && !now.consumers[v.i].rolled)
  }

  /** What arrives on one connection is a beginning of what its consumer was sent. */
  lemma ReceivedIsSent<D>(v: WireLeg<D>, out: seq<Sequenced>, data: Event -> D, json: Json<D>, other: string -> int)
    requires AllSendable(v.sent, json) && History(v.sent) == FramesOf(out, data)
    requires Concat(v.chunks) <= StreamText(v.sent, json)
    ensures var n := |Received(v, json, other)|;
      n <= |out| && Received(v, json, other) == FramesOf(out[..n], data)
  {
    hide *;
    AnyChunking(v.sent, json, other, v.chunks);
    SendableIsNumbered(v.sent, json);
    var k := Complete(v.sent, json, |Concat(v.chunks)|);
    HistoryPrefix(v.sent, k);
    ReceivedOf(v, k, json, other);
    FramesPrefix(out, Received(v, json, other), data);
  }

  lemma SendableIsNumbered<D>(frames: seq<Frame<D>>, json: Json<D>)
    requires AllSendable(frames, json)
    ensures Numbered(frames)
  {
  }

  lemma ReceivedOf<D>(v: WireLeg<D>, k: nat, json: Json<D>, other: string -> int)
    requires k <= |v.sent| && Read(Concat(v.chunks), json, other).events == v.sent[..k]
    ensures Received(v, json, other) == History(v.sent[..k])
  {
    hide History, Read, Concat;
  }

  lemma FramesPrefix<D>(out: seq<Sequenced>, got: seq<Frame<D>>, data: Event -> D)
    requires got <= FramesOf(out, data)
    ensures |got| <= |out| && got == FramesOf(out[..|got|], data)
  {
  }

  lemma {:induction false} WireIsResumed<D>(
    w: World, cursor: nat, legs: seq<WireLeg<D>>, data: Event -> D, json: Json<D>, other: string -> int)
    requires WireResumed(w, cursor, legs, data, json, other)
    ensures Resumed(w, cursor, LegsOf(legs, json, other))
    ensures Held(w, cursor, legs, data, json, other) == FramesOf(Arrived(w, cursor, LegsOf(legs, json, other)), data)
  {
    hide *;
    NoLegs(w, cursor, data, json, other);
    if legs != [] {
      var v, before := legs[|legs| - 1], legs[..|legs| - 1];
      WireLast(w, cursor, legs, data, json, other);
      WireIsResumed(w, cursor, before, data, json, other);
      var legs', n := LegsOf(before, json, other), |Received(v, json, other)|;
      var leg := Leg(v.steps, v.at, v.i, n);
      var now, seen := WorldAt(w, legs' + [leg]), Arrived(w, cursor, legs');
      ReceivedIsSent(v, now.consumers[v.i].out, data, json, other);
      CursorsAgree(cursor, seen, data);
      OneLegMore(w, cursor, legs', leg);
      GainedFrames(now, CursorAfter(cursor, seen), v, data, json, other);
      FramesJoin(seen, Gained(now.log, CursorAfter(cursor, seen), now.consumers[v.i], n), data);
    }
  }

  lemma NoLegs<D>(w: World, cursor: nat, data: Event -> D, json: Json<D>, other: string -> int)
    ensures LegsOf<D>([], json, other) == [] && Held<D>(w, cursor, [], data, json, other) == [] == FramesOf([], data)
    ensures Resumed(w, cursor, []) && Arrived(w, cursor, []) == []
  {
  }

  lemma WireLast<D>(
    w: World, cursor: nat, legs: seq<WireLeg<D>>, data: Event -> D, json: Json<D>, other: string -> int)
    requires WireResumed(w, cursor, legs, data, json, other) && legs != []
    ensures var v, before := legs[|legs| - 1], legs[..|legs| - 1];
      var leg := Leg(v.steps, v.at, v.i, |Received(v, json, other)|);
      var now := WorldAt(w, LegsOf(before, json, other) + [leg]);
      var held := Held(w, cursor, before, data, json, other);
      && WireResumed(w, cursor, before, data, json, other)
      && v.i < |now.consumers|
      && AllSendable(v.sent, json)
      && History(v.sent) == FramesOf(now.consumers[v.i].out, data)
      && Concat(v.chunks) <= StreamText(v.sent, json)
      && CursorOf(cursor, held) >= 0
      && Opens(WorldAt(w, LegsOf(before, json, other)), CursorOf(cursor, held), v.steps, v.at, v.i)
      && (now.consumers[v.i].snap.Some? ==> now.consumers[v.i].base == CursorOf(cursor, held))
      && !now.consumers[v.i].readLost && !now.consumers[v.i].rolled
      && Held(w, cursor, legs, data, json, other) ==
         held + (OwnFrames(now, CursorOf(cursor, held), v, data, json, other) + Received(v, json, other))
      && LegsOf(legs, json, other) == LegsOf(before, json, other) + [leg]
  {
    hide History, FramesOf, Concat, StreamText, CursorOf, Received, WorldAt, AllSendable, Opens, OwnFrames;
  }

  lemma GainedFrames<D>(
    now: World, cursor: nat, v: WireLeg<D>, data: Event -> D, json: Json<D>, other: string -> int)
    requires v.i < |now.consumers| && |Received(v, json, other)| <= |now.consumers[v.i].out|
    requires Received(v, json, other) == FramesOf(now.consumers[v.i].out[..|Received(v, json, other)|], data)
    ensures OwnFrames(now, cursor, v, data, json, other) + Received(v, json, other) ==
            FramesOf(Gained(now.log, cursor, now.consumers[v.i], |Received(v, json, other)|), data)
  {
    var c, n := now.consumers[v.i], |Received(v, json, other)|;
    FramesJoin(if n > 0 && cursor < c.base then EntryOf(now.log, c.base) else [], c.out[..n], data);
    hide Received, EntryOf, FramesOf;
    assert FramesOf([], data) == [] by { NoFrames(data); }
  }

  lemma NoFrames<D>(data: Event -> D)
    ensures FramesOf([], data) == []
  {
  }

  lemma CursorsAgree<D>(cursor: nat, seen: seq<Sequenced>, data: Event -> D)
    ensures CursorOf(cursor, FramesOf(seen, data)) == CursorAfter(cursor, seen)
  {
  }

  lemma OneLegMore(w: World, cursor: nat, legs: seq<Leg>, leg: Leg)
    requires var now := WorldAt(w, legs + [leg]);
      && Resumed(w, cursor, legs) && leg.i < |now.consumers| && leg.cut <= |now.consumers[leg.i].out|
      && var come := CursorAfter(cursor, Arrived(w, cursor, legs));
      && Opens(WorldAt(w, legs), come, leg.steps, leg.at, leg.i)
      && (now.consumers[leg.i].snap.Some? ==> now.consumers[leg.i].base == come)
      && !now.consumers[leg.i].readLost && !now.consumers[leg.i].rolled
    ensures Resumed(w, cursor, legs + [leg])
    ensures var now, seen := WorldAt(w, legs + [leg]), Arrived(w, cursor, legs);
      Arrived(w, cursor, legs + [leg]) ==
      seen + Gained(now.log, CursorAfter(cursor, seen), now.consumers[leg.i], leg.cut)
  {
    hide WorldAt, Gained, Opens;
    assert (legs + [leg])[..|legs|] == legs;
  }

  lemma FramesJoin<D>(a: seq<Sequenced>, b: seq<Sequenced>, data: Event -> D)
    ensures FramesOf(a + b, data) == FramesOf(a, data) + FramesOf(b, data)
  {
  }

  // ---- What the client has received ------------------------------------------------------------

  /** The frames received are those of the log from the first cursor on, up to the last one's number. */
  ghost predicate IsWireStretch<D>(log: seq<Sequenced>, cursor: nat, got: seq<Frame<D>>, data: Event -> D) {
    Increasing(log) && CursorOf(cursor, got) >= 0 && got == FramesOf(Seg(log, cursor, CursorOf(cursor, got)), data)
  }

  ghost predicate IsLogged<D>(log: seq<Sequenced>, frame: Frame<D>, data: Event -> D) {
    exists e :: e in log && frame == FrameOf(e, data)
  }

  /** Each frame received is still that of some event of the log. */
  ghost predicate AllLogged<D>(log: seq<Sequenced>, got: seq<Frame<D>>, data: Event -> D) {
    forall j :: 0 <= j < |got| ==> IsLogged(log, got[j], data)
  }

  ghost predicate HasNumber<D>(got: seq<Frame<D>>, n: int) {
    exists j :: 0 <= j < |got| && got[j].seqNo == n
  }

  /** The events of the log that these frames are of. */
  ghost function LoggedAs<D>(log: seq<Sequenced>, got: seq<Frame<D>>, data: Event -> D): (seen: seq<Sequenced>)
    requires AllLogged(log, got, data)
    ensures FramesOf(seen, data) == got && StillLogged(log, seen)
  {
    if got == [] then []
    else
      var last := |got| - 1;
      assert IsLogged(log, got[last], data);
      var e :| e in log && got[last] == FrameOf(e, data);
      LoggedAs(log, got[..last], data) + [e]
  }

  /** Events of the same frames have the same numbers, so what the numbers say of one holds of the other. */
  lemma SameFrames<D>(
    log: seq<Sequenced>, cursor: nat, a: seq<Sequenced>, b: seq<Sequenced>, got: seq<Frame<D>>, data: Event -> D)
    requires got == FramesOf(a, data) == FramesOf(b, data) && Ascends(cursor, a) && NoGap(log, cursor, a)
    ensures Ascends(cursor, b) && NoGap(log, cursor, b)
  {
    CursorsAgree(cursor, a, data);
    CursorsAgree(cursor, b, data);
    assert |a| == |b| && forall k :: 0 <= k < |a| ==> a[k].seqNo == got[k].seqNo == b[k].seqNo;
    hide FramesOf;
    forall n | cursor < n <= CursorAfter(cursor, b) && (InLog(log, n) || n > LastSeq(log))
      ensures InLog(b, n)
    {
      var k :| 0 <= k < |a| && a[k].seqNo == n;
      assert b[k].seqNo == n;
    }
  }

  lemma WireStretchExactlyWhen<D>(
    log: seq<Sequenced>, cursor: nat, seen: seq<Sequenced>, got: seq<Frame<D>>, data: Event -> D)
    requires Increasing(log) && Ascends(cursor, seen) && NoGap(log, cursor, seen) && got == FramesOf(seen, data)
    ensures IsWireStretch(log, cursor, got, data) <==> AllLogged(log, got, data)
    ensures IsStretch(log, cursor, seen) ==> IsWireStretch(log, cursor, got, data)
  {
    CursorsAgree(cursor, seen, data);
    SegEntries(log, cursor, CursorAfter(cursor, seen));
    if AllLogged(log, got, data) {
      var same := LoggedAs(log, got, data);
      SameFrames(log, cursor, seen, same, got, data);
      CursorsAgree(cursor, same, data);
      StretchExactlyWhen(log, cursor, same);
    }
    hide Seg, NoGap, Ascends, Increasing, StillLogged;
    if IsWireStretch(log, cursor, got, data) {
      StretchIsLogged(log, Seg(log, cursor, CursorAfter(cursor, seen)), got, data);
    }
  }

  lemma StretchIsLogged<D>(log: seq<Sequenced>, stretch: seq<Sequenced>, got: seq<Frame<D>>, data: Event -> D)
    requires got == FramesOf(stretch, data) && forall e :: e in stretch ==> e in log
    ensures AllLogged(log, got, data)
  {
    forall j | 0 <= j < |got|
      ensures IsLogged(log, got[j], data)
    {
      var e := stretch[j];
      assert e in log && got[j] == FrameOf(e, data);
    }
  }

  lemma WireNumbers<D>(log: seq<Sequenced>, cursor: nat, seen: seq<Sequenced>, got: seq<Frame<D>>, data: Event -> D)
    requires Increasing(seen) && got == FramesOf(seen, data)
    requires forall n :: cursor < n <= CursorAfter(cursor, seen) && InLog(log, n) ==> InLog(seen, n)
    ensures forall i, j :: 0 <= i < j < |got| ==> got[i].seqNo < got[j].seqNo
    ensures forall n: nat :: cursor < n <= CursorOf(cursor, got) && InLog(log, n) ==> HasNumber(got, n)
  {
    CursorsAgree(cursor, seen, data);
    hide CursorOf, CursorAfter;
    assert forall k :: 0 <= k < |got| ==> got[k].seqNo == seen[k].seqNo;
    forall n: nat | cursor < n <= CursorOf(cursor, got) && InLog(log, n)
      ensures HasNumber(got, n)
    {
      assert InLog(seen, n);
      var k :| 0 <= k < |seen| && seen[k].seqNo == n;
      assert got[k].seqNo == n;
    }
  }

  /**
   A client that drops at any character of any connection, and resumes from the number of its last history frame, is
   over any number of connections and lives of the process sent no number twice and passes none of the log's by. The
   frames it received are those of the log from its first cursor on exactly when each is still that of a logged event;
   and so they are when the process never died while an event it had received was queued or lost.
   */
  lemma WireReconnectChain<D>(
    w: World, cursor: nat, legs: seq<WireLeg<D>>, more: seq<Step>, data: Event -> D, json: Json<D>,
    other: string -> int)
    requires Reachable(w) && WireResumed(w, cursor, legs, data, json, other)
    ensures var now, got := WorldAt(w, LegsOf(legs, json, other)), Held(w, cursor, legs, data, json, other);
      var log := Run(now, more).log;
      && (forall i, j :: 0 <= i < j < |got| ==> got[i].seqNo < got[j].seqNo)
      && (forall n: nat :: cursor < n <= CursorOf(cursor, got) && InLog(log, n) ==> HasNumber(got, n))
      && (IsWireStretch(log, cursor, got, data) <==> AllLogged(log, got, data))
    ensures var counted := LegsOf(legs, json, other);
      AlwaysSpared(w, cursor, counted) && Spared(WorldAt(w, counted), more, Arrived(w, cursor, counted)) ==>
      IsWireStretch(Run(WorldAt(w, counted), more).log, cursor, Held(w, cursor, legs, data, json, other), data)
  {
    hide *;
    WireIsResumed(w, cursor, legs, data, json, other);
    var counted, got := LegsOf(legs, json, other), Held(w, cursor, legs, data, json, other);
    var now, seen := WorldAt(w, counted), Arrived(w, cursor, counted);
    ReconnectAcrossLives(w, cursor, counted, more);
    LegsLeaveNoGap(w, cursor, counted);
    RunLeavesNoGap(now, more, cursor, seen);
    WireNumbers(Run(now, more).log, cursor, seen, got, data);
    WireStretchExactlyWhen(Run(now, more).log, cursor, seen, got, data);
    ReconnectChain(w, cursor, counted, more);
    if AlwaysSpared(w, cursor, counted) && Spared(now, more, seen) {
      StretchThroughEnds(now, more, cursor, seen);
    }
  }

  /** Within one life of the process they always are. */
  lemma WireWithinALife<D>(
    w: World, cursor: nat, legs: seq<WireLeg<D>>, more: seq<Step>, data: Event -> D, json: Json<D>,
    other: string -> int)
    requires Reachable(w) && WireResumed(w, cursor, legs, data, json, other)
    requires CrashFree(LegsOf(legs, json, other)) && Crash !in more
    ensures IsWireStretch(
      Run(WorldAt(w, LegsOf(legs, json, other)), more).log, cursor, Held(w, cursor, legs, data, json, other), data)
  {
    hide *;
    var counted := LegsOf(legs, json, other);
    CrashFreeLegsAreSpared(w, cursor, counted);
    CrashFreeIsSpared(WorldAt(w, counted), more, Arrived(w, cursor, counted));
    WireReconnectChain(w, cursor, legs, more, data, json, other);
  }
}

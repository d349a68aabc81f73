/** Every step keeps the invariant, so every reachable state has it. */
module ReplaySteps {
  import opened Protocol
  import opened Logs
  import opened SnapshotFold
  import opened Threads
  import opened Sessions
  import opened ReplayModel
  import opened ReplayInvariant
  import opened ReplayConsumers

  // ---- The session and the store ---------------------------------------------------------------

  function NextOf(w: World, op: LifeOp): Sequenced {
    Sequenced(EventOf(op), w.hist.seqNo + 1)
  }

  lemma EventsSnoc(log: seq<Sequenced>, born: nat, s: Sequenced)
    requires born <= |log|
    ensures Events((log + [s])[born..]) == Events(log[born..]) + [s.event]
  {
  }

  lemma WrittenLog(w: World, op: LifeOp)
    requires LogOk(w) && ByTurn(op)
    ensures LogOk(Written(w, op))
  {
    var s := NextOf(w, op);
    IncreasingGrows(w.log, s);
    LivedOnce(w.hist, op);
    assert (w.log + [s])[w.birth.ringFrom..] == w.log[w.birth.ringFrom..] + [s];
    BufferedKeepsSuffix(w.log[w.birth.ringFrom..], s);
    EventsSnoc(w.log, w.birth.born, s);
    LiveAllSnoc(w.birth.snap0, Events(w.log[w.birth.born..]), s.event);
    hide Increasing, Lived;
  }

  lemma WrittenStore(w: World, op: LifeOp)
    requires LogOk(w) && StoreOk(w)
    ensures StoreOk(Written(w, op))
  {
    var s := NextOf(w, op);
    var settled := |w.log| - |w.chain|;
    if w.durable {
      assert (w.log + [s])[..settled] == w.log[..settled];
      assert (w.log + [s])[settled..] == w.chain + [s];
      SettledGrows(w.log, s, settled, w.thread, w.lost);
    }
    hide LogOk, SettledOk, Lived;
  }

  lemma SettledGrows(log: seq<Sequenced>, s: Sequenced, settled: nat, t: Thread, lost: set<nat>)
    requires settled <= |log| && SettledOk(log, settled, t, lost)
    ensures SettledOk(log + [s], settled, t, lost)
  {
    assert (log + [s])[..settled] == log[..settled];
  }

  lemma InLogSnoc(log: seq<Sequenced>, settled: nat, n: nat)
    requires settled < |log|
    ensures InLog(log[..settled + 1], n) <==> InLog(log[..settled], n) || n == log[settled].seqNo
  {
    assert log[..settled + 1] == log[..settled] + [log[settled]];
    if i :| 0 <= i < settled && log[..settled][i].seqNo == n {
      assert log[..settled + 1][i].seqNo == n;
    }
    if n == log[settled].seqNo {
      assert log[..settled + 1][settled].seqNo == n;
    }
  }

  lemma UnsettledIsNew(log: seq<Sequenced>, settled: nat, t: Thread, lost: set<nat>)
    requires Increasing(log) && settled < |log| && SettledOk(log, settled, t, lost)
    ensures log[settled].seqNo !in t.rows && log[settled].seqNo !in lost
  {
    assert forall i :: 0 <= i < settled ==> log[..settled][i] == log[i];
  }

  /** A queued write settles: the row is there, or the number is lost. */
  lemma SettlesOne(log: seq<Sequenced>, settled: nat, t: Thread, lost: set<nat>, lands: bool)
    requires Increasing(log) && settled < |log| && SettledOk(log, settled, t, lost)
    ensures if lands then SettledOk(log, settled + 1, Stored(t, log[settled]), lost)
            else SettledOk(log, settled + 1, t, lost + {log[settled].seqNo})
  {
    UnsettledIsNew(log, settled, t, lost);
    forall n
      ensures InLog(log[..settled + 1], n) <==> InLog(log[..settled], n) || n == log[settled].seqNo
    {
      InLogSnoc(log, settled, n);
    }
    hide InLog, Increasing;
  }

  /** The world after the oldest queued write has settled. */
  function Settles(w: World, lands: bool): World
    requires w.chain != []
  {
    if lands then w.(thread := Stored(w.thread, w.chain[0]), chain := w.chain[1..])
    else w.(lost := w.lost + {w.chain[0].seqNo}, chain := w.chain[1..])
  }

  lemma WriteSettles(w: World, lands: bool)
    requires LogOk(w) && StoreOk(w) && w.chain != []
    ensures StoreOk(Settles(w, lands))
  {
    hide *;
    HeadOfChain(w);
    SettlesOne(w.log, |w.log| - |w.chain|, w.thread, w.lost, lands);
    StoredIsOk(w.thread, w.chain[0]);
    SettledStore(w, lands);
  }

  lemma SettledStore(w: World, lands: bool)
    requires w.durable && w.chain != [] && |w.chain| <= |w.log| && ThreadOk(w.thread)
    requires w.chain[1..] == w.log[|w.log| - |w.chain| + 1..]
    requires w.birth.floor <= w.thread.lastSeq
    requires ThreadOk(Stored(w.thread, w.chain[0])) && Stored(w.thread, w.chain[0]).lastSeq >= w.thread.lastSeq
    requires var settled, s := |w.log| - |w.chain|, w.chain[0];
      if lands then SettledOk(w.log, settled + 1, Stored(w.thread, s), w.lost)
      else SettledOk(w.log, settled + 1, w.thread, w.lost + {s.seqNo})
    ensures StoreOk(Settles(w, lands))
  {
    hide SettledOk, ThreadOk, Stored;
  }

  lemma HeadOfChain(w: World)
    requires LogOk(w) && StoreOk(w) && w.chain != []
    ensures w.durable && Increasing(w.log) && |w.chain| <= |w.log|
    ensures ThreadOk(w.thread) && w.birth.floor <= w.thread.lastSeq
    ensures SettledOk(w.log, |w.log| - |w.chain|, w.thread, w.lost)
    ensures var settled := |w.log| - |w.chain|;
      && w.chain[0] == w.log[settled] && w.chain[1..] == w.log[settled + 1..] && w.chain[0].seqNo >= 1
      && |w.log| - |w.chain[1..]| == settled + 1
  {
    hide SettledOk, ThreadOk;
  }

  lemma StoredIsOk(t: Thread, s: Sequenced)
    requires ThreadOk(t) && s.seqNo >= 1
    ensures ThreadOk(Stored(t, s)) && Stored(t, s).lastSeq >= t.lastSeq
  {
  }

  // ---- The session's life ----------------------------------------------------------------------

  /** A consumer's step that neither opens its channel nor enters or leaves the scene. */
  predicate SameRole(c: Consumer, c': Consumer) {
    && c'.kind == c.kind
    && c'.pc.Announced? == c.pc.Announced?
    && c'.pc.Finished? == c.pc.Finished?
    && (!c'.chan.closed ==> !c.chan.closed)
    && (c'.pc.Reading? ==> c.pc.Reading?)
  }

  lemma LifeKept(w: World, i: nat, c': Consumer)
    requires LifeOk(w) && i < |w.consumers| && SameRole(w.consumers[i], c')
    ensures LifeOk(w.(consumers := w.consumers[i := c']))
  {
    var w' := w.(consumers := w.consumers[i := c']);
    if w.busy {
      var j :| 0 <= j < |w.consumers| && Active(w.consumers[j]);
      assert Active(w'.consumers[j]);
    }
  }

  lemma OneConsumer(w: World, i: nat, c': Consumer)
    requires Inv(w) && i < |w.consumers| && SameRole(w.consumers[i], c')
    requires ConsumerOk(w.log, w.birth, c')
    ensures Inv(w.(consumers := w.consumers[i := c']))
  {
    assert Increasing(w.log);
    hide LogOk, StoreOk, LifeOk, ConsumerOk, Increasing;
    LifeKept(w, i, c');
    SameSession(w, w.(consumers := w.consumers[i := c']));
  }

  /** Nothing said of session and store alone speaks of who is reading. */
  lemma SameSession(w: World, w': World)
    requires w' == w.(busy := w'.busy, turn := w'.turn, aborted := w'.aborted, subscriber := w'.subscriber,
      timer := w'.timer, consumers := w'.consumers)
    ensures LogOk(w) <==> LogOk(w')
    ensures StoreOk(w) <==> StoreOk(w')
  {
  }

  /** A consumer joins, its client having asked for nothing of the session yet. */
  lemma ConsumerJoinsScene(w: World, kind: Kind, lastSeq: nat)
    requires Inv(w) && (kind.Stream? ==> !w.busy)
    ensures Inv(w.(busy := w.busy || kind.Stream?, consumers := w.consumers + [NewConsumer(kind, lastSeq)]))
  {
    assert Increasing(w.log);
    hide LogOk, StoreOk, LifeOk, ConsumerOk, Increasing;
    var c := NewConsumer(kind, lastSeq);
    var w' := w.(busy := w.busy || kind.Stream?, consumers := w.consumers + [c]);
    NewConsumerOk(w.log, w.birth, kind, lastSeq);
    SceneGrows(w, c, w');
    SameSession(w, w');
  }

  lemma SceneGrows(w: World, c: Consumer, w': World)
    requires LifeOk(w) && c.chan.closed && c.pc.Announced? && (c.kind.Stream? ==> !w.busy)
    requires w' == w.(busy := w.busy || c.kind.Stream?, consumers := w.consumers + [c])
    ensures LifeOk(w')
  {
    assert w'.consumers[|w.consumers|] == c;
    assert forall i :: 0 <= i < |w.consumers| ==> w'.consumers[i] == w.consumers[i];
    if w.busy {
      var j :| 0 <= j < |w.consumers| && Active(w.consumers[j]);
      assert Active(w'.consumers[j]);
    } else if c.kind.Stream? {
      assert Active(w'.consumers[|w.consumers|]);
    }
  }

  /** With the subscriber shut, no channel is open, and nothing else has changed. */
  lemma AllShut(w: World)
    requires LifeOk(w)
    ensures var w' := ShutSubscriber(w);
      && (forall i :: 0 <= i < |w'.consumers| ==> w'.consumers[i].chan.closed)
      && |w'.consumers| == |w.consumers|
      && w' == w.(consumers := w'.consumers)
      && (forall i :: 0 <= i < |w.consumers| ==> SameRole(w.consumers[i], w'.consumers[i]))
      && (forall i :: 0 <= i < |w.consumers| && w.consumers[i].pc.Announced? ==> w'.consumers[i] == w.consumers[i])
  {
  }

  lemma SubscriberOk(w: World)
    requires Inv(w) && w.subscriber.Some?
    ensures Increasing(w.log) && w.subscriber.value < |w.consumers|
    ensures ConsumerOk(w.log, w.birth, w.consumers[w.subscriber.value])
  {
    assert Increasing(w.log) && ConsumersOk(w);
    hide LogOk, StoreOk, ConsumerOk, Increasing;
  }

  lemma ShutKeepsInv(w: World)
    requires Inv(w)
    ensures Inv(ShutSubscriber(w))
  {
    hide Inv, ConsumerOk, Increasing;
    if w.subscriber.Some? {
      SubscriberOk(w);
      var i := w.subscriber.value;
      var c := w.consumers[i];
      ConsumerShut(w.log, w.birth, c, c.endAt);
      assert Shut(c).(endAt := c.endAt) == Shut(c);
      OneConsumer(w, i, Shut(c));
    }
  }

  // ---- Emitting --------------------------------------------------------------------------------

  lemma SameLife(w: World, w': World)
    requires w' == w.(log := w'.log, hist := w'.hist, thread := w'.thread, chain := w'.chain, lost := w'.lost)
    ensures LifeOk(w) <==> LifeOk(w')
  {
  }

  lemma SessionWritten(w: World, op: LifeOp)
    requires LogOk(w) && StoreOk(w) && ByTurn(op)
    ensures var w' := Written(w, op);
      && LogOk(w') && StoreOk(w')
      && Increasing(w.log) && w'.log == w.log + [NextOf(w, op)] && NextOf(w, op).seqNo > LastSeq(w.log)
  {
    WrittenLog(w, op);
    WrittenStore(w, op);
    hide StoreOk, Increasing, Lived;
  }

  lemma ConsumersAfterEmit(w: World, op: LifeOp)
    requires LogOk(w) && ConsumersOk(w) && LifeOk(w) && ByTurn(op) && !op.OpensTurn?
    requires Increasing(w.log + [NextOf(w, op)]) && NextOf(w, op).seqNo > LastSeq(w.log)
    ensures forall i :: 0 <= i < |w.consumers| ==>
      ConsumerOk(w.log + [NextOf(w, op)], w.birth,
        if w.subscriber == Some(i) then Pushed(w.consumers[i], NextOf(w, op)) else w.consumers[i])
  {
    var s := NextOf(w, op);
    assert forall i :: 0 <= i < |w.consumers| && !w.consumers[i].chan.closed ==> w.subscriber == Some(i);
    hide LogOk, LifeOk, ConsumerOk, Increasing;
    forall i | 0 <= i < |w.consumers|
      ensures ConsumerOk(w.log + [s], w.birth,
        if w.subscriber == Some(i) then Pushed(w.consumers[i], s) else w.consumers[i])
    {
      if w.subscriber == Some(i) {
        ConsumerPushed(w.log, s, w.birth, w.consumers[i]);
      } else {
        ConsumerGrows(w.log, s, w.birth, w.consumers[i]);
      }
    }
  }

  lemma EmitKeeps(w: World, op: LifeOp)
    requires Inv(w) && ByTurn(op) && !op.OpensTurn?
    ensures Inv(DoEmit(w, op))
  {
    var w', s := DoEmit(w, op), NextOf(w, op);
    SessionWritten(w, op);
    IncreasingGrows(w.log, s);
    EmitLife(w, op);
    EmitConsumers(w, op);
    hide LogOk, StoreOk, LifeOk, ConsumersOk, Increasing;
    SameSession(Written(w, op), w');
  }

  lemma EmitConsumers(w: World, op: LifeOp)
    requires LogOk(w) && ConsumersOk(w) && LifeOk(w) && ByTurn(op) && !op.OpensTurn?
    requires Increasing(w.log + [NextOf(w, op)]) && NextOf(w, op).seqNo > LastSeq(w.log)
    ensures ConsumersOk(DoEmit(w, op))
  {
    ConsumersAfterEmit(w, op);
    assert w.subscriber.Some? ==> w.subscriber.value < |w.consumers|;
    hide LogOk, LifeOk, ConsumerOk, Increasing, Pushed;
    EmitShape(w, op);
    hide DoEmit;
  }

  lemma EmitShape(w: World, op: LifeOp)
    requires w.subscriber.Some? ==> w.subscriber.value < |w.consumers|
    ensures var w' := DoEmit(w, op);
      && w'.log == w.log + [NextOf(w, op)] && w'.birth == w.birth && |w'.consumers| == |w.consumers|
      && forall i :: 0 <= i < |w.consumers| ==>
           w'.consumers[i] == if w.subscriber == Some(i) then Pushed(w.consumers[i], NextOf(w, op)) else w.consumers[i]
  {
    hide Pushed, Lived;
  }

  lemma EmitLife(w: World, op: LifeOp)
    requires LifeOk(w)
    ensures LifeOk(DoEmit(w, op))
  {
    var s, w' := NextOf(w, op), DoEmit(w, op);
    if w.subscriber.Some? {
      var i := w.subscriber.value;
      assert i < |w.consumers|;
      var w1 := w.(consumers := w.consumers[i := Pushed(w.consumers[i], s)]);
      LifeKept(w, i, Pushed(w.consumers[i], s));
      hide LifeOk;
      SameLife(w1, w');
    } else {
      hide LifeOk;
      SameLife(w, w');
    }
  }

  // ---- Subscribing -----------------------------------------------------------------------------

  /** Every channel shut: the log grows past all of them. */
  lemma WrittenAllShut(w: World, op: LifeOp)
    requires Inv(w) && ByTurn(op)
    requires forall i :: 0 <= i < |w.consumers| ==> w.consumers[i].chan.closed
    ensures Inv(Written(w, op))
  {
    var w', s := Written(w, op), NextOf(w, op);
    SessionWritten(w, op);
    IncreasingGrows(w.log, s);
    hide LogOk, StoreOk, LifeOk, ConsumerOk, Increasing;
    SameLife(w, w');
    forall i | 0 <= i < |w'.consumers|
      ensures ConsumerOk(w'.log, w'.birth, w'.consumers[i])
    {
      ConsumerGrows(w.log, s, w.birth, w.consumers[i]);
    }
    assert ConsumersOk(w');
  }

  lemma SubscribeLife(w: World, i: nat, c': Consumer, w': World)
    requires LifeOk(w) && i < |w.consumers| && w.consumers[i].pc.Announced?
    requires forall j :: 0 <= j < |w.consumers| ==> w.consumers[j].chan.closed
    requires c'.kind == w.consumers[i].kind && !c'.pc.Announced? && !c'.pc.Finished?
    requires c'.pc.Reading? ==> w.durable
    requires w' == w.(subscriber := Some(i), timer := false, consumers := w.consumers[i := c'],
      turn := w.turn || c'.kind.Stream?, aborted := w.aborted && !c'.kind.Stream?)
    ensures LifeOk(w')
  {
    if w.busy {
      var j :| 0 <= j < |w.consumers| && Active(w.consumers[j]);
      assert Active(w'.consumers[j]);
    }
  }

  lemma ConsumerReplaced(w: World, i: nat, c': Consumer, w': World)
    requires Inv(w) && i < |w.consumers| && ConsumerOk(w.log, w.birth, c') && LifeOk(w')
    requires w' == w.(busy := w'.busy, turn := w'.turn, aborted := w'.aborted, subscriber := w'.subscriber,
      timer := w'.timer, consumers := w.consumers[i := c'])
    ensures Inv(w')
  {
    assert Increasing(w.log);
    hide LogOk, StoreOk, LifeOk, ConsumerOk, Increasing;
    SameSession(w, w');
  }

  lemma Parts(w: World)
    requires Inv(w)
    ensures LogOk(w) && StoreOk(w) && ConsumersOk(w) && LifeOk(w) && ThreadOk(w.thread)
    ensures w.hist.seqNo == LastSeq(w.log)
  {
    hide LifeOk, ConsumersOk, Increasing, ThreadOk;
  }

  lemma ConsumerAt(w: World, i: nat)
    requires Inv(w) && i < |w.consumers|
    ensures Increasing(w.log) && ConsumerOk(w.log, w.birth, w.consumers[i])
  {
    assert Increasing(w.log) && ConsumersOk(w);
    hide LogOk, StoreOk, ConsumerOk, Increasing, LifeOk;
  }

  /** Only an attach replays, only a stream drains, and only a durable session is read. */
  lemma ReaderKinds(w: World, i: nat)
    requires Inv(w) && i < |w.consumers|
    ensures w.consumers[i].pc.Choosing? || w.consumers[i].pc.Marked? ==> w.consumers[i].kind.Attach?
    ensures w.consumers[i].pc.Draining? ==> w.consumers[i].kind.Stream?
    ensures w.consumers[i].pc.Reading? ==> w.durable
  {
    Parts(w);
    ConsumerAt(w, i);
    hide LogOk, StoreOk, ChanOk, TrackOk, HoleOk, SnapOk, Increasing;
  }

  lemma AttachSubscribesKeeps(w: World, i: nat)
    requires Inv(w) && At(w, i, Announced) && w.consumers[i].kind == Attach
    ensures Inv(DoAttachSubscribes(w, i))
  {
    var w1 := ShutSubscriber(w);
    ShutKeepsInv(w);
    AllShut(w);
    ConsumerAt(w1, i);
    var c := w.consumers[i];
    var c' := Subscribed(c, |w.log|, if w.durable then Reading else Choosing);
    AttachSubscribed(w.log, w.birth, c, c'.pc);
    SubscribeLife(w1, i, c', DoAttachSubscribes(w, i));
    hide Inv, ConsumerOk, Increasing, LifeOk;
    ConsumerReplaced(w1, i, c', DoAttachSubscribes(w, i));
  }

  lemma StreamSubscribesKeeps(w: World, i: nat, op: LifeOp)
    requires Inv(w) && At(w, i, Announced) && w.consumers[i].kind == Stream && op.OpensTurn?
    ensures Inv(DoStreamSubscribes(w, i, op))
  {
    var w1 := ShutSubscriber(w);
    ShutKeepsInv(w);
    AllShut(w);
    var w2 := Written(w1, op);
    WrittenAllShut(w1, op);
    StreamStarts(w2, i, DoStreamSubscribes(w, i, op));
  }

  lemma StreamStarts(w: World, i: nat, w': World)
    requires Inv(w) && At(w, i, Announced) && w.consumers[i].kind == Stream
    requires forall j :: 0 <= j < |w.consumers| ==> w.consumers[j].chan.closed
    requires w' ==
      w.(subscriber := Some(i), timer := false, turn := true, aborted := false, consumers := w.consumers[i :=
      Subscribed(w.consumers[i], |w.log|, Live).(base := w.hist.seqNo, delivered := w.hist.seqNo)])
    ensures Inv(w')
  {
    var c' := w'.consumers[i];
    ConsumerAt(w, i);
    assert w.hist.seqNo == LastSeq(w.log);
    StreamSubscribed(w.log, w.birth, w.consumers[i]);
    SubscribeLife(w, i, c', w');
    hide Inv, ConsumerOk, Increasing, LifeOk;
    ConsumerReplaced(w, i, c', w');
  }

  // ---- Leaving ---------------------------------------------------------------------------------

  lemma AttachEndsLife(w: World, i: nat, c: Consumer)
    requires LifeOk(w) && i < |w.consumers| && w.consumers[i].kind.Attach? && c.kind.Attach?
    ensures LifeOk(AttachEnds(w, i, c))
  {
    var w' := AttachEnds(w, i, c);
    if w.busy {
      var j :| 0 <= j < |w.consumers| && Active(w.consumers[j]);
      assert Active(w'.consumers[j]);
    }
  }

  lemma CheckLiveKeeps(w: World, i: nat)
    requires Inv(w) && At(w, i, Marked)
    ensures Inv(DoCheckLive(w, i))
  {
    hide Inv, ConsumerOk, Increasing, LifeOk, LogOk, StoreOk, ConsumersOk;
    var c := w.consumers[i];
    ConsumerAt(w, i);
    Parts(w);
    ReaderKinds(w, i);
    if !w.busy || c.gone {
      MarkedIsIdle(w, i);
      ConsumerEnds(w.log, w.birth, c, false, Finished);
      assert c.(inflight := None, drained := false) == c;
      AttachEndsLife(w, i, c);
      ConsumerReplaced(w, i, Closed(c, Finished), DoCheckLive(w, i));
    } else {
      ConsumerJoins(w.log, w.birth, c);
      OneConsumer(w, i, c.(pc := Live));
    }
  }

  lemma MarkedIsIdle(w: World, i: nat)
    requires Inv(w) && At(w, i, Marked)
    ensures w.consumers[i].inflight == None && !w.consumers[i].drained
  {
    ConsumerAt(w, i);
    hide LogOk, StoreOk, LifeOk, Increasing, OutOk, HoleOk, TrackOk, SnapOk;
  }

  lemma HandleKeeps(w: World, i: nat)
    requires Inv(w) && At(w, i, Live) && w.consumers[i].inflight.Some?
    ensures Inv(DoHandle(w, i))
  {
    hide Inv, ConsumerOk, Increasing;
    var r, was := w.consumers[i].inflight.value, w.consumers[i];
    ConsumerAt(w, i);
    if r.End? || was.gone {
      HandleEnds(w, i);
    } else {
      var c := was.(inflight := None, drained := false);
      if was.kind.Attach? && r.value.seqNo <= was.delivered {
        ConsumerSkipsLive(w.log, w.birth, was);
        OneConsumer(w, i, c);
      } else {
        ConsumerYieldsLive(w.log, w.birth, was);
        OneConsumer(w, i, Yielded(c, r.value));
      }
    }
  }

  lemma HandleEnds(w: World, i: nat)
    requires Inv(w) && At(w, i, Live) && w.consumers[i].inflight.Some?
    requires w.consumers[i].inflight.value.End? || w.consumers[i].gone
    ensures Inv(DoHandle(w, i))
  {
    hide Inv, ConsumerOk, Increasing, LifeOk, LogOk, StoreOk, ConsumersOk;
    var r, was := w.consumers[i].inflight.value, w.consumers[i];
    ConsumerAt(w, i);
    Parts(w);
    var c := was.(inflight := None, drained := r.End?);
    ConsumerEnds(w.log, w.birth, was, r.End?, if was.kind.Stream? then Draining else Finished);
    if was.kind.Attach? {
      AttachEndsLife(w, i, c);
      ConsumerReplaced(w, i, Closed(c, Finished), DoHandle(w, i));
    } else {
      OneConsumer(w, i, Closed(c, Draining));
    }
  }

  lemma ClientGoneKeeps(w: World, i: nat)
    requires Inv(w) && Enabled(w, ClientGone(i))
    ensures Inv(DoClientGone(w, i))
  {
    hide Inv, ConsumerOk, Increasing, LifeOk, LogOk, StoreOk, ConsumersOk;
    var c := w.consumers[i].(gone := true);
    ConsumerAt(w, i);
    Parts(w);
    ConsumerGone(w.log, w.birth, w.consumers[i]);
    if c.listening && w.subscriber == Some(i) {
      ConsumerShut(w.log, w.birth, c, c.endAt);
      assert Shut(c).(endAt := c.endAt) == Shut(c);
      GoneLife(w, i, c);
      ConsumerReplaced(w, i, Shut(c), DoClientGone(w, i));
    } else {
      OneConsumer(w, i, c);
    }
  }

  lemma GoneLife(w: World, i: nat, c: Consumer)
    requires LifeOk(w) && w.subscriber == Some(i) && i < |w.consumers| && c == w.consumers[i].(gone := true)
    requires c.listening
    ensures LifeOk(DoClientGone(w, i))
  {
    LifeKept(w, i, Shut(c));
  }

  lemma TurnEndsKeeps(w: World)
    requires Inv(w) && w.turn
    ensures Inv(DoTurnEnds(w))
  {
    var w' := DoTurnEnds(w);
    TurnEndsLife(w);
    if w.subscriber.Some? {
      SubscriberOk(w);
      var i := w.subscriber.value;
      var c := w.consumers[i];
      var endAt := if c.chan.closed then c.endAt else Some(|w.log|);
      ConsumerShut(w.log, w.birth, c, endAt);
      hide Inv, ConsumerOk, Increasing, LifeOk;
      ConsumerReplaced(w, i, Shut(c).(endAt := endAt), w');
    } else {
      SameSession(w, w');
      hide LogOk, StoreOk, LifeOk, ConsumerOk, Increasing;
    }
  }

  lemma TurnEndsLife(w: World)
    requires LifeOk(w) && w.turn
    ensures LifeOk(DoTurnEnds(w))
  {
    var w' := DoTurnEnds(w);
    var j :| 0 <= j < |w.consumers| && Active(w.consumers[j]);
    assert Active(w'.consumers[j]);
  }

  lemma StreamReturnsKeeps(w: World, i: nat)
    requires Inv(w) && At(w, i, Draining) && !w.turn
    ensures Inv(Do(w, StreamReturns(i)))
  {
    hide Inv, ConsumerOk, Increasing, LifeOk, LogOk, StoreOk, ConsumersOk;
    var c' := Closed(w.consumers[i], Finished);
    ConsumerAt(w, i);
    Parts(w);
    ReaderKinds(w, i);
    StreamFinishes(w.log, w.birth, w.consumers[i]);
    FinishedIsClosed(w.consumers[i]);
    ReturnLife(w, i, c', Do(w, StreamReturns(i)));
    ConsumerReplaced(w, i, c', Do(w, StreamReturns(i)));
  }

  lemma FinishedIsClosed(c: Consumer)
    ensures Closed(c, Finished).chan.closed
  {
  }

  lemma ReturnLife(w: World, i: nat, c': Consumer, w': World)
    requires LifeOk(w) && i < |w.consumers| && Active(w.consumers[i]) && !w.turn
    requires c'.pc.Finished? && c'.chan.closed && c'.kind.Stream?
    requires w' == w.(busy := false, consumers := w.consumers[i := c'])
    ensures LifeOk(w')
  {
  }

  // ---- Beginnings ------------------------------------------------------------------------------

  lemma StoredIsSettled(t: Thread)
    requires ThreadOk(t)
    ensures var log := LoadEvents(t, 0);
      Increasing(log) && LastSeq(log) == t.lastSeq && SettledOk(log, |log|, t, {})
  {
    var log := LoadEvents(t, 0);
    LoadIsSortedRows(t, 0);
    ReadEndsAtLast(t, 0);
    assert log[..|log|] == log;
    forall i | 0 <= i < |log|
      ensures log[i].seqNo in t.rows && t.rows[log[i].seqNo] == log[i].event
    {
      assert log[i] in log;
    }
    forall s | s in t.rows
      ensures InLog(log, s)
    {
      assert Sequenced(t.rows[s], s) in log;
    }
  }

  /** A world nobody reads yet owes only what is said of session and store. */
  lemma StartHolds(w: World)
    requires LogOk(w) && StoreOk(w)
    requires w == Start(w.log, w.hist, w.durable, w.thread, w.birth.ringFrom)
    ensures Inv(w)
  {
    hide LogOk, StoreOk, Increasing, ConsumerOk;
  }

  lemma RebuiltHolds(t: Thread)
    requires ThreadOk(t)
    ensures Inv(Rebuilt(t))
  {
    RebuiltHist(t);
    StoredIsSettled(t);
    hide Increasing, SettledOk, LoadEvents, FromThread, FoldAll, ThreadOk, Inv;
    var w := Rebuilt(t);
    assert w.log[0..] == w.log && w.log[|w.log|..] == [];
    StartHolds(w);
  }

  lemma RebuiltHist(t: Thread)
    requires ThreadOk(t)
    ensures FromThread(t).seqNo == t.lastSeq && FromThread(t).ring == LastOf(LoadEvents(t, 0), EVENT_BUFFER_CAP)
  {
    FloorIsReached(t);
    RebuiltFromLog(FRESH, LoadEvents(t, 0));
  }

  lemma BoundHolds(t: Thread)
    requires ThreadOk(t)
    ensures Inv(Bound(t))
  {
    StoredIsSettled(t);
    hide Increasing, SettledOk, LoadEvents, ThreadOk, Inv;
    var w := Bound(t);
    assert w.log[|w.log|..] == [];
    StartHolds(w);
  }

  lemma InitialHolds(w: World)
    requires Initial(w)
    ensures Inv(w)
  {
    if w == MemoryOnly() {
      MemoryHolds();
    } else if w == Rebuilt(w.thread) {
      RebuiltHolds(w.thread);
    } else {
      BoundHolds(w.thread);
    }
    hide Inv, Rebuilt, Bound, MemoryOnly;
  }

  lemma MemoryHolds()
    ensures Inv(MemoryOnly())
  {
  }

  // ---- Every step, every run -------------------------------------------------------------------

  lemma ReadKeeps(w: World, i: nat)
    requires Inv(w) && At(w, i, Reading)
    ensures Inv(w.(consumers := w.consumers[i := RowsRead(w, w.consumers[i])]))
  {
    hide Inv, ConsumerOk, Increasing, LifeOk, LogOk, StoreOk, RowsRead;
    var c := w.consumers[i];
    ConsumerAt(w, i);
    Parts(w);
    ReaderKinds(w, i);
    ConsumerReads(w, c);
    ReadRole(w, c);
    OneConsumer(w, i, RowsRead(w, c));
  }

  lemma ReadFailsKeeps(w: World, i: nat)
    requires Inv(w) && At(w, i, Reading)
    ensures Inv(w.(consumers := w.consumers[i := w.consumers[i].(pc := Choosing)]))
  {
    hide Inv, ConsumerOk, Increasing;
    ConsumerAt(w, i);
    ReadFails(w.log, w.birth, w.consumers[i]);
    OneConsumer(w, i, w.consumers[i].(pc := Choosing));
  }

  lemma ReadRole(w: World, c: Consumer)
    requires c.pc.Reading?
    ensures SameRole(c, RowsRead(w, c))
  {
  }

  lemma ChooseKeeps(w: World, i: nat)
    requires Inv(w) && At(w, i, Choosing)
    ensures Inv(w.(consumers := w.consumers[i := Chosen(w, w.consumers[i])]))
  {
    hide Inv, ConsumerOk, Increasing, LifeOk, LogOk, StoreOk;
    var c := w.consumers[i];
    ConsumerAt(w, i);
    Parts(w);
    ReaderKinds(w, i);
    ConsumerChooses(w, c);
    OneConsumer(w, i, Chosen(w, c));
  }

  lemma ReplayNextKeeps(w: World, i: nat)
    requires Inv(w) && (At(w, i, Rows) || At(w, i, Ring))
    ensures Inv(w.(consumers := w.consumers[i := Replayed(w, w.consumers[i])]))
  {
    hide Inv, ConsumerOk, Increasing, LifeOk, LogOk, StoreOk;
    var c := w.consumers[i];
    ConsumerAt(w, i);
    Parts(w);
    ConsumerReplays(w, c);
    OneConsumer(w, i, Replayed(w, c));
  }

  lemma PullKeeps(w: World, i: nat)
    requires Inv(w) && Enabled(w, Pull(i))
    ensures Inv(w.(consumers := w.consumers[i := Pulled(w.consumers[i])]))
  {
    hide Inv, ConsumerOk, Increasing;
    var c := w.consumers[i];
    ConsumerAt(w, i);
    ConsumerPulled(w.log, w.birth, c);
    OneConsumer(w, i, Pulled(c));
  }

  lemma WriteKeeps(w: World, lands: bool)
    requires Inv(w) && w.chain != []
    ensures Inv(Settles(w, lands))
  {
    var w' := Settles(w, lands);
    Parts(w);
    WriteSettles(w, lands);
    hide StoreOk, ConsumerOk, Increasing, LifeOk, Stored;
    SameLife(w, w');
    assert LogOk(w');
    assert ConsumersOk(w');
  }

  lemma TimerKeeps(w: World)
    requires Inv(w) && w.timer
    ensures Inv(w.(timer := false, aborted := w.aborted || (w.busy && w.subscriber == None && w.turn)))
  {
    Parts(w);
    ConsumersAscend(w);
    hide Inv, LogOk, StoreOk, LifeOk, ConsumersOk, Increasing;
    var w' := w.(timer := false, aborted := w.aborted || (w.busy && w.subscriber == None && w.turn));
    TimerLife(w);
    SameSession(w, w');
    SameConsumers(w, w');
    InvOf(w');
  }

  lemma ConsumersAscend(w: World)
    requires Inv(w)
    ensures Increasing(w.log)
  {
    hide Increasing, StoreOk, LifeOk, ConsumersOk;
  }

  lemma InvOf(w: World)
    requires Increasing(w.log) && LogOk(w) && StoreOk(w) && ConsumersOk(w) && LifeOk(w)
    ensures Inv(w)
  {
    hide LogOk, StoreOk, ConsumersOk, LifeOk;
  }

  lemma TimerLife(w: World)
    requires LifeOk(w) && w.timer
    ensures LifeOk(w.(timer := false, aborted := w.aborted || (w.busy && w.subscriber == None && w.turn)))
  {
  }

  lemma SameConsumers(w: World, w': World)
    requires Increasing(w.log) && ConsumersOk(w)
    requires w'.log == w.log && w'.birth == w.birth && w'.consumers == w.consumers
    ensures ConsumersOk(w')
  {
    hide ConsumerOk, Increasing;
  }

  lemma CrashKeeps(w: World)
    requires Inv(w)
    ensures Inv(if w.durable then Rebuilt(w.thread) else MemoryOnly())
  {
    hide Inv, Rebuilt, MemoryOnly;
    Parts(w);
    MemoryHolds();
    RebuiltHolds(w.thread);
  }

  lemma StepKeeps(w: World, step: Step)
    requires Inv(w) && Enabled(w, step)
    ensures Inv(Do(w, step))
  {
    hide Inv;
    match step {
      case Emit(op) => EmitKeeps(w, op);
      case WriteLands => WriteKeeps(w, true);
      case WriteFails => WriteKeeps(w, false);
      case OpenStream => ConsumerJoinsScene(w, Stream, 0);
      case StreamSubscribes(i, op) => StreamSubscribesKeeps(w, i, op);
      case OpenAttach(lastSeq) => ConsumerJoinsScene(w, Attach, lastSeq);
      case AttachSubscribes(i) => AttachSubscribesKeeps(w, i);
      case DurableRead(i) => ReadKeeps(w, i);
      case DurableReadFails(i) => ReadFailsKeeps(w, i);
      case Choose(i) => ChooseKeeps(w, i);
      case ReplayNext(i) => ReplayNextKeeps(w, i);
      case CheckLive(i) => CheckLiveKeeps(w, i);
      case Pull(i) => PullKeeps(w, i);
      case Handle(i) => HandleKeeps(w, i);
      case ClientGone(i) => ClientGoneKeeps(w, i);
      case TurnEnds => TurnEndsKeeps(w);
      case StreamReturns(i) => StreamReturnsKeeps(w, i);
      case OrphanFires => TimerKeeps(w);
      case Crash => CrashKeeps(w);
    }
  }

  /** Whatever the interleaving of turns, clients, writes, timers and crashes, the invariant stands. */
  lemma {:induction false} EveryRunKeepsInv(w: World, steps: seq<Step>)
    requires Inv(w)
    ensures Inv(Run(w, steps))
  {
    hide Inv, Do, Enabled;
    if steps != [] {
      EveryRunKeepsInv(w, steps[..|steps| - 1]);
      var w' := Run(w, steps[..|steps| - 1]);
      if Enabled(w', steps[|steps| - 1]) {
        StepKeeps(w', steps[|steps| - 1]);
      }
    }
  }
}

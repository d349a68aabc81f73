/**
 What the replay protocol promises over whole runs: exactly-once delivery and precisely when it fails, completeness of
 a live turn, reconnecting at arbitrary points, snapshots with a tail, the session's life, and continuity across
 failed writes and crashes.
 */
module ReplayTheorems {
  import opened Protocol
  import opened Logs
  import opened SnapshotFold
  import opened EventChannels
  import opened Threads
  import opened Sessions
  import opened ReplayModel
  import opened ReplayInvariant
  import opened ReplayConsumers
  import opened ReplaySteps

  /** The states of all runs. */
  ghost predicate Reachable(w: World) {
    exists w0, steps :: Initial(w0) && w == Run(w0, steps)
  }

  lemma ReachableHolds(w: World)
    requires Reachable(w)
    ensures Inv(w) && Increasing(w.log)
  {
    hide Inv, Run, Increasing, Initial;
    var w0, steps :| Initial(w0) && w == Run(w0, steps);
    InitialHolds(w0);
    EveryRunKeepsInv(w0, steps);
    Parts(w);
  }

  // ---- Exactly-once replay ---------------------------------------------------------------------

  /**
   At every moment of every run, what a consumer has been sent is part of the log, strictly increasing and past its
   cursor, so nothing is repeated or reordered; and unless it jumped a lost row or a rolled ring it is the whole
   stretch of the log from its cursor on, with no hole.
   */
  lemma ExactlyOnce(w: World, i: nat)
    requires Reachable(w) && i < |w.consumers|
    ensures Increasing(w.log)
    ensures var c := w.consumers[i];
      && Increasing(c.out)
      && (forall k :: 0 <= k < |c.out| ==> c.out[k] in w.log && c.out[k].seqNo > c.base)
      && (!c.readLost && !c.rolled ==> c.out == Seg(w.log, c.base, c.delivered))
  {
    ReachableHolds(w);
    ConsumerAt(w, i);
    hide Inv, Reachable, ChanOk, HoleOk, SnapOk;
  }

  /** In a log without holes, that stretch is the numbers after the cursor, one by one. */
  lemma DeliveredNumbers(w: World, i: nat, k: nat)
    requires Reachable(w) && i < |w.consumers| && Consecutive(w.log)
    requires !w.consumers[i].readLost && !w.consumers[i].rolled
    requires k < |w.consumers[i].out|
    ensures w.consumers[i].out[k].seqNo == w.consumers[i].base + k + 1
  {
    ExactlyOnce(w, i);
    hide Reachable;
    var c := w.consumers[i];
    ConsecutiveUpTo(w.log, c.base);
    ConsecutiveUpTo(w.log, c.delivered);
  }

  /**
   Exactly when replay fails to be exactly-once: once its replay is through, an undropped consumer has a hole if and
   only if a failed write lay below the last row it read, or the ring, when it was copied, had rolled past events it was
   still to be sent.
   */
  lemma HoleExactlyWhen(w: World, i: nat)
    requires Reachable(w) && i < |w.consumers|
    requires !w.consumers[i].gone
    requires w.consumers[i].pc in {Marked, Live, Finished}
    ensures Increasing(w.log)
    ensures var c := w.consumers[i];
      c.out == Seg(w.log, c.base, c.delivered) <==> !c.readLost && !c.rolled
  {
    ReachableHolds(w);
    ConsumerAt(w, i);
    hide Inv, Reachable, ChanOk, SnapOk, OutOk, Seg;
  }

  /** The ring is the end of the session's log, at most 1000 entries of it, numbered consecutively up to the counter. */
  lemma RingIsLogsEnd(w: World)
    requires Reachable(w)
    ensures var ring, own := w.hist.ring, |w.log| - w.birth.ringFrom;
      && |ring| == (if own > 1000 then 1000 else own)
      && |ring| <= |w.log| && ring == w.log[|w.log| - |ring|..]
      && w.hist.seqNo == LastSeq(w.log)
      && (Consecutive(w.log) ==> forall j :: 0 <= j < |ring| ==> ring[j].seqNo == w.hist.seqNo - |ring| + 1 + j)
  {
    ReachableHolds(w);
    Parts(w);
    RingIsSuffix(w);
    hide Inv, Reachable, StoreOk, LifeOk, ConsumersOk, Increasing;
  }

  // ---- A live turn is delivered to its end -----------------------------------------------------

  /**
   A consumer that read its channel to the end, and whose channel the turn's end closed, was sent every event after
   its cursor up to the turn's last.
   */
  lemma TurnIsDelivered(w: World, i: nat, k: nat)
    requires Reachable(w) && i < |w.consumers| && Increasing(w.log)
    requires var c := w.consumers[i]; c.drained && !c.gone && !c.readLost && !c.rolled && c.endAt.Some?
    requires UpTo(w.log, w.consumers[i].base) <= k < w.consumers[i].endAt.value
    ensures k < |w.log| && w.log[k] in w.consumers[i].out
  {
    ReachableHolds(w);
    ConsumerAt(w, i);
    hide Inv, Reachable, ConsumerOk, Increasing;
    Delivered(w.log, w.birth, w.consumers[i], k);
  }

  lemma Delivered(log: seq<Sequenced>, b: Birth, c: Consumer, k: nat)
    requires Increasing(log) && ConsumerOk(log, b, c)
    requires c.drained && !c.gone && !c.readLost && !c.rolled && c.endAt.Some?
    requires UpTo(log, c.base) <= k < c.endAt.value
    ensures k < |log| && log[k] in c.out
  {
    hide OutOk, HoleOk, SnapOk, Increasing;
    var u := UpTo(log, c.base);
    assert c.out[k - u] == log[k];
  }

  /**
   An undropped attach that finds no turn running at its check ends there: it was sent what the log held when the ring
   was copied, and none of what came after.
   */
  lemma StopsAtTheCopy(w: World, i: nat)
    requires Reachable(w) && i < |w.consumers| && Increasing(w.log)
    requires var c := w.consumers[i];
      c.kind.Attach? && c.pc.Finished? && !c.drained && !c.gone && !c.readLost && !c.rolled
    ensures var c, u := w.consumers[i], UpTo(w.log, w.consumers[i].base);
      && c.mark <= |w.log|
      && c.out == if u <= c.mark then w.log[u..c.mark] else []
  {
    ReachableHolds(w);
    ConsumerAt(w, i);
    hide Inv, Reachable, HoleOk, SnapOk, Increasing;
    var c := w.consumers[i];
    OutAscends(w.log, w.birth.floor, c);
    if c.out == [] {
      assert c.delivered == c.base;
    }
  }

  // ---- Snapshot and tail -----------------------------------------------------------------------

  /**
   A client sent a snapshot folds the events that follow onto it: it holds at every moment the session's own snapshot
   as of the last event it was sent.
   */
  lemma SnapshotAndTail(w: World, i: nat)
    requires Reachable(w) && i < |w.consumers| && w.consumers[i].snap.Some? && Increasing(w.log)
    ensures var c, b := w.consumers[i], w.birth;
      var k := UpTo(w.log, c.delivered);
      && b.born <= k
      && FoldAll(c.snap.value, Events(c.out)) == LiveAll(b.snap0, Events(w.log[b.born..k]))
      && (k == |w.log| ==> FoldAll(c.snap.value, Events(c.out)) == w.hist.snap)
  {
    hide *;
    ReachableHolds(w);
    ConsumerAt(w, i);
    Parts(w);
    SnapshotOfLog(w);
    var c, b := w.consumers[i], w.birth;
    TailOfSnapshot(w.log, b, c);
    var k := UpTo(w.log, c.delivered);
    FoldedTail(w.log, b, c, k);
    assert k == |w.log| ==> w.log[b.born..k] == w.log[b.born..];
  }

  lemma SnapshotOfLog(w: World)
    requires LogOk(w)
    ensures w.birth.born <= |w.log| && w.hist.snap == LiveAll(w.birth.snap0, Events(w.log[w.birth.born..]))
  {
    hide Increasing, LiveAll, Events;
  }

  lemma TailOfSnapshot(log: seq<Sequenced>, b: Birth, c: Consumer)
    requires Increasing(log) && ConsumerOk(log, b, c) && c.snap.Some?
    ensures b.born <= c.mark <= UpTo(log, c.delivered) && c.out == log[c.mark..UpTo(log, c.delivered)]
    ensures c.snap.value == LiveAll(b.snap0, Events(log[b.born..c.mark])) && NoMessage(c.out)
  {
    OutAscends(log, b.floor, c);
    UpToMonotone(log, c.base, c.delivered);
    hide Increasing, OutOk, HoleOk, ChanOk;
  }

  lemma FoldedTail(log: seq<Sequenced>, b: Birth, c: Consumer, k: nat)
    requires b.born <= c.mark <= k <= |log| && c.out == log[c.mark..k] && NoMessage(c.out) && c.snap.Some?
    requires c.snap.value == LiveAll(b.snap0, Events(log[b.born..c.mark]))
    ensures FoldAll(c.snap.value, Events(c.out)) == LiveAll(b.snap0, Events(log[b.born..k]))
  {
    LiveIsFoldWithinTurn(c.snap.value, Events(c.out));
    EventsSplit(log, b.born, c.mark, k);
    FoldAllConcat(b.snap0, Events(log[b.born..c.mark]), Events(c.out));
  }

  lemma EventsSplit(log: seq<Sequenced>, a: nat, m: nat, k: nat)
    requires a <= m <= k <= |log|
    ensures Events(log[a..k]) == Events(log[a..m]) + Events(log[m..k])
  {
  }

  /** The ring still holds every event after this number. */
  ghost predicate RingHoldsTail(w: World, lastSeq: nat) {
    forall i :: 0 <= i < |w.log| && w.log[i].seqNo > lastSeq ==> w.log[i] in w.hist.ring
  }

  /**
   The test that chooses, for a client with a cursor, between tail and snapshot. A tail is chosen only when the ring
   still holds every event after that cursor, which it does exactly when no event lies between the cursor and the
   ring's oldest. So the test misses a tail exactly when numbers, but no events, lie between: never without holes.
   */
  lemma TailTestIsExact(w: World, lastSeq: nat)
    requires Reachable(w)
    ensures lastSeq + 1 >= OldestBuffered(w.hist) ==> RingHoldsTail(w, lastSeq)
    ensures RingHoldsTail(w, lastSeq) <==> !Between(w.log, lastSeq, OldestBuffered(w.hist))
    ensures Consecutive(w.log) ==> (lastSeq + 1 >= OldestBuffered(w.hist) <==> RingHoldsTail(w, lastSeq))
  {
    hide *;
    ReachableHolds(w);
    RingIsLogsEnd(w);
    TailTest(w, lastSeq);
  }

  lemma TailTest(w: World, lastSeq: nat)
    requires Increasing(w.log) && w.hist.seqNo == LastSeq(w.log)
    requires |w.hist.ring| <= |w.log| && w.hist.ring == w.log[|w.log| - |w.hist.ring|..]
    ensures lastSeq + 1 >= OldestBuffered(w.hist) ==> RingHoldsTail(w, lastSeq)
    ensures RingHoldsTail(w, lastSeq) <==> !Between(w.log, lastSeq, OldestBuffered(w.hist))
    ensures Consecutive(w.log) ==> (lastSeq + 1 >= OldestBuffered(w.hist) <==> RingHoldsTail(w, lastSeq))
  {
    OldestIsAt(w.log, w.hist);
    BetweenSuffix(w.log, |w.log| - |w.hist.ring|, lastSeq, OldestBuffered(w.hist));
    hide Increasing, Consecutive, OldestBuffered;
  }

  lemma OldestIsAt(log: seq<Sequenced>, h: Hist)
    requires Increasing(log) && |h.ring| <= |log| && h.ring == log[|log| - |h.ring|..] && h.seqNo == LastSeq(log)
    ensures var m := |log| - |h.ring|; OldestBuffered(h) == if m == |log| then LastSeq(log) + 1 else log[m].seqNo
  {
  }

  /** An end of a log holds all past a number exactly when nothing lies between that and the end's first. */
  lemma BetweenSuffix(log: seq<Sequenced>, m: nat, n: nat, first: nat)
    requires Increasing(log) && m <= |log| && first == if m == |log| then LastSeq(log) + 1 else log[m].seqNo
    ensures (forall i :: 0 <= i < |log| && log[i].seqNo > n ==> log[i] in log[m..]) <==> !Between(log, n, first)
    ensures Consecutive(log) ==> (Between(log, n, first) <==> n + 1 < first)
  {
    forall i | 0 <= i < |log|
      ensures log[i] in log[m..] <==> i >= m
      ensures log[i].seqNo < first <==> i < m
    {
      if i >= m {
        assert log[m..][i - m] == log[i];
      }
    }
    if Consecutive(log) && n + 1 < first {
      assert log[n].seqNo == n + 1;
    }
  }

  /** A thread that lost its first two writes, rebuilt: the ring holds all a client at 1 lacks, and the test says no. */
  lemma AHoleHidesATail(e: Event) returns (w: World)
    ensures Reachable(w) && w.log == w.hist.ring == [Sequenced(e, 3)]
    ensures RingHoldsTail(w, 1) && 1 + 1 < OldestBuffered(w.hist)
  {
    var t := NewThread("", None).(lastSeq := 3, rows := map[3 := e]);
    w := Rebuilt(t);
    assert Run(w, []) == w;
    assert RowsBetween(t.rows, 0, 0) == [] && RowsBetween(t.rows, 0, 1) == [] && RowsBetween(t.rows, 0, 2) == [];
    assert LoadEvents(t, 0) == [Sequenced(e, 3)];
    RingIsLogsEnd(w);
  }

  // ---- The session's life ----------------------------------------------------------------------

  /**
   A turn's end closes every channel, loses nothing in them, and leaves no subscriber, timer or abort behind; the reader
   it cuts off is told so where the log then ends.
   */
  lemma TurnEndLeavesNothing(w: World)
    requires Reachable(w) && w.turn
    ensures var w' := Do(w, TurnEnds);
      && !w'.turn && !w'.aborted && !w'.timer && w'.subscriber == None && w'.log == w.log
      && |w'.consumers| == |w.consumers|
      && (forall i :: 0 <= i < |w.consumers| ==>
            && w'.consumers[i].chan.closed && w'.consumers[i].chan.buffer == w.consumers[i].chan.buffer
            && w'.consumers[i].out == w.consumers[i].out)
      && (w.subscriber.Some? && w.subscriber.value < |w.consumers| ==>
            var c, c' := w.consumers[w.subscriber.value], w'.consumers[w.subscriber.value];
            && c'.endAt == (if c.chan.closed then c.endAt else Some(|w.log|))
            && c'.inflight == (if c.chan.waiter then Some(End) else c.inflight))
  {
    hide *;
    ReachableHolds(w);
    Parts(w);
    SubscriberAlone(w);
    EndClears(w);
    EndShuts(w);
  }

  lemma EndClears(w: World)
    requires w.turn
    ensures Do(w, TurnEnds) == DoTurnEnds(w)
    ensures var w' := DoTurnEnds(w);
      !w'.turn && !w'.aborted && !w'.timer && w'.subscriber == None && w'.log == w.log
        && |w'.consumers| == |w.consumers|
  {
    hide Shut;
  }

  lemma EndShuts(w: World)
    requires forall i :: 0 <= i < |w.consumers| && w.subscriber != Some(i) ==> w.consumers[i].chan.closed
    requires w.subscriber.Some? ==> w.subscriber.value < |w.consumers|
    ensures var w' := DoTurnEnds(w);
      |w'.consumers| == |w.consumers| && forall i :: 0 <= i < |w.consumers| ==>
        && w'.consumers[i].chan.closed && w'.consumers[i].chan.buffer == w.consumers[i].chan.buffer
        && w'.consumers[i].out == w.consumers[i].out
    ensures w.subscriber.Some? ==>
      var c, c' := w.consumers[w.subscriber.value], DoTurnEnds(w).consumers[w.subscriber.value];
      && c'.endAt == (if c.chan.closed then c.endAt else Some(|w.log|))
      && c'.inflight == (if c.chan.waiter then Some(End) else c.inflight)
  {
    if w.subscriber.Some? {
      ShutCloses(w.consumers[w.subscriber.value]);
    }
    hide Shut;
  }

  lemma ShutCloses(c: Consumer)
    ensures Shut(c).chan.closed && Shut(c).chan.buffer == c.chan.buffer && Shut(c).out == c.out
    ensures Shut(c).inflight == if c.chan.waiter then Some(End) else c.inflight
  {
  }

  lemma SubscriberAlone(w: World)
    requires LifeOk(w)
    ensures forall i :: 0 <= i < |w.consumers| && w.subscriber != Some(i) ==> w.consumers[i].chan.closed
    ensures w.subscriber.Some? ==> w.subscriber.value < |w.consumers|
  {
  }

  /**
   In every reachable state: the only open channel is the subscriber's; a subscriber and an armed orphan timer never
   coexist, so that no armed timer is overwritten; a session is busy exactly while one stream is under way; a turn runs
   only then, and none runs where one may start.
   */
  lemma SessionLife(w: World)
    requires Reachable(w)
    ensures forall i :: 0 <= i < |w.consumers| && !w.consumers[i].chan.closed ==> w.subscriber == Some(i)
    ensures w.timer ==> w.subscriber == None
    ensures w.busy <==> exists i :: 0 <= i < |w.consumers| && Active(w.consumers[i])
    ensures forall i, j | 0 <= i < |w.consumers| && 0 <= j < |w.consumers| ::
      Active(w.consumers[i]) && Active(w.consumers[j]) ==> i == j
    ensures w.turn ==> w.busy
    ensures forall i: nat :: At(w, i, Announced) && w.consumers[i].kind.Stream? ==> !w.turn && w.busy
  {
    ReachableHolds(w);
    hide Reachable, LogOk, StoreOk, ConsumersOk;
  }

  /** The orphan timer requests an abort only of a running turn that nobody is reading: no channel is open. */
  lemma OrphanAbortsUnread(w: World)
    requires Reachable(w) && w.timer && !w.aborted && Do(w, OrphanFires).aborted
    ensures w.turn && w.busy && forall i :: 0 <= i < |w.consumers| ==> w.consumers[i].chan.closed
  {
    ReachableHolds(w);
    hide Reachable, LogOk, StoreOk, ConsumersOk;
  }

  // ---- The durable log -------------------------------------------------------------------------

  /** With no failed write, the stored log is the full log less its queued tail. */
  lemma StoredIsPrefix(w: World)
    requires Reachable(w) && w.durable && w.lost == {}
    ensures |w.chain| <= |w.log| && LoadEvents(w.thread, 0) == w.log[..|w.log| - |w.chain|]
  {
    ReachableHolds(w);
    Parts(w);
    hide Inv, Reachable, LogOk, LifeOk, ConsumersOk;
    var log, t, settled := w.log, w.thread, |w.log| - |w.chain|;
    RowsAgainstLog(log, settled, t, {}, 0, t.lastSeq);
    UpToIs(log, 0, 0);
    LastStored(log, settled, t);
  }

  lemma LastStored(log: seq<Sequenced>, settled: nat, t: Thread)
    requires Increasing(log) && settled <= |log| && ThreadOk(t) && SettledOk(log, settled, t, {})
    ensures UpTo(log, t.lastSeq) == settled
  {
    if settled > 0 {
      assert log[settled - 1].seqNo in t.rows;
    }
    if t.lastSeq > 0 {
      assert InLog(log[..settled], t.lastSeq);
      var j :| 0 <= j < settled && log[..settled][j].seqNo == t.lastSeq;
      assert log[j].seqNo == t.lastSeq && j == settled - 1;
    }
    UpToIs(log, t.lastSeq, settled);
  }

  /** The next event's number is past every stored one, so no history is ever overwritten. */
  lemma NextIsBeyondStored(w: World, s: nat)
    requires Reachable(w) && s in w.thread.rows
    ensures s <= w.thread.lastSeq <= w.hist.seqNo
  {
    ReachableHolds(w);
    Parts(w);
    hide Inv, Reachable, LifeOk, ConsumersOk;
    if w.durable {
      var settled := |w.log| - |w.chain|;
      assert InLog(w.log[..settled], w.thread.lastSeq);
      var j :| 0 <= j < settled && w.log[..settled][j].seqNo == w.thread.lastSeq;
      assert w.log[j].seqNo == w.thread.lastSeq;
    }
  }

  /** A stored row stays, with its event, through every step: emits, failed writes, crashes. */
  lemma {:induction false} StoredStays(w: World, steps: seq<Step>, s: nat)
    requires Inv(w) && w.durable && s in w.thread.rows
    ensures var w' := Run(w, steps);
      w'.durable && w'.thread.lastSeq >= w.thread.lastSeq && s in w'.thread.rows
        && w'.thread.rows[s] == w.thread.rows[s]
  {
    if steps != [] {
      StoredStays(w, steps[..|steps| - 1], s);
      var w' := Run(w, steps[..|steps| - 1]);
      hide Inv;
      if Enabled(w', steps[|steps| - 1]) {
        StoredOneStep(w', steps[|steps| - 1], s);
      }
    }
  }

  lemma StoredOneStep(w: World, step: Step, s: nat)
    requires Enabled(w, step) && w.durable && s in w.thread.rows
    ensures var w' := Do(w, step);
      w'.durable && w'.thread.lastSeq >= w.thread.lastSeq && s in w'.thread.rows
        && w'.thread.rows[s] == w.thread.rows[s]
  {
    if !step.WriteLands? && !step.Crash? {
      ThreadUntouched(w, step);
    }
  }

  lemma ThreadUntouched(w: World, step: Step)
    requires Enabled(w, step) && !step.WriteLands? && !step.Crash?
    ensures Do(w, step).thread == w.thread && Do(w, step).durable == w.durable
  {
    hide DoEmit, DoStreamSubscribes, DoAttachSubscribes, DoCheckLive, DoHandle, DoClientGone, DoTurnEnds,
      RowsRead, Chosen, Replayed, Pulled, Closed, NewConsumer;
  }

  /**
   What a crash keeps: exactly the events whose write had landed, neither queued nor lost. So of the `n` events a client
   has seen, the last survives exactly when it was stored, and the next life hands that number out again, or a lower
   one, which this client will skip, exactly when nothing from it on was stored.
   */
  lemma CrashKeepsExactlyTheStored(w: World, n: nat)
    requires Reachable(w) && w.durable && 0 < n <= |w.log|
    ensures |w.chain| <= |w.log| && Increasing(Do(w, Crash).log)
    ensures var log', settled := Do(w, Crash).log, |w.log| - |w.chain|;
      && (forall k :: 0 <= k < |w.log| ==> (w.log[k] in log' <==> k < settled && w.log[k].seqNo !in w.lost))
      && (forall e :: e in log' ==> e in w.log)
      && (Do(w, Crash).hist.seqNo + 1 <= w.log[n - 1].seqNo <==>
            forall k :: n - 1 <= k < settled ==> w.log[k].seqNo in w.lost)
  {
    hide *;
    ReachableHolds(w);
    Parts(w);
    StoreFacts(w);
    RebuiltNumbers(w);
    StoredIsSettled(w.thread);
    SurvivorsOf(w.log, |w.log| - |w.chain|, w.thread, w.lost, n);
  }

  lemma StoreFacts(w: World)
    requires StoreOk(w) && w.durable
    ensures |w.chain| <= |w.log| && ThreadOk(w.thread) && SettledOk(w.log, |w.log| - |w.chain|, w.thread, w.lost)
  {
    hide ThreadOk, SettledOk;
  }

  lemma SurvivorsOf(log: seq<Sequenced>, settled: nat, t: Thread, lost: set<nat>, n: nat)
    requires Increasing(log) && settled <= |log| && ThreadOk(t) && SettledOk(log, settled, t, lost) && 0 < n <= |log|
    ensures var kept := LoadEvents(t, 0);
      && (forall k :: 0 <= k < |log| ==> (log[k] in kept <==> k < settled && log[k].seqNo !in lost))
      && (forall e :: e in kept ==> e in log)
      && (t.lastSeq + 1 <= log[n - 1].seqNo <==> forall k :: n - 1 <= k < settled ==> log[k].seqNo in lost)
  {
    LoadIsSortedRows(t, 0);
    RowsAreLogged(log, settled, t, lost, 0);
    forall k | 0 <= k < |log|
      ensures log[k] in LoadEvents(t, 0) <==> k < settled && log[k].seqNo !in lost
    {
      StoredExactlyWhen(log, settled, t, lost, k);
    }
    hide LoadEvents;
    LastStoredIs(log, settled, t, lost, n);
  }

  lemma StoredExactlyWhen(log: seq<Sequenced>, settled: nat, t: Thread, lost: set<nat>, k: nat)
    requires Increasing(log) && settled <= |log| && SettledOk(log, settled, t, lost) && k < |log|
    ensures log[k].seqNo in t.rows <==> k < settled && log[k].seqNo !in lost
    ensures log[k].seqNo in t.rows ==> t.rows[log[k].seqNo] == log[k].event
  {
    if log[k].seqNo in t.rows {
      assert InLog(log[..settled], log[k].seqNo);
      var j :| 0 <= j < settled && log[..settled][j].seqNo == log[k].seqNo;
      assert j == k;
    }
  }

  lemma LastStoredIs(log: seq<Sequenced>, settled: nat, t: Thread, lost: set<nat>, n: nat)
    requires Increasing(log) && settled <= |log| && ThreadOk(t) && SettledOk(log, settled, t, lost) && 0 < n <= |log|
    ensures t.lastSeq + 1 <= log[n - 1].seqNo <==> forall k :: n - 1 <= k < settled ==> log[k].seqNo in lost
  {
    if t.lastSeq > 0 {
      assert InLog(log[..settled], t.lastSeq);
      var j :| 0 <= j < settled && log[..settled][j].seqNo == t.lastSeq;
      assert log[j].seqNo == t.lastSeq;
      StoredExactlyWhen(log, settled, t, lost, j);
    }
    if k :| n - 1 <= k < settled && log[k].seqNo !in lost {
      StoredExactlyWhen(log, settled, t, lost, k);
      assert log[k].seqNo >= log[n - 1].seqNo;
    }
  }

  lemma RebuiltNumbers(w: World)
    requires Reachable(w) && w.durable
    ensures Do(w, Crash).log == LoadEvents(w.thread, 0)
    ensures Do(w, Crash).hist.seqNo == LastSeq(LoadEvents(w.thread, 0))
  {
    ReachableHolds(w);
    Parts(w);
    RebuiltEnds(w.thread);
    hide *;
    assert Do(w, Crash) == Rebuilt(w.thread) by { CrashRebuilds(w); }
    RebuiltIs(w.thread);
  }

  lemma CrashRebuilds(w: World)
    requires w.durable
    ensures Do(w, Crash) == Rebuilt(w.thread)
  {
    hide Rebuilt;
  }

  lemma RebuiltIs(t: Thread)
    ensures Rebuilt(t).log == LoadEvents(t, 0) && Rebuilt(t).hist == FromThread(t)
  {
    hide LoadEvents, FromThread;
  }

  lemma RebuiltEnds(t: Thread)
    requires ThreadOk(t)
    ensures FromThread(t).seqNo == LastSeq(LoadEvents(t, 0))
  {
    FloorIsReached(t);
    StoredIsSettled(t);
    hide LoadEvents, FromThread, SettledOk, Increasing, ThreadOk;
  }

  /**
   The next life starts with nobody connected, nothing armed and nothing queued, and remembers what the thread does:
   its rows are the log, with the ring their last 1000, the snapshot their fold, the draft the last applied document.
   Without a durable log it remembers nothing.
   */
  lemma TheNextLife(w: World)
    requires Reachable(w)
    ensures var w' := Do(w, Crash);
      && w'.consumers == [] && w'.subscriber == None && w'.chain == []
      && !w'.busy && !w'.turn && !w'.aborted && !w'.timer
      && w'.durable == w.durable && (w.durable ==> w'.thread == w.thread)
    ensures w.durable ==>
      var log, h := LoadEvents(w.thread, 0), Do(w, Crash).hist;
      && Do(w, Crash).log == log && h.seqNo == LastSeq(log)
      && |h.ring| == (if |log| > 1000 then 1000 else |log|) && h.ring == log[|log| - |h.ring|..]
      && h.snap == FoldAll(EMPTY_SNAPSHOT, Events(log))
      && h.draft == (var last := Last(Events(log), Drafts); if last >= 0 then Some(log[last].event.ir) else None)
    ensures !w.durable ==>
      var h := Do(w, Crash).hist;
      Do(w, Crash).log == [] && h.seqNo == 0 && h.ring == [] && h.snap == EMPTY_SNAPSHOT && h.draft == None
  {
    NobodyLeft(w);
    hide *;
    if w.durable {
      RebuiltNumbers(w);
      CrashRebuilds(w);
      RebuiltIs(w.thread);
      ThreadRemembers(w.thread);
    }
  }

  lemma NobodyLeft(w: World)
    ensures var w' := Do(w, Crash);
      && w'.consumers == [] && w'.subscriber == None && w'.chain == []
      && !w'.busy && !w'.turn && !w'.aborted && !w'.timer
      && w'.durable == w.durable && (w.durable ==> w'.thread == w.thread)
    ensures !w.durable ==>
      var h := Do(w, Crash).hist;
      Do(w, Crash).log == [] && h.seqNo == 0 && h.ring == [] && h.snap == EMPTY_SNAPSHOT && h.draft == None
  {
    hide LoadEvents, FromThread;
  }

  lemma ThreadRemembers(t: Thread)
    ensures var log, h := LoadEvents(t, 0), FromThread(t);
      && |h.ring| == (if |log| > 1000 then 1000 else |log|) && h.ring == log[|log| - |h.ring|..]
      && h.snap == FoldAll(EMPTY_SNAPSHOT, Events(log))
      && h.draft == (var last := Last(Events(log), Drafts); if last >= 0 then Some(log[last].event.ir) else None)
  {
    RebuiltFromLog(FRESH.(seqNo := t.lastSeq), LoadEvents(t, 0));
    hide LoadEvents, RehydratedAll, FoldAll, Last, Events;
  }
}

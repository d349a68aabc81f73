/**
 What the protocol gets done: an attach left alone reaches the end of the log, a live reader left alone catches up, a
 turn nobody returns to is aborted, and a message enters the log without reaching its own sender.
 */
module ReplayProgress {
  import opened Protocol
  import opened Logs
  import opened EventChannels
  import opened Threads
  import opened Sessions
  import opened ReplayModel
  import opened ReplayInvariant
  import opened ReplaySteps
  import opened ReplayTheorems
  import opened ReplayRuns

  /** Nothing has happened but to consumer `i`. */
  ghost predicate Only(w: World, w': World, i: nat, c: Consumer) {
    && i < |w.consumers|
    && w' == w.(consumers := w.consumers[i := c])
  }

  // ---- An attach left alone --------------------------------------------------------------------

  /** What a replay loop leaves: an empty list, the same session, no client lost. */
  ghost predicate RanThrough(w: World, w': World, i: nat, pc: Pc) {
    && i < |w.consumers| && |w'.consumers| == |w.consumers|
    && w' == w.(consumers := w'.consumers)
    && var c, c' := w.consumers[i], w'.consumers[i];
       c'.pc == pc && c'.todo == [] && !c'.gone && c'.kind == c.kind && c'.base == c.base && c'.readLost == c.readLost
       && c'.snap == c.snap
  }

  /** An iteration takes the next of the list, and changes nothing else but output and cursor. */
  lemma Iterates(w: World, c: Consumer)
    requires (c.pc.Rows? || c.pc.Ring?) && !c.gone && c.todo != []
    ensures var c' := Replayed(w, c);
      && c' == c.(todo := c.todo[1..], out := c'.out, delivered := c'.delivered)
      && c'.delivered == if c.todo[0].seqNo <= c.delivered then c.delivered else c.todo[0].seqNo
  {
  }

  lemma StaysInPlace(w: World, w1: World, i: nat)
    requires i < |w.consumers| && Only(w, w1, i, Replayed(w, w.consumers[i]))
    ensures |w1.consumers| == |w.consumers| && w1.consumers[i] == Replayed(w, w.consumers[i])
  {
    hide Replayed;
  }

  lemma RunsOn(w: World, w1: World, w': World, i: nat, pc: Pc)
    requires i < |w.consumers| && Only(w, w1, i, Replayed(w, w.consumers[i])) && RanThrough(w1, w', i, pc)
    requires var c, c1 := w.consumers[i], Replayed(w, w.consumers[i]);
      c1 == c.(todo := c1.todo, out := c1.out, delivered := c1.delivered)
    ensures RanThrough(w, w', i, pc)
  {
    hide Replayed;
  }

  lemma {:induction false} RowsRunThrough(w: World, i: nat) returns (w': World)
    requires Reachable(w) && At(w, i, Rows) && !w.consumers[i].gone
    ensures Reachable(w') && RanThrough(w, w', i, Rows)
    ensures w'.consumers[i].rolled == w.consumers[i].rolled
    ensures w'.consumers[i].delivered ==
      if w.consumers[i].todo == [] then w.consumers[i].delivered else LastSeq(w.consumers[i].todo)
    decreases |w.consumers[i].todo|
  {
    hide Reachable, Replayed;
    if w.consumers[i].todo == [] {
      w' := w;
    } else {
      RowsAscend(w, i);
      Iterates(w, w.consumers[i]);
      var w1 := ReplaysOnce(w, i);
      hide RanThrough, Only;
      StaysInPlace(w, w1, i);
      w' := RowsRunThrough(w1, i);
      RunsOn(w, w1, w', i, Rows);
    }
  }

  lemma RowsAscend(w: World, i: nat)
    requires Reachable(w) && At(w, i, Rows) && w.consumers[i].todo != []
    ensures w.consumers[i].todo[0].seqNo > w.consumers[i].delivered
  {
    ReachableHolds(w);
    ConsumerAt(w, i);
    hide Inv, Reachable, ChanOk, HoleOk, SnapOk, TrackOk, Increasing;
  }

  lemma {:induction false} RingRunsThrough(w: World, i: nat) returns (w': World)
    requires Reachable(w) && At(w, i, Ring) && !w.consumers[i].gone
    ensures Reachable(w') && RanThrough(w, w', i, Ring)
    ensures w'.consumers[i].rolled == w.consumers[i].rolled && w'.consumers[i].mark == w.consumers[i].mark
    decreases |w.consumers[i].todo|
  {
    hide Reachable, Replayed;
    if w.consumers[i].todo == [] {
      w' := w;
    } else {
      Iterates(w, w.consumers[i]);
      var w1 := ReplaysOnce(w, i);
      hide RanThrough, Only;
      StaysInPlace(w, w1, i);
      w' := RingRunsThrough(w1, i);
      RunsOn(w, w1, w', i, Ring);
    }
  }

  /** Every row between the client's cursor and the thread's last is there: no write between them was lost. */
  ghost predicate RowsWhole(w: World, i: nat)
    requires i < |w.consumers|
  {
    forall s :: s in w.lost ==> !(w.consumers[i].delivered < s < w.thread.lastSeq)
  }

  /** The ring still holds what the rows lack: nothing in the log lies between the last row and its oldest entry. */
  predicate RingReachesRows(w: World, i: nat)
    requires i < |w.consumers|
  {
    !Between(w.log, RowsEnd(w, i), OldestBuffered(w.hist))
  }

  /**
   A durable attach, left to itself from its subscription on, is sent everything after its cursor exactly when no write
   was lost between that and the thread's last, and the ring reaches back to the rows; and while the session is busy it
   joins the live turn.
   */
  lemma AttachDeliversEverything(w: World, i: nat) returns (w': World)
    requires Reachable(w) && At(w, i, Reading) && !w.consumers[i].gone
    ensures Reachable(w') && Increasing(w.log) && w'.log == w.log && w'.busy == w.busy
    ensures |w'.consumers| == |w.consumers|
    ensures var c := w'.consumers[i];
      c.pc == (if w.busy then Live else Finished) && c.base == w.consumers[i].base && c.snap == w.consumers[i].snap
    ensures w'.consumers[i].out == Seg(w.log, w'.consumers[i].base, LastSeq(w.log)) <==>
            RowsWhole(w, i) && RingReachesRows(w, i)
  {
    hide Reachable, LoadEvents, Increasing, RowsWhole, RingReachesRows;
    ReadStarts(w, i);
    var w1 := ReachesMarker(w, i);
    if !w1.consumers[i].readLost && !w1.consumers[i].rolled {
      MarkedHasAll(w1, i);
    } else {
      MarkedHasHole(w1, i);
    }
    w' := JoinsOrEnds(w1, i);
  }

  lemma ReachesMarker(w: World, i: nat) returns (w': World)
    requires Reachable(w) && At(w, i, Reading) && !w.consumers[i].gone
    ensures Reachable(w') && |w'.consumers| == |w.consumers| && w' == w.(consumers := w'.consumers)
    ensures var c, c' := w.consumers[i], w'.consumers[i];
      && c'.pc.Marked? && !c'.gone && c'.mark == |w.log| && c'.base == c.base && c'.kind == c.kind && c'.snap == c.snap
      && (c'.readLost <==> !RowsWhole(w, i))
      && (c'.rolled <==> !RingReachesRows(w, i))
  {
    hide Reachable, LoadEvents, OldestBuffered;
    ReadStarts(w, i);
    ReachableStep(w, DurableRead(i));
    var w1 := Do(w, DurableRead(i));
    w' := RowsRunThrough(w1, i);
    w' := ReplaysOnce(w', i);
    w' := RingRunsThrough(w', i);
    w' := ReplaysOnce(w', i);
  }

  /**
   An attach without a durable log, left to itself, is sent everything after its cursor if it has one and the ring
   reaches back to it, else one snapshot of the present; and while the session is busy it joins the live turn.
   */
  lemma MemoryAttachDeliversEverything(w: World, i: nat) returns (w': World)
    requires Reachable(w) && At(w, i, Choosing) && !w.consumers[i].gone
    ensures Reachable(w') && Increasing(w.log) && w'.log == w.log && w'.busy == w.busy
    ensures |w'.consumers| == |w.consumers|
    ensures var c, c' := w.consumers[i], w'.consumers[i];
      && c'.pc == (if w.busy then Live else Finished)
      && c'.out == Seg(w.log, c'.base, LastSeq(w.log))
      && if c.base > 0 && c.base + 1 >= OldestBuffered(w.hist) then c'.base == c.base && c'.snap == c.snap
         else c'.snap == Some(w.hist.snap) && c'.base == LastSeq(w.log) && c'.out == []
  {
    hide Reachable, Increasing, OldestBuffered, Seg;
    ChoosingStarts(w, i);
    var w1 := ChoosesAndMarks(w, i);
    MarkedHasAll(w1, i);
    NothingAfterTheEnd(w.log);
    w' := JoinsOrEnds(w1, i);
  }

  /** When its durable read fails, a durable attach is served as one without a durable log. */
  lemma AFailedReadFallsBack(w: World, i: nat) returns (w': World)
    requires Reachable(w) && At(w, i, Reading) && !w.consumers[i].gone
    ensures Reachable(w') && Increasing(w.log) && w'.log == w.log && w'.busy == w.busy
    ensures |w'.consumers| == |w.consumers|
    ensures var c, c' := w.consumers[i], w'.consumers[i];
      && c'.pc == (if w.busy then Live else Finished)
      && c'.out == Seg(w.log, c'.base, LastSeq(w.log))
      && if c.base > 0 && c.base + 1 >= OldestBuffered(w.hist) then c'.base == c.base && c'.snap == c.snap
         else c'.snap == Some(w.hist.snap) && c'.base == LastSeq(w.log) && c'.out == []
  {
    hide Reachable, Increasing, OldestBuffered, Seg;
    ReachableStep(w, DurableReadFails(i));
    w' := MemoryAttachDeliversEverything(Do(w, DurableReadFails(i)), i);
  }

  /** An attach that asks with a number and is left alone, from its very opening. */
  lemma AttachIsServed(w: World, n: nat) returns (w': World)
    requires Reachable(w)
    ensures Reachable(w') && Increasing(w.log) && w'.log == w.log && w'.busy == w.busy
    ensures |w'.consumers| == |w.consumers| + 1
    ensures var c := w'.consumers[|w.consumers|];
      && c.pc == (if w.busy then Live else Finished)
      && (w.durable ==>
            var rows := LoadEvents(w.thread, n);
            && c.base == n && c.snap.None?
            && (c.out == Seg(w.log, n, LastSeq(w.log)) <==>
                  && (forall s :: s in w.lost ==> !(n < s < w.thread.lastSeq))
                  && !Between(w.log, if rows == [] then n else LastSeq(rows), OldestBuffered(w.hist))))
      && (!w.durable ==>
            if n > 0 && n + 1 >= OldestBuffered(w.hist)
            then c.base == n && c.snap.None? && c.out == Seg(w.log, n, LastSeq(w.log))
            else c.snap == Some(w.hist.snap) && c.base == LastSeq(w.log) && c.out == [])
  {
    hide Reachable, Increasing, OldestBuffered, Seg, LoadEvents, Between;
    var i := |w.consumers|;
    var w1 := Subscribes(w, n);
    if w.durable {
      w' := AttachDeliversEverything(w1, i);
    } else {
      w' := MemoryAttachDeliversEverything(w1, i);
    }
  }

  lemma Subscribes(w: World, n: nat) returns (w': World)
    requires Reachable(w)
    ensures Reachable(w') && |w'.consumers| == |w.consumers| + 1
    ensures w'.log == w.log && w'.hist == w.hist && w'.busy == w.busy && w'.thread == w.thread && w'.lost == w.lost
    ensures w'.durable == w.durable
    ensures var c := w'.consumers[|w.consumers|];
      && c.pc == (if w.durable then Reading else Choosing) && !c.gone && c.base == n && c.delivered == n
      && c.snap == None
  {
    hide Reachable, AfterClose;
    ReachableStep(w, OpenAttach(n));
    w' := Do(w, OpenAttach(n));
    ReachableStep(w', AttachSubscribes(|w.consumers|));
    w' := Do(w', AttachSubscribes(|w.consumers|));
  }

  lemma ChoosesAndMarks(w: World, i: nat) returns (w': World)
    requires Reachable(w) && At(w, i, Choosing) && !w.consumers[i].gone
    requires var c := w.consumers[i]; c.delivered == c.base && !c.readLost && !c.rolled
    ensures Reachable(w') && w' == w.(consumers := w'.consumers) && |w'.consumers| == |w.consumers|
    ensures var c, c' := w.consumers[i], w'.consumers[i];
      && c'.pc.Marked? && !c'.gone && !c'.readLost && !c'.rolled && c'.mark == |w.log|
      && if c.base > 0 && c.base + 1 >= OldestBuffered(w.hist) then c'.base == c.base && c'.snap == c.snap
         else c'.snap == Some(w.hist.snap) && c'.base == w.hist.seqNo
  {
    hide Reachable, OldestBuffered, Chosen, Replayed;
    ReachableStep(w, Choose(i));
    var w1 := w.(consumers := w.consumers[i := Chosen(w, w.consumers[i])]);
    ChosenIs(w, w.consumers[i]);
    hide Do, Enabled;
    var w2 := RingRunsThrough(w1, i);
    w' := ReplaysOnce(w2, i);
    EndOfRing(w2, w2.consumers[i]);
  }

  lemma ChosenIs(w: World, c: Consumer)
    requires c.delivered == c.base
    ensures var c' := Chosen(w, c);
      && c'.pc.Ring? && c'.mark == |w.log| && c'.gone == c.gone && c'.readLost == c.readLost && c'.rolled == c.rolled
      && if c.base > 0 && c.base + 1 >= OldestBuffered(w.hist) then c'.base == c.base && c'.snap == c.snap
         else c'.snap == Some(w.hist.snap) && c'.base == w.hist.seqNo
  {
  }

  lemma EndOfRing(w: World, c: Consumer)
    requires c.pc.Ring? && c.todo == []
    ensures Replayed(w, c) == c.(pc := Marked)
  {
  }

  /** The busy check of a consumer whose client is there. */
  lemma JoinsOrEnds(w: World, i: nat) returns (w': World)
    requires Reachable(w) && At(w, i, Marked) && !w.consumers[i].gone
    ensures Reachable(w') && w'.log == w.log && w'.busy == w.busy && |w'.consumers| == |w.consumers|
    ensures var c, c' := w.consumers[i], w'.consumers[i];
      c'.pc == (if w.busy then Live else Finished) && c'.out == c.out && c'.base == c.base && c'.snap == c.snap
  {
    hide Reachable;
    ReachableStep(w, CheckLive(i));
    w' := Do(w, CheckLive(i));
  }

  lemma NothingAfterTheEnd(log: seq<Sequenced>)
    requires Increasing(log)
    ensures Seg(log, LastSeq(log), LastSeq(log)) == []
  {
  }

  /** A consumer that is choosing was sent nothing yet, and read nothing. */
  lemma ChoosingStarts(w: World, i: nat)
    requires Reachable(w) && At(w, i, Choosing)
    ensures Increasing(w.log) && w.hist.seqNo == LastSeq(w.log)
    ensures var c := w.consumers[i]; c.delivered == c.base && c.out == [] && !c.readLost && !c.rolled && c.snap == None
  {
    ReachableHolds(w);
    ConsumerAt(w, i);
    Parts(w);
    hide Inv, Reachable, ChanOk, TrackOk, Increasing;
  }

  /** The number the rows after a client's cursor end with. */
  function RowsEnd(w: World, i: nat): nat
    requires i < |w.consumers|
  {
    var rows := LoadEvents(w.thread, w.consumers[i].delivered);
    if rows == [] then w.consumers[i].delivered else LastSeq(rows)
  }

  /** A consumer that is reading was sent nothing yet. */
  lemma ReadStarts(w: World, i: nat)
    requires Reachable(w) && At(w, i, Reading)
    ensures Increasing(w.log) && w.consumers[i].out == [] && w.consumers[i].delivered == w.consumers[i].base
    ensures !w.consumers[i].rolled
  {
    ReachableHolds(w);
    ConsumerAt(w, i);
    hide Inv, Reachable, ChanOk, SnapOk, TrackOk, Increasing;
  }

  /** A whole replay of the present ends at the log's end. */
  lemma MarkedHasAll(w: World, i: nat)
    requires Reachable(w) && At(w, i, Marked) && w.consumers[i].mark == |w.log|
    requires var c := w.consumers[i]; !c.gone && !c.readLost && !c.rolled
    ensures Increasing(w.log) && w.consumers[i].out == Seg(w.log, w.consumers[i].base, LastSeq(w.log))
  {
    ReachableHolds(w);
    ConsumerAt(w, i);
    hide Inv, Reachable, ChanOk, SnapOk, HoleOk, Increasing;
    AllPast(w.log, w.birth.floor, w.consumers[i]);
  }

  /** One that jumped a lost row or a rolled ring does not. */
  lemma MarkedHasHole(w: World, i: nat)
    requires Reachable(w) && At(w, i, Marked) && !w.consumers[i].gone
    ensures Increasing(w.log)
    ensures w.consumers[i].readLost || w.consumers[i].rolled ==>
      w.consumers[i].out != Seg(w.log, w.consumers[i].base, LastSeq(w.log))
  {
    ReachableHolds(w);
    ConsumerAt(w, i);
    hide Inv, Reachable, ChanOk, SnapOk, TrackOk, OutOk, Increasing;
    SegIsLongest(w.log, w.consumers[i].base, w.consumers[i].delivered);
  }

  lemma SegIsLongest(log: seq<Sequenced>, a: nat, b: nat)
    requires Increasing(log)
    ensures |Seg(log, a, b)| <= |Seg(log, a, LastSeq(log))|
  {
    UpToEnd(log, LastSeq(log));
    hide Increasing;
  }

  lemma AllPast(log: seq<Sequenced>, floor: nat, c: Consumer)
    requires Increasing(log) && OutOk(log, floor, c) && Clean(log, c) && UpTo(log, c.delivered) == |log|
    ensures c.out == Seg(log, c.base, LastSeq(log))
  {
    UpToEnd(log, LastSeq(log));
    hide Increasing, OutOk;
  }

  // ---- A live reader left alone ----------------------------------------------------------------

  /** A live reader has been given the end only of a closed and empty channel, and waits only on an empty one. */
  lemma ReaderIsGiven(w: World, i: nat)
    requires Reachable(w) && At(w, i, Live)
    ensures w.consumers[i].inflight == Some(End) ==> w.consumers[i].chan.closed && w.consumers[i].chan.buffer == []
    ensures w.consumers[i].chan.waiter ==> w.consumers[i].chan.buffer == [] && !w.consumers[i].chan.closed
    ensures w.consumers[i].chan.waiter ==> w.consumers[i].inflight == None
    ensures w.consumers[i].endAt.Some? ==>
      w.consumers[i].endAt.value == w.consumers[i].pos + |w.consumers[i].chan.buffer|
  {
    ReachableHolds(w);
    ConsumerAt(w, i);
    hide Inv, Reachable, OutOk, HoleOk, SnapOk, TrackOk, Increasing;
  }

  lemma Handles(w: World, i: nat) returns (w': World)
    requires Reachable(w) && At(w, i, Live) && !w.consumers[i].gone
    requires w.consumers[i].inflight.Some? && w.consumers[i].inflight.value.Value?
    ensures Reachable(w') && Reads(w, w', i) && w'.consumers[i].inflight == None
    ensures w'.consumers[i].chan.buffer == w.consumers[i].chan.buffer
  {
    ReachableStep(w, Handle(i));
    hide Reachable;
    w' := Do(w, Handle(i));
    HandlesValue(w, i);
    hide Do, Enabled, DoHandle;
  }

  lemma HandlesValue(w: World, i: nat)
    requires At(w, i, Live) && !w.consumers[i].gone && w.consumers[i].inflight.Some?
    requires w.consumers[i].inflight.value.Value?
    ensures Do(w, Handle(i)) == DoHandle(w, i)
    ensures var w', c, c' := DoHandle(w, i), w.consumers[i], DoHandle(w, i).consumers[i];
      && w' == w.(consumers := w.consumers[i := c'])
      && c' == c.(inflight := None, drained := false, out := c'.out, delivered := c'.delivered)
  {
    hide AttachEnds, Closed;
  }

  lemma Pulls(w: World, i: nat) returns (w': World)
    requires Reachable(w) && At(w, i, Live) && !w.consumers[i].gone
    requires w.consumers[i].inflight == None && w.consumers[i].chan.buffer != []
    ensures Reachable(w') && Reads(w, w', i)
    ensures w'.consumers[i].chan.buffer == w.consumers[i].chan.buffer[1..]
    ensures w'.consumers[i].inflight.Some? && w'.consumers[i].inflight.value.Value?
  {
    ReaderIsGiven(w, i);
    ReachableStep(w, Pull(i));
    hide Reachable;
    w' := Do(w, Pull(i));
  }

  /** Consumer `i` read on; nothing else happened. */
  ghost predicate Reads(w: World, w': World, i: nat) {
    && i < |w.consumers| && |w'.consumers| == |w.consumers|
    && w' == w.(consumers := w'.consumers)
    && var c, c' := w.consumers[i], w'.consumers[i];
       && c'.pc.Live? && !c'.gone && c'.chan.closed == c.chan.closed
       && c'.pos + |c'.chan.buffer| == c.pos + |c.chan.buffer|
       && c'.base == c.base && c'.readLost == c.readLost && c'.rolled == c.rolled
  }

  lemma StillReads(w: World, w': World, i: nat)
    requires Reads(w, w', i)
    ensures At(w', i, Live) && !w'.consumers[i].gone
  {
  }

  lemma ReadsFurther(w: World, w1: World, w': World, i: nat)
    requires Reads(w, w1, i) && Reads(w1, w', i)
    ensures Reads(w, w', i)
  {
  }

  lemma ReadsNothing(w: World, i: nat)
    requires At(w, i, Live) && !w.consumers[i].gone
    ensures Reads(w, w, i)
  {
  }

  /** Every buffered event is taken and handled, one by one. */
  lemma {:induction false} ReadsOn(w: World, i: nat) returns (w': World)
    requires Reachable(w) && At(w, i, Live) && !w.consumers[i].gone && w.consumers[i].inflight != Some(End)
    ensures Reachable(w') && Reads(w, w', i)
    ensures w'.consumers[i].chan.buffer == [] && w'.consumers[i].inflight == None
    decreases |w.consumers[i].chan.buffer|, if w.consumers[i].inflight.Some? then 1 else 0
  {
    hide Reachable, Reads;
    var c := w.consumers[i];
    if c.inflight.Some? {
      var w1 := Handles(w, i);
      StillReads(w, w1, i);
      w' := ReadsOn(w1, i);
      ReadsFurther(w, w1, w', i);
    } else if c.chan.buffer != [] {
      var w1 := Pulls(w, i);
      StillReads(w, w1, i);
      w' := ReadsOn(w1, i);
      ReadsFurther(w, w1, w', i);
    } else {
      w' := w;
      ReadsNothing(w, i);
    }
  }

  /** A live consumer that reads on has been sent everything after its cursor, up to the log's end. */
  lemma LiveReaderCatchesUp(w: World, i: nat) returns (w': World)
    requires Reachable(w) && At(w, i, Live)
    requires var c := w.consumers[i]; !c.gone && !c.chan.closed && !c.readLost && !c.rolled
    ensures Reachable(w') && Increasing(w.log) && w'.log == w.log && |w'.consumers| == |w.consumers|
    ensures w'.consumers[i].out == Seg(w.log, w.consumers[i].base, LastSeq(w.log))
  {
    hide Reachable, Increasing, Seg;
    ReaderIsGiven(w, i);
    w' := ReadsOn(w, i);
    ReachableHolds(w');
    ReadOutHasAll(w', i);
  }

  lemma ReadOutHasAll(w: World, i: nat)
    requires Reachable(w) && At(w, i, Live) && Increasing(w.log)
    requires var c := w.consumers[i];
      !c.gone && !c.chan.closed && !c.readLost && !c.rolled && c.chan.buffer == [] && c.inflight == None
    ensures w.consumers[i].out == Seg(w.log, w.consumers[i].base, LastSeq(w.log))
  {
    ReachableHolds(w);
    ConsumerAt(w, i);
    hide Inv, Reachable, SnapOk, HoleOk, Increasing, OutOk, Clean;
    AllPast(w.log, w.birth.floor, w.consumers[i]);
  }

  /**
   A live consumer whose channel has closed and that reads on comes to its end, sent everything after its cursor up to
   where its channel closed: the turn's end, if that closed it.
   */
  lemma ClosedReaderFinishes(w: World, i: nat) returns (w': World)
    requires Reachable(w) && At(w, i, Live)
    requires var c := w.consumers[i]; !c.gone && c.chan.closed && !c.readLost && !c.rolled
    ensures Reachable(w') && Increasing(w.log) && w'.log == w.log && |w'.consumers| == |w.consumers|
    ensures var c, c' := w.consumers[i], w'.consumers[i];
      && c'.drained && c'.base == c.base && c'.out == Seg(w.log, c.base, c'.delivered)
      && c.pos + |c.chan.buffer| <= UpTo(w.log, c'.delivered)
      && (c.endAt.Some? ==> c.endAt.value == c.pos + |c.chan.buffer|)
  {
    hide Reachable, Increasing, Seg, UpTo;
    ReaderIsGiven(w, i);
    var w1 := w;
    if w.consumers[i].inflight != Some(End) {
      w1 := ReadsOn(w, i);
    }
    w' := IsToldTheEnd(w1, i);
    DrainedHasAll(w', i);
  }

  lemma IsToldTheEnd(w: World, i: nat) returns (w': World)
    requires Reachable(w) && At(w, i, Live) && !w.consumers[i].gone
    requires w.consumers[i].chan.closed && w.consumers[i].chan.buffer == []
    requires w.consumers[i].inflight.None? || w.consumers[i].inflight == Some(End)
    ensures Reachable(w') && w'.log == w.log && |w'.consumers| == |w.consumers|
    ensures var c, c' := w.consumers[i], w'.consumers[i];
      && c'.drained && !c'.gone && c'.pos == c.pos && c'.base == c.base
      && c'.readLost == c.readLost && c'.rolled == c.rolled
  {
    hide Reachable;
    if w.consumers[i].inflight.None? {
      ReaderIsGiven(w, i);
      ReachableStep(w, Pull(i));
      w' := Do(w, Pull(i));
      w' := HandlesEnd(w', i);
    } else {
      w' := HandlesEnd(w, i);
    }
  }

  lemma HandlesEnd(w: World, i: nat) returns (w': World)
    requires Reachable(w) && At(w, i, Live) && !w.consumers[i].gone && w.consumers[i].inflight == Some(End)
    ensures Reachable(w') && w'.log == w.log && |w'.consumers| == |w.consumers|
    ensures var c, c' := w.consumers[i], w'.consumers[i];
      && c'.drained && !c'.gone && c'.pos == c.pos && c'.base == c.base
      && c'.readLost == c.readLost && c'.rolled == c.rolled
  {
    ReachableStep(w, Handle(i));
    w' := Do(w, Handle(i));
    EndHandled(w, i);
    hide *;
  }

  lemma EndHandled(w: World, i: nat)
    requires At(w, i, Live) && w.consumers[i].inflight == Some(End)
    ensures var w' := Do(w, Handle(i));
      && w'.log == w.log && |w'.consumers| == |w.consumers|
      && var c, c' := w.consumers[i], w'.consumers[i];
         && c'.drained && c'.gone == c.gone && c'.pos == c.pos && c'.base == c.base
         && c'.readLost == c.readLost && c'.rolled == c.rolled
  {
    HandlingTheEnd(w, i);
    hide *;
    var c := w.consumers[i].(inflight := None, drained := true);
    ClosedKeeps(c, Finished);
    ClosedKeeps(c, Draining);
  }

  lemma HandlingTheEnd(w: World, i: nat)
    requires At(w, i, Live) && w.consumers[i].inflight == Some(End)
    ensures var w', c := Do(w, Handle(i)), w.consumers[i].(inflight := None, drained := true);
      && w'.log == w.log && |w'.consumers| == |w.consumers|
      && w'.consumers[i] == Closed(c, if c.kind == Attach then Finished else Draining)
  {
    hide Closed, Yielded;
  }

  lemma ClosedKeeps(c: Consumer, pc: Pc)
    ensures Closed(c, pc) == c.(pc := pc, chan := Closed(c, pc).chan, listening := Closed(c, pc).listening)
  {
  }

  lemma DrainedHasAll(w: World, i: nat)
    requires Reachable(w) && i < |w.consumers|
    requires var c := w.consumers[i]; c.drained && !c.gone && !c.readLost && !c.rolled
    ensures Increasing(w.log)
    ensures var c := w.consumers[i]; c.out == Seg(w.log, c.base, c.delivered) && c.pos <= UpTo(w.log, c.delivered)
  {
    ReachableHolds(w);
    ConsumerAt(w, i);
    hide Inv, Reachable, SnapOk, HoleOk, Increasing, OutOk, Seg, UpTo;
  }

  // ---- A turn nobody returns to ----------------------------------------------------------------

  /** Whatever happens but a new consumer, the turn's end, the timer itself or a crash. */
  predicate Silent(step: Step) {
    !step.StreamSubscribes? && !step.AttachSubscribes? && !step.TurnEnds? && !step.OrphanFires? && !step.Crash?
  }

  lemma TimerStays(w: World, step: Step)
    requires Enabled(w, step) && Silent(step) && w.timer && w.turn && w.busy && w.subscriber == None
    ensures var w' := Do(w, step); w'.timer && w'.turn && w'.busy && w'.subscriber == None
  {
    hide RowsRead, Chosen, Replayed, Pulled, Pushed, Shut, Closed, Yielded, Lived, EventOf, Stored, NewConsumer;
  }

  lemma {:induction false} SilenceAborts(w: World, steps: seq<Step>)
    requires Reachable(w) && w.timer && w.turn
    requires forall k :: 0 <= k < |steps| ==> Silent(steps[k])
    ensures var w' := Run(w, steps);
      && Reachable(w') && w'.timer && w'.turn && w'.busy && w'.subscriber == None
      && Do(w', OrphanFires).aborted
  {
    hide Reachable, Do, Enabled, Silent;
    if steps == [] {
      SessionLife(w);
    } else {
      SilenceAborts(w, steps[..|steps| - 1]);
      var w', step := Run(w, steps[..|steps| - 1]), steps[|steps| - 1];
      if Enabled(w', step) {
        TimerStays(w', step);
        ReachableStep(w', step);
      }
    }
    FiringAborts(Run(w, steps));
  }

  lemma FiringAborts(w: World)
    requires w.timer && w.turn && w.busy && w.subscriber == None
    ensures Do(w, OrphanFires).aborted
  {
  }

  // ---- An event and its reader -----------------------------------------------------------------

  /**
   An emitted event joins the log, the queue of writes and the subscriber's open channel, which hands it to a waiting
   reader, buffers it, or, full, closes without it; no other consumer hears of it.
   */
  lemma AnEventIsForwarded(w: World, op: LifeOp)
    requires Reachable(w) && Enabled(w, Emit(op))
    ensures var w', s := Do(w, Emit(op)), Sequenced(EventOf(op), LastSeq(w.log) + 1);
      && w'.log == w.log + [s] && w'.chain == (if w.durable then w.chain + [s] else [])
      && w'.subscriber == w.subscriber && w'.timer == w.timer && |w'.consumers| == |w.consumers|
      && forall i :: 0 <= i < |w.consumers| ==>
           if w.subscriber == Some(i) then Hands(w.consumers[i], s, w'.consumers[i])
           else w'.consumers[i] == w.consumers[i]
  {
    hide *;
    ReachableHolds(w);
    Parts(w);
    CountsFrom(w);
    EmitIs(w, op);
    Forwards(w, op);
    var s := Sequenced(EventOf(op), LastSeq(w.log) + 1);
    forall i | 0 <= i < |w.consumers|
      ensures Hands(w.consumers[i], s, Pushed(w.consumers[i], s))
    {
      PushHands(w.consumers[i], s);
    }
  }

  lemma EmitIs(w: World, op: LifeOp)
    requires Enabled(w, Emit(op))
    ensures Do(w, Emit(op)) == DoEmit(w, op)
  {
    hide DoEmit, Enabled;
  }

  /** What a channel does with an event, closed, read, with room or full. */
  predicate Hands(c: Consumer, s: Sequenced, c': Consumer) {
    && c'.out == c.out
    && (c.chan.closed ==> c' == c)
    && (!c.chan.closed && c.chan.waiter ==>
          c'.inflight == Some(Value(s)) && c'.chan == c.chan.(waiter := false) && c'.pos == c.pos + 1)
    && (!c.chan.closed && !c.chan.waiter ==>
          && c'.inflight == c.inflight && c'.pos == c.pos
          && c'.chan == if |c.chan.buffer| < 10_000 then c.chan.(buffer := c.chan.buffer + [s])
                        else c.chan.(closed := true))
  }

  lemma PushHands(c: Consumer, s: Sequenced)
    ensures Hands(c, s, Pushed(c, s))
  {
  }

  lemma CountsFrom(w: World)
    requires LogOk(w) && StoreOk(w)
    ensures w.hist.seqNo == LastSeq(w.log) && (!w.durable ==> w.chain == [])
  {
    hide Increasing, SettledOk, ThreadOk;
  }

  lemma Forwards(w: World, op: LifeOp)
    requires !w.durable ==> w.chain == []
    ensures var w', s := DoEmit(w, op), Sequenced(EventOf(op), w.hist.seqNo + 1);
      && w'.log == w.log + [s] && w'.chain == (if w.durable then w.chain + [s] else [])
      && w'.subscriber == w.subscriber && w'.timer == w.timer && |w'.consumers| == |w.consumers|
      && forall i :: 0 <= i < |w.consumers| ==>
           w'.consumers[i] == if w.subscriber == Some(i) then Pushed(w.consumers[i], s) else w.consumers[i]
  {
    hide Lived, EventOf, Pushed;
  }

  // ---- A message and its sender ----------------------------------------------------------------

  /**
   A turn's opening message joins the log, and no channel: its sender starts past it, every other reader is told the
   end.
   */
  lemma MessageIsNotEchoed(w: World, i: nat, op: LifeOp)
    requires Reachable(w) && Enabled(w, StreamSubscribes(i, op))
    ensures var w' := Do(w, StreamSubscribes(i, op));
      && w'.log == w.log + [Sequenced(EventOf(op), w.hist.seqNo + 1)]
      && w'.subscriber == Some(i) && w'.turn && !w'.timer
      && w'.consumers[i].base == w.hist.seqNo + 1 && w'.consumers[i].out == []
      && w'.consumers[i].chan == Chan([], false, false)
      && forall j :: 0 <= j < |w.consumers| && j != i ==>
           w'.consumers[j].chan.closed && w'.consumers[j].chan.buffer == w.consumers[j].chan.buffer
             && w'.consumers[j].out == w.consumers[j].out
  {
    ReachableHolds(w);
    StreamHasNothing(w, i);
    AllShut(w);
    ShutTouchesNothing(w);
    hide Inv, Reachable, Lived, EventOf, ShutSubscriber;
  }

  lemma ShutTouchesNothing(w: World)
    ensures var w' := ShutSubscriber(w);
      && |w'.consumers| == |w.consumers| && w' == w.(consumers := w'.consumers)
      && forall j :: 0 <= j < |w.consumers| ==>
           w'.consumers[j].chan.buffer == w.consumers[j].chan.buffer && w'.consumers[j].out == w.consumers[j].out
  {
  }

  lemma StreamHasNothing(w: World, i: nat)
    requires Inv(w) && At(w, i, Announced)
    ensures w.consumers[i].out == []
  {
    ConsumerAt(w, i);
    hide LogOk, StoreOk, LifeOk, ConsumersOk, ChanOk, HoleOk, TrackOk, SnapOk;
  }
}

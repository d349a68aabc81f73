/** One consumer's invariant through every step that touches it. */
module ReplayConsumers {
  import opened Protocol
  import opened Logs
  import opened Threads
  import opened Sessions
  import opened ReplayModel
  import opened ReplayInvariant

  // ---- The log grows ---------------------------------------------------------------------------

  lemma ChanGrows(log: seq<Sequenced>, s: Sequenced, c: Consumer)
    requires ChanOk(log, c) && c.chan.closed
    ensures ChanOk(log + [s], c)
  {
  }

  lemma OutGrows(log: seq<Sequenced>, s: Sequenced, floor: nat, c: Consumer)
    requires OutOk(log, floor, c) && s.seqNo > LastSeq(log)
    ensures OutOk(log + [s], floor, c)
  {
  }

  lemma CleanGrows(log: seq<Sequenced>, s: Sequenced, floor: nat, c: Consumer)
    requires Increasing(log) && s.seqNo > LastSeq(log) && OutOk(log, floor, c)
    ensures Increasing(log + [s]) && Seg(log + [s], c.base, c.delivered) == Seg(log, c.base, c.delivered)
  {
    IncreasingGrows(log, s);
    if c.out != [] {
      assert LastSeq(c.out) >= c.out[0].seqNo;
    }
    SegStable(log, s, c.base, c.delivered);
  }

  lemma CursorGrows(log: seq<Sequenced>, s: Sequenced, c: Consumer, k: nat, k': nat)
    requires CursorAt(log, c, k)
    requires k' == k || (k == |log| && k' == |log| + 1 && c.kind.Attach? && c.out == [])
    ensures CursorAt(log + [s], c, k')
  {
  }

  lemma TrackGrows(log: seq<Sequenced>, s: Sequenced, floor: nat, c: Consumer)
    requires Increasing(log) && s.seqNo > LastSeq(log)
    requires OutOk(log, floor, c) && TrackOk(log, c)
    ensures Increasing(log + [s]) && TrackOk(log + [s], c)
  {
    CleanGrows(log, s, floor, c);
    UpToGrows(log, s, c.delivered);
    UpToEnd(log, c.delivered);
    UpToEnd(log + [s], c.delivered);
    if !c.readLost && !c.rolled {
      if !c.kind.Stream? || !c.pc.Announced? {
        CursorGrows(log, s, c, UpTo(log, c.delivered), UpTo(log + [s], c.delivered));
      }
    }
  }

  lemma HoleGrows(log: seq<Sequenced>, s: Sequenced, floor: nat, c: Consumer)
    requires Increasing(log) && s.seqNo > LastSeq(log)
    requires OutOk(log, floor, c) && HoleOk(log, c)
    ensures Increasing(log + [s]) && HoleOk(log + [s], c)
  {
    CleanGrows(log, s, floor, c);
    assert forall i :: 0 <= i < |log| ==> (log + [s])[i] == log[i];
    if c.readLost && !c.gone && c.pc.Rows? {
      ReadStretch(log, s, c.base, LastSeq(c.read));
    }
    hide OutOk, UpTo, Increasing, Seg;
  }

  lemma ReadStretch(log: seq<Sequenced>, s: Sequenced, a: nat, b: nat)
    requires Increasing(log) && s.seqNo > LastSeq(log) && b <= LastSeq(log) && Seg(log, a, b) != []
    ensures Increasing(log + [s]) && Seg(log + [s], a, b) == Seg(log, a, b)
  {
    if b <= a {
      UpToMonotone(log, b, a);
    }
    SegStable(log, s, a, b);
  }

  lemma SnapGrows(log: seq<Sequenced>, s: Sequenced, b: Birth, c: Consumer)
    requires Increasing(log) && s.seqNo > LastSeq(log) && SnapOk(log, b, c)
    ensures Increasing(log + [s]) && SnapOk(log + [s], b, c)
  {
    IncreasingGrows(log, s);
    UpToGrows(log, s, c.base);
    if c.snap.Some? {
      assert (log + [s])[b.born..c.mark] == log[b.born..c.mark];
    }
  }

  /** A consumer whose channel is closed is indifferent to new events. */
  lemma ConsumerGrows(log: seq<Sequenced>, s: Sequenced, b: Birth, c: Consumer)
    requires Increasing(log) && s.seqNo > LastSeq(log)
    requires ConsumerOk(log, b, c) && c.chan.closed
    ensures Increasing(log + [s]) && ConsumerOk(log + [s], b, c)
  {
    ChanGrows(log, s, c);
    OutGrows(log, s, b.floor, c);
    TrackGrows(log, s, b.floor, c);
    HoleGrows(log, s, b.floor, c);
    SnapGrows(log, s, b, c);
  }

  // ---- The channel is pushed, shut, read -------------------------------------------------------

  /** The subscriber after an emit: its channel, if open, now reaches to the new end of the log. */
  lemma ConsumerPushed(log: seq<Sequenced>, s: Sequenced, b: Birth, c: Consumer)
    requires Increasing(log) && s.seqNo > LastSeq(log) && !s.event.UserMessage?
    requires ConsumerOk(log, b, c)
    ensures Increasing(log + [s]) && ConsumerOk(log + [s], b, Pushed(c, s))
  {
    OutGrows(log, s, b.floor, c);
    TrackGrows(log, s, b.floor, c);
    HoleGrows(log, s, b.floor, c);
    SnapGrows(log, s, b, c);
    PushedChan(log, s, c);
    hide OutOk, TrackOk, HoleOk, Increasing, Seg, UpTo, CursorAt, ChanOk;
    ChannelStep(log + [s], b, c, Pushed(c, s));
  }

  lemma PushedChan(log: seq<Sequenced>, s: Sequenced, c: Consumer)
    requires ChanOk(log, c) && NoMessage(c.chan.buffer) && !s.event.UserMessage?
    requires c.inflight.Some? && c.inflight.value.Value? ==> !c.inflight.value.value.event.UserMessage?
    ensures var c' := Pushed(c, s);
      && ChanOk(log + [s], c') && NoMessage(c'.chan.buffer)
      && (c'.inflight.Some? && c'.inflight.value.Value? ==> !c'.inflight.value.value.event.UserMessage?)
      && (forall k :: CursorAt(log + [s], c, k) ==> CursorAt(log + [s], c', k))
  {
    if !c.chan.closed {
      assert (log + [s])[c.pos..|log| + 1] == log[c.pos..] + [s];
    }
    PushedCursor(log, s, c);
    hide CursorAt;
  }

  lemma PushedCursor(log: seq<Sequenced>, s: Sequenced, c: Consumer)
    requires ChanOk(log, c)
    ensures forall k :: CursorAt(log + [s], c, k) ==> CursorAt(log + [s], Pushed(c, s), k)
  {
  }

  /** A step that touches only a consumer's channel owes only what is said of channels. */
  lemma ChannelStep(log: seq<Sequenced>, b: Birth, c: Consumer, c': Consumer)
    requires Increasing(log) && OutOk(log, b.floor, c) && TrackOk(log, c) && HoleOk(log, c) && SnapOk(log, b, c)
    requires c' == c.(chan := c'.chan, inflight := c'.inflight, pos := c'.pos, endAt := c'.endAt)
    requires ChanOk(log, c') && NoMessage(c'.chan.buffer)
    requires c'.inflight.Some? && c'.inflight.value.Value? ==> !c'.inflight.value.value.event.UserMessage?
    requires forall k :: CursorAt(log, c, k) ==> CursorAt(log, c', k)
    ensures ConsumerOk(log, b, c')
  {
    hide Increasing, Seg, UpTo, CursorAt, ChanOk;
  }

  lemma ConsumerShut(log: seq<Sequenced>, b: Birth, c: Consumer, endAt: Option<nat>)
    requires Increasing(log) && ConsumerOk(log, b, c)
    requires endAt == c.endAt || (!c.chan.closed && endAt == Some(|log|))
    ensures ConsumerOk(log, b, Shut(c).(endAt := endAt))
  {
    hide Increasing, Seg, UpTo, CursorAt;
    ShutChan(log, c, endAt);
    ChannelStep(log, b, c, Shut(c).(endAt := endAt));
  }

  lemma ShutChan(log: seq<Sequenced>, c: Consumer, endAt: Option<nat>)
    requires ChanOk(log, c)
    requires endAt == c.endAt || (!c.chan.closed && endAt == Some(|log|))
    ensures var c' := Shut(c).(endAt := endAt);
      ChanOk(log, c') && c'.chan.buffer == c.chan.buffer && forall k :: CursorAt(log, c, k) ==> CursorAt(log, c', k)
  {
  }

  lemma ConsumerPulled(log: seq<Sequenced>, b: Birth, c: Consumer)
    requires Increasing(log) && ConsumerOk(log, b, c)
    requires c.pc.Live? && c.inflight == None && !c.chan.waiter
    ensures ConsumerOk(log, b, Pulled(c))
  {
    hide Increasing, Seg, UpTo, CursorAt;
    PulledChan(log, c);
    ChannelStep(log, b, c, Pulled(c));
  }

  lemma PulledChan(log: seq<Sequenced>, c: Consumer)
    requires ChanOk(log, c) && c.pc.Live? && c.inflight == None && !c.chan.waiter && NoMessage(c.chan.buffer)
    ensures var c' := Pulled(c);
      && NoMessage(c'.chan.buffer)
      && (c'.inflight.Some? && c'.inflight.value.Value? ==> !c'.inflight.value.value.event.UserMessage?)
      && c' == c.(chan := c'.chan, inflight := c'.inflight, pos := c'.pos)
    ensures ChanOk(log, Pulled(c)) && forall k :: CursorAt(log, c, k) ==> CursorAt(log, Pulled(c), k)
  {
    if c.chan.buffer != [] {
      assert c.chan.buffer[1..] == log[c.pos + 1..c.pos + |c.chan.buffer|];
    }
  }

  lemma ConsumerGone(log: seq<Sequenced>, b: Birth, c: Consumer)
    requires Increasing(log) && ConsumerOk(log, b, c)
    ensures ConsumerOk(log, b, c.(gone := true))
  {
    hide Increasing, Seg, UpTo;
  }

  /** A consumer that ends its loop closes its channel; one that read to the channel's end was told so. */
  lemma ConsumerEnds(log: seq<Sequenced>, b: Birth, c: Consumer, drained: bool, pc: Pc)
    requires Increasing(log) && ConsumerOk(log, b, c)
    requires c.pc.Live? || (c.pc.Marked? && !drained)
    requires c.pc.Live? ==> c.inflight.Some? && (drained <==> c.inflight.value.End?) && (drained || c.gone)
    requires pc == if c.kind.Stream? then Draining else Finished
    ensures ConsumerOk(log, b, Closed(c.(inflight := None, drained := drained), pc))
  {
    hide Increasing, Seg, UpTo;
  }

  // ---- Opening and subscribing -----------------------------------------------------------------

  lemma NewConsumerOk(log: seq<Sequenced>, b: Birth, kind: Kind, lastSeq: nat)
    requires Increasing(log)
    ensures ConsumerOk(log, b, NewConsumer(kind, lastSeq))
  {
    SegEmpty(log, lastSeq);
  }

  lemma AttachSubscribed(log: seq<Sequenced>, b: Birth, c: Consumer, pc: Pc)
    requires Increasing(log) && ConsumerOk(log, b, c)
    requires c.pc.Announced? && c.kind.Attach? && (pc.Reading? || pc.Choosing?)
    ensures ConsumerOk(log, b, Subscribed(c, |log|, pc))
  {
  }

  /** A stream starts past its own message, which is the log's last entry. */
  lemma StreamSubscribed(log: seq<Sequenced>, b: Birth, c: Consumer)
    requires Increasing(log) && ConsumerOk(log, b, c)
    requires c.pc.Announced? && c.kind.Stream? && c.snap == None
    ensures ConsumerOk(log, b, Subscribed(c, |log|, Live).(base := LastSeq(log), delivered := LastSeq(log)))
  {
    UpToEnd(log, LastSeq(log));
    SegEmpty(log, LastSeq(log));
  }

  // ---- The durable read ------------------------------------------------------------------------

  /** The rows in a range against the log there: equal without a lost write, fewer with one. */
  lemma {:induction false} RowsAgainstLog(log: seq<Sequenced>, settled: nat, t: Thread, lost: set<nat>, a: nat, hi: nat)
    requires Increasing(log) && settled <= |log| && ThreadOk(t) && SettledOk(log, settled, t, lost)
    requires a <= hi <= t.lastSeq
    ensures |RowsBetween(t.rows, a, hi)| <= |Seg(log, a, hi)|
    ensures (forall s :: s in lost ==> !(a < s <= hi)) ==> RowsBetween(t.rows, a, hi) == Seg(log, a, hi)
    ensures (exists s :: s in lost && a < s <= hi) ==> |RowsBetween(t.rows, a, hi)| < |Seg(log, a, hi)|
    decreases hi
  {
    hide SettledOk, ThreadOk, Increasing, Seg;
    if a < hi {
      RowsAgainstLog(log, settled, t, lost, a, hi - 1);
      RowsOneFurther(log, settled, t, lost, a, hi);
    } else {
      SegEmpty(log, a);
    }
  }

  /** One number further: the log's stretch gains an entry that is stored or lost, or neither side gains anything. */
  lemma RowsOneFurther(log: seq<Sequenced>, settled: nat, t: Thread, lost: set<nat>, a: nat, hi: nat)
    requires Increasing(log) && settled <= |log| && ThreadOk(t) && SettledOk(log, settled, t, lost)
    requires a < hi <= t.lastSeq
    ensures hi in t.rows ==> hi !in lost && Seg(log, a, hi) == Seg(log, a, hi - 1) + [Sequenced(t.rows[hi], hi)]
    ensures hi in lost ==> hi !in t.rows && |Seg(log, a, hi)| == |Seg(log, a, hi - 1)| + 1
    ensures hi !in t.rows && hi !in lost ==> Seg(log, a, hi) == Seg(log, a, hi - 1)
  {
    var k := UpTo(log, hi - 1);
    if k < |log| && log[k].seqNo == hi {
      SegExtends(log, a, hi - 1, k);
      EntryIsSettled(log, settled, t, lost, k);
    } else {
      UpToIs(log, hi, k);
      NotThere(log, settled, t, lost, hi, k);
    }
  }

  lemma EntryIsSettled(log: seq<Sequenced>, settled: nat, t: Thread, lost: set<nat>, k: nat)
    requires Increasing(log) && settled <= |log| && ThreadOk(t) && SettledOk(log, settled, t, lost)
    requires k < |log| && 1 <= log[k].seqNo <= t.lastSeq
    ensures log[k].seqNo in lost || (log[k].seqNo in t.rows && t.rows[log[k].seqNo] == log[k].event)
    ensures log[k].seqNo in lost ==> log[k].seqNo !in t.rows
  {
    assert t.lastSeq in t.rows;
    assert InLog(log[..settled], t.lastSeq);
    var j :| 0 <= j < settled && log[..settled][j].seqNo == t.lastSeq;
    assert log[j].seqNo == t.lastSeq;
    assert k <= j;
  }

  lemma NotThere(log: seq<Sequenced>, settled: nat, t: Thread, lost: set<nat>, s: nat, k: nat)
    requires Increasing(log) && settled <= |log| && SettledOk(log, settled, t, lost)
    requires k <= |log| && (forall i :: 0 <= i < k ==> log[i].seqNo < s)
    requires (forall i :: k <= i < |log| ==> log[i].seqNo > s)
    ensures s !in t.rows && s !in lost
  {
    assert forall j :: 0 <= j < settled ==> log[..settled][j] == log[j];
  }

  lemma RowsAreLogged(log: seq<Sequenced>, settled: nat, t: Thread, lost: set<nat>, a: nat)
    requires settled <= |log| && ThreadOk(t) && SettledOk(log, settled, t, lost)
    ensures forall s :: s in LoadEvents(t, a) ==> s in log
  {
    LoadIsSortedRows(t, a);
    forall s | s in LoadEvents(t, a)
      ensures s in log
    {
      assert s.seqNo in t.rows && t.rows[s.seqNo] == s.event;
      assert InLog(log[..settled], s.seqNo);
      var j :| 0 <= j < settled && log[..settled][j].seqNo == s.seqNo;
      assert log[j].seqNo == s.seqNo;
      assert log[j] == s;
    }
  }

  /** The rows an attach reads end with the thread's last one, if that lies past its cursor. */
  lemma ReadEndsAtLast(t: Thread, a: nat)
    requires ThreadOk(t)
    ensures var read := LoadEvents(t, a);
      && (read == [] <==> t.lastSeq <= a)
      && (read != [] ==> LastSeq(read) == t.lastSeq && read[0].seqNo > a)
  {
    LoadIsSortedRows(t, a);
    var read := LoadEvents(t, a);
    if t.lastSeq > a {
      assert Sequenced(t.rows[t.lastSeq], t.lastSeq) in read;
      var j :| 0 <= j < |read| && read[j].seqNo == t.lastSeq;
      assert read[|read| - 1] in read;
      assert read[|read| - 1].seqNo >= read[j].seqNo;
    }
    if read != [] {
      assert read[0] in read && read[|read| - 1] in read;
    }
  }

  /** What a durable read past `a` returns, against the log. */
  ghost predicate ReadOk(log: seq<Sequenced>, floor: nat, a: nat, read: seq<Sequenced>, readLost: bool)
    requires Increasing(log)
  {
    && Increasing(read)
    && (forall i :: 0 <= i < |read| ==> read[i] in log)
    && (read == [] ==> a >= floor && !readLost)
    && (read != [] ==>
          && read[0].seqNo > a
          && floor <= LastSeq(read) <= LastSeq(log)
          && (!readLost ==> read == Seg(log, a, LastSeq(read)))
          && (readLost ==> |read| < |Seg(log, a, LastSeq(read))|))
  }

  lemma ReadIsOk(w: World, a: nat, readLost: bool)
    requires LogOk(w) && StoreOk(w) && w.durable
    requires readLost <==> exists s :: s in w.lost && a < s < w.thread.lastSeq
    ensures ReadOk(w.log, w.birth.floor, a, LoadEvents(w.thread, a), readLost)
  {
    assert Increasing(w.log);
    hide LogOk, SettledOk, ThreadOk, Increasing, ReadOk, LoadEvents;
    RowsAreOk(w.log, w.birth.floor, |w.log| - |w.chain|, w.thread, w.lost, a, readLost);
  }

  lemma RowsAreOk(log: seq<Sequenced>, floor: nat, settled: nat, t: Thread, lost: set<nat>, a: nat, readLost: bool)
    requires Increasing(log) && settled <= |log| && ThreadOk(t) && floor <= t.lastSeq
    requires SettledOk(log, settled, t, lost)
    requires readLost <==> exists s :: s in lost && a < s < t.lastSeq
    ensures ReadOk(log, floor, a, LoadEvents(t, a), readLost)
  {
    hide *;
    LoadIsSortedRows(t, a);
    ReadEndsAtLast(t, a);
    RowsAreLogged(log, settled, t, lost, a);
    if t.lastSeq > a {
      RowsAreWhole(log, settled, t, lost, a, readLost);
      LastIsWithin(log, settled, t, lost);
    }
    ReadIs(log, floor, a, LoadEvents(t, a), t.lastSeq, readLost);
  }

  lemma ReadIs(log: seq<Sequenced>, floor: nat, a: nat, read: seq<Sequenced>, last: nat, readLost: bool)
    requires Increasing(log) && Increasing(read) && floor <= last
    requires forall s :: s in read ==> s in log
    requires (read == [] <==> last <= a) && (readLost ==> a < last)
    requires read != [] ==> LastSeq(read) == last <= LastSeq(log) && read[0].seqNo > a
    requires read != [] ==> if readLost then |read| < |Seg(log, a, last)| else read == Seg(log, a, last)
    ensures ReadOk(log, floor, a, read, readLost)
  {
    hide Increasing, Seg;
  }

  /** The rows past a number are the log's stretch, unless a write between was lost. */
  lemma RowsAreWhole(log: seq<Sequenced>, settled: nat, t: Thread, lost: set<nat>, a: nat, readLost: bool)
    requires Increasing(log) && settled <= |log| && ThreadOk(t) && SettledOk(log, settled, t, lost) && a < t.lastSeq
    requires readLost <==> exists s :: s in lost && a < s < t.lastSeq
    ensures var read := LoadEvents(t, a);
      if readLost then |read| < |Seg(log, a, t.lastSeq)| else read == Seg(log, a, t.lastSeq)
  {
    assert LoadEvents(t, a) == RowsBetween(t.rows, a, t.lastSeq);
    hide *;
    RowsAgainstLog(log, settled, t, lost, a, t.lastSeq);
    LastIsNotLost(log, settled, t, lost);
  }

  lemma LastIsWithin(log: seq<Sequenced>, settled: nat, t: Thread, lost: set<nat>)
    requires Increasing(log) && settled <= |log| && ThreadOk(t) && SettledOk(log, settled, t, lost) && t.lastSeq > 0
    ensures t.lastSeq <= LastSeq(log)
  {
    assert InLog(log[..settled], t.lastSeq);
    var j :| 0 <= j < settled && log[..settled][j].seqNo == t.lastSeq;
    assert log[j].seqNo == t.lastSeq;
  }

  lemma LastIsNotLost(log: seq<Sequenced>, settled: nat, t: Thread, lost: set<nat>)
    requires settled <= |log| && ThreadOk(t) && SettledOk(log, settled, t, lost)
    ensures t.lastSeq > 0 ==> t.lastSeq !in lost
  {
  }

  lemma LoggedIsWithin(log: seq<Sequenced>, s: Sequenced)
    requires Increasing(log) && s in log
    ensures 1 <= s.seqNo <= LastSeq(log)
  {
  }

  lemma ConsumerReads(w: World, c: Consumer)
    requires LogOk(w) && StoreOk(w) && w.durable
    requires ConsumerOk(w.log, w.birth, c) && c.pc.Reading?
    ensures ConsumerOk(w.log, w.birth, RowsRead(w, c))
  {
    var c' := RowsRead(w, c);
    ReadIsOk(w, c.delivered, c'.readLost);
    ReadIsTracked(w.log, w.birth, c, c');
  }

  lemma ReadIsTracked(log: seq<Sequenced>, b: Birth, c: Consumer, c': Consumer)
    requires Increasing(log) && ConsumerOk(log, b, c) && c.pc.Reading?
    requires ReadOk(log, b.floor, c.delivered, c'.read, c'.readLost)
    requires c' == c.(pc := Rows, todo := c'.read, read := c'.read, readLost := c'.readLost)
    ensures ConsumerOk(log, b, c')
  {
    hide Increasing, Seg, UpTo, CursorAt;
    ReadCursor(log, b, c, c');
    assert c'.out + c'.todo == c'.read;
  }

  lemma ReadCursor(log: seq<Sequenced>, b: Birth, c: Consumer, c': Consumer)
    requires Increasing(log) && ReadOk(log, b.floor, c.delivered, c'.read, c'.readLost)
    requires c' == c.(pc := Rows, todo := c'.read, read := c'.read, readLost := c'.readLost)
    ensures !c'.readLost ==> CursorAt(log, c', UpTo(log, c.delivered))
  {
    var k := UpTo(log, c.delivered);
    if c'.read != [] && !c'.readLost {
      assert c'.read == log[k..UpTo(log, LastSeq(c'.read))];
    }
  }

  // ---- Yielding --------------------------------------------------------------------------------

  /** A later entry lengthens the stretch by one at least, and by more if it skips an entry. */
  lemma SegJumps(log: seq<Sequenced>, a: nat, d: nat, s: Sequenced)
    requires Increasing(log) && a <= d < s.seqNo && s in log
    ensures |Seg(log, a, s.seqNo)| >= |Seg(log, a, d)| + 1
    ensures Between(log, d, s.seqNo) ==> |Seg(log, a, s.seqNo)| >= |Seg(log, a, d)| + 2
  {
    hide *;
    var i :| 0 <= i < |log| && log[i] == s;
    UpToEntry(log, i);
    SegLength(log, a, d);
    SegLength(log, a, s.seqNo);
    UpToBelow(log, d, i);
  }

  lemma SegLength(log: seq<Sequenced>, a: nat, b: nat)
    requires Increasing(log) && a <= b
    ensures |Seg(log, a, b)| == UpTo(log, b) - UpTo(log, a)
  {
    UpToMonotone(log, a, b);
    hide Increasing;
  }

  lemma UpToBelow(log: seq<Sequenced>, d: nat, i: nat)
    requires Increasing(log) && i < |log| && d < log[i].seqNo
    ensures UpTo(log, d) <= i
    ensures Between(log, d, log[i].seqNo) ==> UpTo(log, d) < i
  {
  }

  lemma OutAscends(log: seq<Sequenced>, floor: nat, c: Consumer)
    requires OutOk(log, floor, c)
    ensures c.base <= c.delivered
  {
  }

  lemma YieldedOut(log: seq<Sequenced>, floor: nat, c: Consumer, c': Consumer, s: Sequenced)
    requires Increasing(log) && OutOk(log, floor, c)
    requires s in log && s.seqNo > c.delivered
    requires c' == Yielded(c.(todo := c'.todo, inflight := c'.inflight, drained := c'.drained), s)
    requires c.pc.Live? || ((c.pc.Rows? || c.pc.Ring?) && c.todo != [] && s == c.todo[0] && c'.todo == c.todo[1..])
    ensures OutOk(log, floor, c')
  {
    LoggedIsWithin(log, s);
    forall i | 0 <= i < |c'.out|
      ensures c'.out[i] in log && c'.out[i].seqNo >= 1
    {
      if i < |c.out| {
        assert c'.out[i] == c.out[i];
      }
    }
    if c.pc.Rows? && |c.todo| > 1 {
      assert c.todo[1..][0] == c.todo[1];
    }
  }

  lemma YieldedTrack(log: seq<Sequenced>, floor: nat, c: Consumer, c': Consumer, k: nat)
    requires Increasing(log) && OutOk(log, floor, c) && Clean(log, c)
    requires UpTo(log, c.delivered) == k < |log|
    requires c'.out == c.out + [log[k]] && c'.delivered == log[k].seqNo && c'.base == c.base
    ensures Clean(log, c') && UpTo(log, c'.delivered) == k + 1
  {
    OutAscends(log, floor, c);
    SegExtends(log, c.base, c.delivered, k);
    UpToEntry(log, k);
  }

  lemma YieldedHole(log: seq<Sequenced>, floor: nat, c: Consumer, c': Consumer, s: Sequenced)
    requires Increasing(log) && OutOk(log, floor, c) && HoleOk(log, c)
    requires s in log && s.seqNo > c.delivered
    requires c' == Yielded(c.(todo := c'.todo, inflight := c'.inflight, drained := c'.drained), s)
    requires c.pc.Live? || ((c.pc.Rows? || c.pc.Ring?) && c.todo != [] && s == c.todo[0] && c'.todo == c.todo[1..])
    ensures HoleOk(log, c')
  {
    hide OutOk, Increasing, Seg;
    OutAscends(log, floor, c);
    SegJumps(log, c.base, c.delivered, s);
    if c.pc.Rows? && c.readLost && !c.gone {
      assert c.out + c.todo == c.out + [s] + c'.todo;
    }
  }

  /** A live consumer yields what its channel gave it. */
  lemma ConsumerYieldsLive(log: seq<Sequenced>, b: Birth, c: Consumer)
    requires Increasing(log) && ConsumerOk(log, b, c)
    requires c.pc.Live? && !c.gone && c.inflight.Some? && c.inflight.value.Value?
    requires c.kind.Stream? || c.inflight.value.value.seqNo > c.delivered
    ensures ConsumerOk(log, b, Yielded(c.(inflight := None, drained := false), c.inflight.value.value))
  {
    hide OutOk, HoleOk, Increasing, Seg, UpTo, Clean;
    var s := c.inflight.value.value;
    var c' := Yielded(c.(inflight := None, drained := false), s);
    LiveIsNext(log, b, c);
    YieldedOut(log, b.floor, c, c', s);
    YieldedHole(log, b.floor, c, c', s);
    if !c.readLost && !c.rolled {
      YieldedTrack(log, b.floor, c, c', c.pos - 1);
    }
  }

  /** What a live consumer yields is the log's next entry for it. */
  lemma LiveIsNext(log: seq<Sequenced>, b: Birth, c: Consumer)
    requires Increasing(log) && ConsumerOk(log, b, c)
    requires c.pc.Live? && !c.gone && c.inflight.Some? && c.inflight.value.Value?
    requires c.kind.Stream? || c.inflight.value.value.seqNo > c.delivered
    ensures var s := c.inflight.value.value;
      && c.pos > 0 && s == log[c.pos - 1] && s in log && s.seqNo > c.delivered
      && (!c.readLost && !c.rolled ==> UpTo(log, c.delivered) == c.pos - 1)
  {
    assert c.kind.Stream? ==> !c.readLost && !c.rolled;
    hide OutOk, HoleOk, Seg, Clean;
    assert log[c.pos - 1] in log;
  }

  /** A live attach skips what it knows. */
  lemma ConsumerSkipsLive(log: seq<Sequenced>, b: Birth, c: Consumer)
    requires Increasing(log) && ConsumerOk(log, b, c)
    requires c.pc.Live? && !c.gone && c.kind.Attach? && c.inflight.Some? && c.inflight.value.Value?
    requires c.inflight.value.value.seqNo <= c.delivered
    ensures ConsumerOk(log, b, c.(inflight := None, drained := false))
  {
    assert log[c.pos - 1].seqNo <= c.delivered;
    hide OutOk, HoleOk, Seg, Clean;
  }

  // ---- The replay loops ------------------------------------------------------------------------

  lemma RingIsSuffix(w: World)
    requires LogOk(w)
    ensures |w.hist.ring| <= |w.log| && w.hist.ring == w.log[|w.log| - |w.hist.ring|..|w.log|]
  {
    var m := |w.log| - |w.hist.ring|;
    assert w.hist.ring == w.log[m..] == w.log[m..|w.log|];
  }

  lemma SuffixIsLogged(log: seq<Sequenced>, m: nat)
    requires Increasing(log) && m <= |log|
    ensures Increasing(log[m..|log|]) && forall i :: 0 <= i < |log| - m ==> log[m..|log|][i] in log
  {
    forall i | 0 <= i < |log| - m
      ensures log[m..|log|][i] in log
    {
      assert log[m..|log|][i] == log[m + i];
    }
  }

  /** The ring's copy reaches back to the cursor when no entry lies between that and its oldest. */
  lemma RingReaches(w: World, d: nat)
    requires LogOk(w)
    ensures var m := |w.log| - |w.hist.ring|;
      && m >= 0 && w.hist.ring == w.log[m..|w.log|]
      && Increasing(w.hist.ring)
      && (forall i :: 0 <= i < |w.hist.ring| ==> w.hist.ring[i] in w.log)
      && (!Between(w.log, d, OldestBuffered(w.hist)) ==> m <= UpTo(w.log, d))
  {
    var log, ring := w.log, w.hist.ring;
    var m := |log| - |ring|;
    RingIsSuffix(w);
    SuffixIsLogged(log, m);
    OldestPast(w);
    hide LogOk, OldestBuffered, Increasing, LastOf;
  }

  lemma OldestPast(w: World)
    requires LogOk(w) && |w.hist.ring| <= |w.log| && w.hist.ring == w.log[|w.log| - |w.hist.ring|..|w.log|]
    ensures var m := |w.log| - |w.hist.ring|; m > 0 ==> w.log[m - 1].seqNo < OldestBuffered(w.hist)
  {
    var m := |w.log| - |w.hist.ring|;
    assert w.hist.ring != [] ==> w.hist.ring[0] == w.log[m];
    hide LastOf;
  }

  lemma RowsYieldNext(log: seq<Sequenced>, b: Birth, c: Consumer)
    requires Increasing(log) && ConsumerOk(log, b, c)
    requires c.pc.Rows? && !c.gone && c.todo != []
    ensures c.todo[0].seqNo > c.delivered
    ensures ConsumerOk(log, b, Yielded(c.(todo := c.todo[1..]), c.todo[0]))
  {
    var s := c.todo[0];
    var c' := Yielded(c.(todo := c.todo[1..]), s);
    assert s in log;
    YieldedOut(log, b.floor, c, c', s);
    YieldedHole(log, b.floor, c, c', s);
    RowsTrack(log, b.floor, c, c');
    hide OutOk, HoleOk, TrackOk, Increasing;
  }

  lemma RowsTrack(log: seq<Sequenced>, floor: nat, c: Consumer, c': Consumer)
    requires Increasing(log) && OutOk(log, floor, c) && TrackOk(log, c) && c.pc.Rows? && c.todo != []
    requires c' == Yielded(c.(todo := c.todo[1..]), c.todo[0])
    ensures TrackOk(log, c')
  {
    hide Increasing, OutOk, Clean, UpTo;
    if !c.readLost && !c.rolled {
      var k := UpTo(log, c.delivered);
      assert c.todo[0] == log[k] && c'.todo == log[k + 1..k + 1 + |c'.todo|];
      YieldedTrack(log, floor, c, c', k);
    }
  }

  lemma RingNext(log: seq<Sequenced>, b: Birth, c: Consumer)
    requires Increasing(log) && ConsumerOk(log, b, c)
    requires c.pc.Ring? && !c.gone && c.todo != []
    ensures var c' := c.(todo := c.todo[1..]);
      ConsumerOk(log, b, if c.todo[0].seqNo <= c.delivered then c' else Yielded(c', c.todo[0]))
  {
    if c.todo[0].seqNo <= c.delivered {
      RingSkips(log, b, c);
    } else {
      RingYields(log, b, c);
    }
  }

  lemma RingSkips(log: seq<Sequenced>, b: Birth, c: Consumer)
    requires Increasing(log) && ConsumerOk(log, b, c)
    requires c.pc.Ring? && !c.gone && c.todo != [] && c.todo[0].seqNo <= c.delivered
    ensures ConsumerOk(log, b, c.(todo := c.todo[1..]))
  {
    SkipTrack(log, c);
    SkipOut(log, b.floor, c);
    hide Increasing, UpTo, Seg, TrackOk, OutOk;
  }

  lemma SkipOut(log: seq<Sequenced>, floor: nat, c: Consumer)
    requires OutOk(log, floor, c) && c.pc.Ring? && c.todo != []
    ensures OutOk(log, floor, c.(todo := c.todo[1..]))
  {
  }

  lemma SkipTrack(log: seq<Sequenced>, c: Consumer)
    requires Increasing(log) && TrackOk(log, c)
    requires c.pc.Ring? && !c.gone && c.todo != [] && c.todo[0].seqNo <= c.delivered
    ensures TrackOk(log, c.(todo := c.todo[1..]))
  {
    if !c.readLost && !c.rolled {
      var k, h := UpTo(log, c.delivered), c.mark - |c.todo|;
      assert c.todo[0] == log[h] && c.todo[1..] == log[h + 1..c.mark];
    }
    hide Seg;
  }

  lemma RingYields(log: seq<Sequenced>, b: Birth, c: Consumer)
    requires Increasing(log) && ConsumerOk(log, b, c)
    requires c.pc.Ring? && !c.gone && c.todo != [] && c.todo[0].seqNo > c.delivered
    ensures ConsumerOk(log, b, Yielded(c.(todo := c.todo[1..]), c.todo[0]))
  {
    hide ChanOk, OutOk, TrackOk, HoleOk, SnapOk, Increasing;
    var s := c.todo[0];
    var c' := Yielded(c.(todo := c.todo[1..]), s);
    RingHead(log, b.floor, c);
    YieldedOut(log, b.floor, c, c', s);
    YieldedHole(log, b.floor, c, c', s);
    RingTrack(log, b.floor, c, c');
    RingKeeps(log, b, c, s);
  }

  lemma RingHead(log: seq<Sequenced>, floor: nat, c: Consumer)
    requires OutOk(log, floor, c) && c.pc.Ring? && c.todo != []
    ensures c.todo[0] in log
  {
    hide Increasing;
  }

  lemma RingKeeps(log: seq<Sequenced>, b: Birth, c: Consumer, s: Sequenced)
    requires Increasing(log) && ChanOk(log, c) && SnapOk(log, b, c) && c.pc.Ring? && c.todo != []
    ensures var c' := Yielded(c.(todo := c.todo[1..]), s); ChanOk(log, c') && SnapOk(log, b, c')
  {
    hide Increasing, UpTo, NoMessage;
  }

  lemma RingTrack(log: seq<Sequenced>, floor: nat, c: Consumer, c': Consumer)
    requires Increasing(log) && OutOk(log, floor, c) && TrackOk(log, c)
    requires c.pc.Ring? && !c.gone && c.todo != [] && c.todo[0].seqNo > c.delivered
    requires c' == Yielded(c.(todo := c.todo[1..]), c.todo[0])
    ensures TrackOk(log, c')
  {
    if !c.readLost && !c.rolled {
      var k, h := UpTo(log, c.delivered), c.mark - |c.todo|;
      assert c.todo[0] == log[h] && c.todo[1..] == log[h + 1..c.mark];
      assert h == k;
      YieldedTrack(log, floor, c, c', k);
    }
    hide Increasing, OutOk, Clean;
  }

  /** The durable rows are done, or the client is: the ring is copied. */
  lemma ConsumerCopiesRing(w: World, c: Consumer)
    requires LogOk(w) && ConsumerOk(w.log, w.birth, c)
    requires c.pc.Rows? && (c.gone || c.todo == [])
    ensures ConsumerOk(w.log, w.birth, Replayed(w, c))
  {
    CopiedOut(w, c);
    CopiedHole(w, c);
    CopiedTrack(w, c);
    hide LogOk, Increasing, Seg, UpTo, TrackOk, HoleOk, OutOk;
  }

  lemma CopyIs(w: World, c: Consumer)
    requires c.pc.Rows? && (c.gone || c.todo == [])
    ensures Replayed(w, c) == c.(pc := Ring, todo := w.hist.ring, mark := |w.log|, rolled := Replayed(w, c).rolled)
  {
    hide Between, OldestBuffered;
  }

  lemma CopiedOut(w: World, c: Consumer)
    requires LogOk(w) && OutOk(w.log, w.birth.floor, c)
    requires c.pc.Rows? && (c.gone || c.todo == [])
    ensures OutOk(w.log, w.birth.floor, Replayed(w, c))
  {
    hide LogOk, Increasing, Replayed;
    CopyIs(w, c);
    RingReaches(w, 0);
  }

  lemma CopiedTrack(w: World, c: Consumer)
    requires LogOk(w) && ChanOk(w.log, c) && TrackOk(w.log, c) && !c.rolled
    requires c.pc.Rows? && (c.gone || c.todo == [])
    ensures TrackOk(w.log, Replayed(w, c))
  {
    RingReaches(w, c.delivered);
    hide LogOk, Seg, UpTo, Increasing, LastOf;
  }

  lemma CopiedHole(w: World, c: Consumer)
    requires LogOk(w) && OutOk(w.log, w.birth.floor, c) && HoleOk(w.log, c)
    requires c.pc.Rows? && (c.gone || c.todo == [])
    ensures HoleOk(w.log, Replayed(w, c))
  {
    var c' := Replayed(w, c);
    if c.readLost && !c.gone {
      assert c.out == c.out + c.todo == c.read;
    }
  }

  lemma ConsumerMarks(log: seq<Sequenced>, b: Birth, c: Consumer)
    requires Increasing(log) && ConsumerOk(log, b, c)
    requires c.pc.Ring? && (c.gone || c.todo == [])
    ensures ConsumerOk(log, b, c.(pc := Marked, todo := []))
  {
    hide Increasing, Seg, UpTo;
  }

  lemma ConsumerReplays(w: World, c: Consumer)
    requires LogOk(w) && ConsumerOk(w.log, w.birth, c)
    requires c.pc.Rows? || c.pc.Ring?
    ensures ConsumerOk(w.log, w.birth, Replayed(w, c))
  {
    if c.gone || c.todo == [] {
      if c.pc.Rows? {
        ConsumerCopiesRing(w, c);
      } else {
        ConsumerMarks(w.log, w.birth, c);
      }
    } else if c.pc.Rows? {
      RowsYieldNext(w.log, w.birth, c);
    } else {
      RingNext(w.log, w.birth, c);
    }
    hide ConsumerOk, LogOk;
  }

  lemma ConsumerChooses(w: World, c: Consumer)
    requires LogOk(w) && ConsumerOk(w.log, w.birth, c) && c.pc.Choosing? && c.kind.Attach?
    ensures ConsumerOk(w.log, w.birth, Chosen(w, c))
  {
    if c.delivered > 0 && c.delivered + 1 >= OldestBuffered(w.hist) {
      TailChosen(w, c);
    } else {
      SnapshotChosen(w, c);
    }
  }

  lemma TailChosen(w: World, c: Consumer)
    requires LogOk(w) && ConsumerOk(w.log, w.birth, c) && c.pc.Choosing? && c.kind.Attach?
    requires c.delivered + 1 >= OldestBuffered(w.hist)
    ensures ConsumerOk(w.log, w.birth, c.(pc := Ring, todo := w.hist.ring, mark := |w.log|))
  {
    RingReaches(w, c.delivered);
    hide LogOk, Increasing, Seg, UpTo;
  }

  lemma SnapshotChosen(w: World, c: Consumer)
    requires LogOk(w) && ConsumerOk(w.log, w.birth, c) && c.pc.Choosing? && c.kind.Attach?
    ensures ConsumerOk(w.log, w.birth,
      c.(pc := Ring, todo := [], mark := |w.log|, snap := Some(w.hist.snap),
         base := w.hist.seqNo, delivered := w.hist.seqNo))
  {
    UpToEnd(w.log, w.hist.seqNo);
    SegEmpty(w.log, w.hist.seqNo);
    assert w.log[w.birth.born..|w.log|] == w.log[w.birth.born..];
    assert Increasing(c.out) && c.out == [];
    hide Increasing, Seg, UpTo;
  }

  lemma ConsumerJoins(log: seq<Sequenced>, b: Birth, c: Consumer)
    requires Increasing(log) && ConsumerOk(log, b, c) && c.pc.Marked? && c.kind.Attach?
    ensures ConsumerOk(log, b, c.(pc := Live))
  {
    hide Increasing, Seg, UpTo;
  }

  lemma ReadFails(log: seq<Sequenced>, b: Birth, c: Consumer)
    requires Increasing(log) && ConsumerOk(log, b, c) && c.pc.Reading?
    ensures ConsumerOk(log, b, c.(pc := Choosing))
  {
    hide Increasing, Seg, UpTo;
  }

  lemma StreamFinishes(log: seq<Sequenced>, b: Birth, c: Consumer)
    requires Increasing(log) && ConsumerOk(log, b, c) && c.pc.Draining?
    ensures ConsumerOk(log, b, Closed(c, Finished))
  {
    hide Increasing, Seg, UpTo;
  }
}

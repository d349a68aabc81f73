/** What every reachable state of the replay protocol keeps. */
module ReplayInvariant {
  import opened Protocol
  import opened Logs
  import opened SnapshotFold
  import opened EventChannels
  import opened Threads
  import opened Sessions
  import opened ReplayModel

  // ---- The session and the store ---------------------------------------------------------------

  /** Counter, ring and snapshot are what the full log says they are. */
  ghost predicate LogOk(w: World) {
    && Increasing(w.log)
    && w.hist.seqNo == LastSeq(w.log)
    && w.birth.ringFrom <= |w.log|
    && (w.birth.ringFrom == |w.log| ==> LastSeq(w.log) <= w.birth.floor)
    && w.hist.ring == LastOf(w.log[w.birth.ringFrom..], EVENT_BUFFER_CAP)
    && w.birth.born <= |w.log|
    && w.hist.snap == LiveAll(w.birth.snap0, Events(w.log[w.birth.born..]))
  }

  ghost predicate InLog(log: seq<Sequenced>, s: nat) {
    exists i :: 0 <= i < |log| && log[i].seqNo == s
  }

  /** Every settled write of the log is a row or was lost, and there is nothing else in the table. */
  ghost predicate SettledOk(log: seq<Sequenced>, settled: nat, t: Thread, lost: set<nat>)
    requires settled <= |log|
  {
    && (forall i :: 0 <= i < settled ==>
          log[i].seqNo in lost || (log[i].seqNo in t.rows && t.rows[log[i].seqNo] == log[i].event))
    && (forall s :: s in t.rows || s in lost ==> InLog(log[..settled], s))
    && (forall s :: s in lost ==> s !in t.rows)
  }

  /** The queued writes are the log's tail; before them everything settled. */
  ghost predicate StoreOk(w: World) {
    && ThreadOk(w.thread)
    && (w.durable ==>
          && |w.chain| <= |w.log|
          && w.chain == w.log[|w.log| - |w.chain|..]
          && w.birth.floor <= w.thread.lastSeq
          && SettledOk(w.log, |w.log| - |w.chain|, w.thread, w.lost))
    && (!w.durable ==> w.chain == [] && w.lost == {} && w.thread.rows == map[])
  }

  // ---- One consumer ----------------------------------------------------------------------------

  /** The channel holds a stretch of the log, up to the log's end while it is open. */
  ghost predicate ChanOk(log: seq<Sequenced>, c: Consumer) {
    && c.pos + |c.chan.buffer| <= |log|
    && c.chan.buffer == log[c.pos..c.pos + |c.chan.buffer|]
    && (!c.chan.closed ==> c.pos + |c.chan.buffer| == |log|)
    && (c.chan.waiter ==> c.chan.buffer == [] && !c.chan.closed && c.inflight == None && c.pc.Live?)
    && (c.inflight.Some? ==> c.pc.Live?)
    && (c.inflight.Some? && c.inflight.value.Value? ==> 0 < c.pos && c.inflight.value.value == log[c.pos - 1])
    && (c.inflight == Some(End) ==> c.chan.closed && c.chan.buffer == [])
    && (c.drained ==> c.chan.closed && c.chan.buffer == [] && (c.pc.Draining? || c.pc.Finished?))
    && (c.endAt.Some? ==> c.chan.closed && c.endAt.value == c.pos + |c.chan.buffer|)
    && (c.pc.Announced? ==> c.endAt == None)
    && (c.pc.Announced? || c.pc.Draining? || c.pc.Finished? ==> c.chan.closed)
  }

  /** The log index of the next event a live consumer will handle. */
  function Behind(c: Consumer): int {
    if c.inflight.Some? && c.inflight.value.Value? then c.pos - 1 else c.pos
  }

  /** Whatever was yielded is from the log, in order, without repetition, and after the cursor. */
  ghost predicate OutOk(log: seq<Sequenced>, floor: nat, c: Consumer) {
    && Increasing(c.out)
    && (c.out != [] ==> c.delivered <= LastSeq(log))
    && (c.out != [] ==> c.out[0].seqNo > c.base)
    && c.delivered == (if c.out == [] then c.base else LastSeq(c.out))
    && (forall i :: 0 <= i < |c.out| ==> c.out[i] in log)
    && (c.pc.Announced? || c.pc.Reading? || c.pc.Choosing? ==> c.out == [])
    && (c.pc.Rows? || c.pc.Ring? ==> Increasing(c.todo) && forall i :: 0 <= i < |c.todo| ==> c.todo[i] in log)
    && (c.pc.Rows? && c.todo != [] ==> c.todo[0].seqNo > c.delivered && LastSeq(c.todo) >= floor)
    && (c.pc.Rows? && c.todo == [] ==> c.delivered >= floor)
    && (c.kind.Stream? && !c.pc.Announced? ==> c.base <= LastSeq(log))
    && (c.pc.Draining? ==> c.kind.Stream?)
    && (c.kind.Stream? ==>
          !c.readLost && !c.rolled && (c.pc.Announced? || c.pc.Live? || c.pc.Draining? || c.pc.Finished?))
  }

  ghost predicate Clean(log: seq<Sequenced>, c: Consumer)
    requires Increasing(log)
  {
    c.out == Seg(log, c.base, c.delivered)
  }

  /**
   Where a consumer without a hole stands, `k` being the log index past its cursor: nothing between what it yielded and
   what it will come to is missing.
   */
  ghost predicate CursorAt(log: seq<Sequenced>, c: Consumer, k: nat) {
    match c.pc
    case Announced => true
    case Reading => true
    case Choosing => true
    case Rows => k + |c.todo| <= |log| && c.todo == log[k..k + |c.todo|]
    case Ring =>
      && |c.todo| <= c.mark <= |log| && c.todo == log[c.mark - |c.todo|..c.mark]
      && c.pos <= c.mark && (!c.gone ==> c.mark - |c.todo| <= k) && (c.out != [] ==> k <= c.mark)
    case Marked => c.pos <= c.mark <= |log| && (!c.gone ==> c.mark <= k) && (c.out != [] ==> k <= c.mark)
    case Live => (c.gone || Behind(c) <= k) && (c.kind.Stream? ==> Behind(c) == k)
    case Draining => if c.drained then c.pos <= k else c.gone
    case Finished => !c.gone ==>
      if c.drained then c.pos <= k else c.mark <= |log| && c.mark <= k && (c.out != [] ==> k <= c.mark)
  }

  ghost predicate TrackOk(log: seq<Sequenced>, c: Consumer)
    requires Increasing(log)
  {
    !c.readLost && !c.rolled ==> Clean(log, c) && CursorAt(log, c, UpTo(log, c.delivered))
  }

  /** Fewer events yielded than the log holds up to the cursor. */
  ghost predicate Short(log: seq<Sequenced>, c: Consumer)
    requires Increasing(log)
  {
    |c.out| < |Seg(log, c.base, c.delivered)|
  }

  /** A hole, once jumped, stays: what a lost row or a rolled ring costs. */
  ghost predicate HoleOk(log: seq<Sequenced>, c: Consumer)
    requires Increasing(log)
  {
    && |c.out| <= |Seg(log, c.base, c.delivered)|
    && (c.readLost && !c.gone ==>
          if c.pc.Rows? then
            && c.out + c.todo == c.read && c.read != []
            && LastSeq(c.read) <= LastSeq(log)
            && |c.read| < |Seg(log, c.base, LastSeq(c.read))|
          else Short(log, c))
    && (c.rolled && !c.gone ==>
          || Short(log, c)
          || (c.pc.Ring? && c.todo != [] && Between(log, c.delivered, c.todo[0].seqNo)))
    && ((c.readLost || c.rolled) ==> !(c.pc.Announced? || c.pc.Reading? || c.pc.Choosing?))
    && (c.rolled ==> !c.pc.Rows?)
  }

  ghost predicate NoMessage(log: seq<Sequenced>) {
    forall i :: 0 <= i < |log| ==> !log[i].event.UserMessage?
  }

  /** A snapshot is the present at its mark, and only a turn's own events follow it. */
  ghost predicate SnapOk(log: seq<Sequenced>, b: Birth, c: Consumer)
    requires Increasing(log)
  {
    && NoMessage(c.chan.buffer)
    && (c.inflight.Some? && c.inflight.value.Value? ==> !c.inflight.value.value.event.UserMessage?)
    && (c.snap.Some? ==>
          && b.born <= c.mark <= |log|
          && c.snap.value == LiveAll(b.snap0, Events(log[b.born..c.mark]))
          && UpTo(log, c.base) == c.mark
          && c.base <= LastSeq(log)
          && NoMessage(c.out)
          && (c.pc.Ring? ==> c.todo == [])
          && !c.pc.Announced? && !c.pc.Reading? && !c.pc.Choosing? && !c.pc.Rows?
          && !c.readLost && !c.rolled)
  }

  ghost predicate ConsumerOk(log: seq<Sequenced>, b: Birth, c: Consumer)
    requires Increasing(log)
  {
    ChanOk(log, c) && OutOk(log, b.floor, c) && TrackOk(log, c) && HoleOk(log, c) && SnapOk(log, b, c)
  }

  ghost predicate ConsumersOk(w: World)
    requires Increasing(w.log)
  {
    forall i :: 0 <= i < |w.consumers| ==> ConsumerOk(w.log, w.birth, w.consumers[i])
  }

  // ---- The session's life ----------------------------------------------------------------------

  predicate Active(c: Consumer) {
    c.kind.Stream? && !c.pc.Finished?
  }

  ghost predicate LifeOk(w: World) {
    && (w.subscriber.Some? ==>
          && w.subscriber.value < |w.consumers|
          && var c := w.consumers[w.subscriber.value];
             !c.pc.Announced? && !c.pc.Finished? && (c.kind.Stream? ==> w.turn))
    // The only open channel is the subscriber's.
    && (forall i :: 0 <= i < |w.consumers| && !w.consumers[i].chan.closed ==> w.subscriber == Some(i))
    // A live subscriber and an armed orphan timer never coexist.
    && (w.timer ==> w.subscriber == None)
    // Turns never overlap: a busy session has exactly one stream under way.
    && (forall i :: 0 <= i < |w.consumers| && Active(w.consumers[i]) ==> w.busy)
    && (forall i, j | 0 <= i < |w.consumers| && 0 <= j < |w.consumers| ::
          Active(w.consumers[i]) && Active(w.consumers[j]) ==> i == j)
    && (w.busy ==> exists i :: 0 <= i < |w.consumers| && Active(w.consumers[i]))
    && (w.turn ==> w.busy && forall i :: 0 <= i < |w.consumers| && Active(w.consumers[i]) ==>
          !w.consumers[i].pc.Announced?)
    && (w.aborted ==> w.turn)
    && (forall i :: 0 <= i < |w.consumers| && w.consumers[i].pc.Reading? ==> w.durable)
  }

  ghost predicate Inv(w: World) {
    LogOk(w) && StoreOk(w) && ConsumersOk(w) && LifeOk(w)
  }
}

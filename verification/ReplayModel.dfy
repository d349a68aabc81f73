/**
 One session and everything that reads it, as a step system. A step is the code between two suspension points of the
 service: an emit, a write that lands or fails, a stretch of a stream or attach generator up to its next `await` or
 `yield`, a client vanishing, a timer firing, the process dying. Any interleaving of steps is a run.

 Of each consumer the model keeps its generator's local variables and program counter; of the world it keeps, beside
 the session and the store, the full log: every event the session's history holds, whatever still remembers it.
 */
module ReplayModel {
  import opened Protocol
  import opened Logs
  import opened SnapshotFold
  import opened EventChannels
  import opened Threads
  import opened Sessions

  datatype Kind = Stream | Attach

  datatype Pc =
    | Announced  // the session event is out; nothing is subscribed yet
    | Reading    // subscribed; the durable log is being read
    | Choosing   // subscribed; no durable log: tail or snapshot
    | Rows       // yielding the durable rows
    | Ring       // yielding the copied ring buffer
    | Marked     // the `replayed` marker is out
    | Live       // reading the channel
    | Draining   // a stream whose channel has ended, waiting for its turn
    | Finished

  datatype Consumer = Consumer(
    kind: Kind,
    pc: Pc,
    gone: bool,        // the client's abort signal
    listening: bool,   // the abort listener is attached
    chan: Chan<Sequenced>,
    inflight: Option<IterResult<Sequenced>>,  // what the channel's reader was given and has not handled yet
    delivered: nat,
    todo: seq<Sequenced>,   // what the current replay loop has left
    out: seq<Sequenced>,    // the sequenced events yielded to the client
    snap: Option<Snapshot>, // the snapshot yielded instead of history
    // What the statements speak of:
    base: nat,              // where `out` starts: the client's cursor, or the snapshot's number
    pos: nat,               // the log index of the next event the channel hands out
    mark: nat,              // the log length that `todo` reaches to
    read: seq<Sequenced>,   // the rows the durable read returned
    readLost: bool,         // a failed write left a hole among those rows
    rolled: bool,           // the ring had rolled past events not yet sent when it was copied
    endAt: Option<nat>,     // the log length at which the turn's end closed this channel
    drained: bool)          // the channel was read to its end

  /**
   How this process's session began: where its ring and its own life start in the log, with what snapshot, past what
   number.
   */
  datatype Birth = Birth(ringFrom: nat, born: nat, floor: nat, snap0: Snapshot)

  datatype World = World(
    log: seq<Sequenced>,
    hist: Hist,
    durable: bool,
    thread: Thread,
    chain: seq<Sequenced>,  // queued writes
    lost: set<nat>,         // numbers whose write failed
    busy: bool,
    turn: bool,             // a turn is running
    aborted: bool,          // its abort has been requested
    subscriber: Option<nat>,
    timer: bool,            // the orphan timer is armed
    consumers: seq<Consumer>,
    birth: Birth)

  // ---- Beginnings ------------------------------------------------------------------------------

  function Start(log: seq<Sequenced>, hist: Hist, durable: bool, thread: Thread, ringFrom: nat): World {
    World(log, hist, durable, thread, [], {}, false, false, false, None, false, [],
      Birth(ringFrom, |log|, if ringFrom == 0 then 0 else LastSeq(log), hist.snap))
  }

  /** A session rebuilt from a thread's stored log. */
  function Rebuilt(t: Thread): World {
    Start(LoadEvents(t, 0), FromThread(t), true, t, 0)
  }

  /** A session bound to a thread before its first event, without a replay: it continues the thread's numbers. */
  function Bound(t: Thread): World {
    Start(LoadEvents(t, 0), FRESH.(seqNo := t.lastSeq), true, t, |LoadEvents(t, 0)|)
  }

  /** A session without a thread. */
  function MemoryOnly(): World {
    Start([], FRESH, false, NewThread("", None), 0)
  }

  ghost predicate Initial(w: World) {
    || w == MemoryOnly()
    || (ThreadOk(w.thread) && (w == Rebuilt(w.thread) || w == Bound(w.thread)))
  }

  // ---- Pieces of steps -------------------------------------------------------------------------

  /** A channel closes; a waiting reader is told the end. */
  function Shut(c: Consumer): Consumer {
    c.(chan := AfterClose(c.chan), inflight := if c.chan.waiter then Some(End) else c.inflight)
  }

  function ShutSubscriber(w: World): (w': World)
    ensures w'.thread == w.thread && w'.durable == w.durable && w'.birth == w.birth
  {
    if w.subscriber.Some? && w.subscriber.value < |w.consumers|
    then w.(consumers := w.consumers[w.subscriber.value := Shut(w.consumers[w.subscriber.value])])
    else w
  }

  function Pushed(c: Consumer, s: Sequenced): Consumer {
    var handed := PushOutcomeOf(c.chan) == HandedOver;
    c.(chan := AfterPush(c.chan, s),
       inflight := if handed then Some(Value(s)) else c.inflight,
       pos := if handed then c.pos + 1 else c.pos)
  }

  /** An event joins the history: counter, fold, ring and write queue. */
  function Written(w: World, op: LifeOp): (w': World)
    ensures w'.thread == w.thread && w'.durable == w.durable && w'.birth == w.birth
  {
    var s := Sequenced(EventOf(op), w.hist.seqNo + 1);
    w.(log := w.log + [s], hist := Lived(w.hist, op), chain := if w.durable then w.chain + [s] else w.chain)
  }

  function Subscribed(c: Consumer, at: nat, pc: Pc): Consumer {
    c.(chan := Chan([], false, false), listening := !c.gone, pos := at, pc := pc)
  }

  function Yielded(c: Consumer, s: Sequenced): Consumer {
    c.(out := c.out + [s], delivered := s.seqNo)
  }

  /** The generator's clean-up: its listener is removed and its channel, if still open, closed. */
  function Closed(c: Consumer, pc: Pc): Consumer {
    c.(pc := pc, chan := AfterClose(c.chan), listening := c.listening && pc != Finished)
  }

  /** An attach ends; the session forgets it if it was the subscriber. */
  function AttachEnds(w: World, i: nat, c: Consumer): (w': World)
    requires i < |w.consumers|
    ensures w'.thread == w.thread && w'.durable == w.durable && w'.birth == w.birth
  {
    w.(consumers := w.consumers[i := Closed(c, Finished)],
       subscriber := if w.subscriber == Some(i) then None else w.subscriber)
  }

  function NewConsumer(kind: Kind, lastSeq: nat): Consumer {
    Consumer(kind, Announced, false, false, Chan([], false, true), None, lastSeq, [], [], None, lastSeq, 0, 0, [],
      false, false, None, false)
  }

  function OldestBuffered(h: Hist): nat {
    if h.ring == [] then h.seqNo + 1 else h.ring[0].seqNo
  }

  // ---- Steps -----------------------------------------------------------------------------------

  datatype Step =
    | Emit(op: LifeOp)
    | WriteLands
    | WriteFails
    | OpenStream
    | StreamSubscribes(i: nat, op: LifeOp)
    | OpenAttach(lastSeq: nat)
    | AttachSubscribes(i: nat)
    | DurableRead(i: nat)
    | DurableReadFails(i: nat)
    | Choose(i: nat)
    | ReplayNext(i: nat)
    | CheckLive(i: nat)
    | Pull(i: nat)
    | Handle(i: nat)
    | ClientGone(i: nat)
    | TurnEnds
    | StreamReturns(i: nat)
    | OrphanFires
    | Crash

  predicate At(w: World, i: nat, pc: Pc) {
    i < |w.consumers| && w.consumers[i].pc == pc
  }

  /** A turn has begun in this life of the process. Only a turn emits, and its tools may outlive it. */
  predicate TurnBegan(w: World) {
    exists i :: 0 <= i < |w.consumers| && w.consumers[i].kind.Stream? && !w.consumers[i].pc.Announced?
  }

  predicate Enabled(w: World, step: Step) {
    match step
    case Emit(op) => ByTurn(op) && !op.OpensTurn? && TurnBegan(w)
    case WriteLands => w.chain != []
    case WriteFails => w.chain != []
    case OpenStream => !w.busy
    case StreamSubscribes(i, op) => At(w, i, Announced) && w.consumers[i].kind == Stream && op.OpensTurn?
    case OpenAttach(_) => true
    case AttachSubscribes(i) => At(w, i, Announced) && w.consumers[i].kind == Attach
    case DurableRead(i) => At(w, i, Reading)
    case DurableReadFails(i) => At(w, i, Reading)
    case Choose(i) => At(w, i, Choosing)
    case ReplayNext(i) => At(w, i, Rows) || At(w, i, Ring)
    case CheckLive(i) => At(w, i, Marked)
    case Pull(i) => At(w, i, Live) && w.consumers[i].inflight == None && !w.consumers[i].chan.waiter
    case Handle(i) => At(w, i, Live) && w.consumers[i].inflight.Some?
    case ClientGone(i) => i < |w.consumers| && !w.consumers[i].gone && w.consumers[i].pc != Finished
    case TurnEnds => w.turn
    case StreamReturns(i) => At(w, i, Draining) && !w.turn
    case OrphanFires => w.timer
    case Crash => true
  }

  /** Forwarded to the one live consumer, if any. */
  function DoEmit(w: World, op: LifeOp): (w': World)
    ensures w'.thread == w.thread && w'.durable == w.durable && w'.birth == w.birth
  {
    var w' := Written(w, op);
    var s := Sequenced(EventOf(op), w.hist.seqNo + 1);
    if w.subscriber.Some? && w.subscriber.value < |w.consumers|
    then w'.(consumers := w.consumers[w.subscriber.value := Pushed(w.consumers[w.subscriber.value], s)])
    else w'
  }

  /** The turn's opening: the old consumer yields, the message is recorded past the new one, the turn starts. */
  function DoStreamSubscribes(w: World, i: nat, op: LifeOp): (w': World)
    requires i < |w.consumers|
    ensures w'.thread == w.thread && w'.durable == w.durable && w'.birth == w.birth
  {
    var w' := Written(ShutSubscriber(w), op);
    var c := Subscribed(w.consumers[i], |w'.log|, Live).(base := w'.hist.seqNo, delivered := w'.hist.seqNo);
    w'.(subscriber := Some(i), timer := false, turn := true, aborted := false, consumers := w'.consumers[i := c])
  }

  function DoAttachSubscribes(w: World, i: nat): (w': World)
    requires i < |w.consumers|
    ensures w'.thread == w.thread && w'.durable == w.durable && w'.birth == w.birth
  {
    var w' := ShutSubscriber(w);
    var c := Subscribed(w.consumers[i], |w.log|, if w.durable then Reading else Choosing);
    w'.(subscriber := Some(i), timer := false, consumers := w'.consumers[i := c])
  }

  /** The rows the database returns, as of the moment it reads them. */
  function RowsRead(w: World, c: Consumer): Consumer {
    var rows := LoadEvents(w.thread, c.delivered);
    c.(pc := Rows, todo := rows, read := rows,
       readLost := exists s :: s in w.lost && c.delivered < s < w.thread.lastSeq)
  }

  /** Tail replay when the buffer still holds everything after the client's cursor, else one snapshot of the present. */
  function Chosen(w: World, c: Consumer): Consumer {
    if c.delivered > 0 && c.delivered + 1 >= OldestBuffered(w.hist)
    then c.(pc := Ring, todo := w.hist.ring, mark := |w.log|)
    else c.(pc := Ring, todo := [], mark := |w.log|, snap := Some(w.hist.snap),
            base := w.hist.seqNo, delivered := w.hist.seqNo)
  }

  /**
   One turn of a replay loop: the next event is yielded unless it is known; at the list's end, or once the client is
   gone, the loop gives way to the ring's copy, and that loop to the marker.
   */
  function Replayed(w: World, c: Consumer): Consumer {
    if c.gone || c.todo == [] then
      if c.pc.Rows?
      then c.(pc := Ring, todo := w.hist.ring, mark := |w.log|,
              rolled := !c.gone && Between(w.log, c.delivered, OldestBuffered(w.hist)))
      else c.(pc := Marked, todo := [])
    else
      var c' := c.(todo := c.todo[1..]);
      if c.todo[0].seqNo <= c.delivered then c' else Yielded(c', c.todo[0])
  }

  /** An attach joins the live turn, or ends when there is none. */
  function DoCheckLive(w: World, i: nat): (w': World)
    requires i < |w.consumers|
    ensures w'.thread == w.thread && w'.durable == w.durable && w'.birth == w.birth
  {
    var c := w.consumers[i];
    if !w.busy || c.gone then AttachEnds(w, i, c) else w.(consumers := w.consumers[i := c.(pc := Live)])
  }

  function Pulled(c: Consumer): Consumer {
    var c' := c.(chan := AfterNext(c.chan));
    match NextOutcomeOf(c.chan)
    case Gives(r) => c'.(inflight := Some(r), pos := if r.Value? then c.pos + 1 else c.pos)
    case _ => c'
  }

  /** A consumer handles what its channel gave: the end, or an event it breaks on, skips or yields. */
  function DoHandle(w: World, i: nat): (w': World)
    requires i < |w.consumers| && w.consumers[i].inflight.Some?
    ensures w'.thread == w.thread && w'.durable == w.durable && w'.birth == w.birth
  {
    var r := w.consumers[i].inflight.value;
    var c := w.consumers[i].(inflight := None, drained := r.End?);
    if r.End? || c.gone then
      if c.kind == Attach then AttachEnds(w, i, c) else w.(consumers := w.consumers[i := Closed(c, Draining)])
    else if c.kind == Attach && r.value.seqNo <= c.delivered then w.(consumers := w.consumers[i := c])
    else w.(consumers := w.consumers[i := Yielded(c, r.value)])
  }

  /** The abort listener: a vanished subscriber frees its channel and, while a turn runs, arms the orphan timer. */
  function DoClientGone(w: World, i: nat): (w': World)
    requires i < |w.consumers|
    ensures w'.thread == w.thread && w'.durable == w.durable && w'.birth == w.birth
  {
    var c := w.consumers[i].(gone := true);
    if c.listening && w.subscriber == Some(i)
    then w.(consumers := w.consumers[i := Shut(c)], subscriber := None, timer := w.timer || w.busy)
    else w.(consumers := w.consumers[i := c])
  }

  /** A turn ends: whichever consumer is live is closed, and nothing of the turn stays armed. */
  function DoTurnEnds(w: World): (w': World)
    ensures w'.thread == w.thread && w'.durable == w.durable && w'.birth == w.birth
  {
    var w' := w.(turn := false, aborted := false, timer := false, subscriber := None);
    if w.subscriber.Some? && w.subscriber.value < |w.consumers| then
      var c := w.consumers[w.subscriber.value];
      w'.(consumers :=
        w.consumers[w.subscriber.value := Shut(c).(endAt := if c.chan.closed then c.endAt else Some(|w.log|))])
    else w'
  }

  function Do(w: World, step: Step): World
    requires Enabled(w, step)
  {
    match step
    case Emit(op) => DoEmit(w, op)
    case WriteLands => w.(thread := Stored(w.thread, w.chain[0]), chain := w.chain[1..])
    case WriteFails => w.(lost := w.lost + {w.chain[0].seqNo}, chain := w.chain[1..])
    case OpenStream => w.(busy := true, consumers := w.consumers + [NewConsumer(Stream, 0)])
    case StreamSubscribes(i, op) => DoStreamSubscribes(w, i, op)
    case OpenAttach(lastSeq) => w.(consumers := w.consumers + [NewConsumer(Attach, lastSeq)])
    case AttachSubscribes(i) => DoAttachSubscribes(w, i)
    case DurableRead(i) => w.(consumers := w.consumers[i := RowsRead(w, w.consumers[i])])
    case DurableReadFails(i) => w.(consumers := w.consumers[i := w.consumers[i].(pc := Choosing)])
    case Choose(i) => w.(consumers := w.consumers[i := Chosen(w, w.consumers[i])])
    case ReplayNext(i) => w.(consumers := w.consumers[i := Replayed(w, w.consumers[i])])
    case CheckLive(i) => DoCheckLive(w, i)
    case Pull(i) => w.(consumers := w.consumers[i := Pulled(w.consumers[i])])
    case Handle(i) => DoHandle(w, i)
    case ClientGone(i) => DoClientGone(w, i)
    case TurnEnds => DoTurnEnds(w)
    case StreamReturns(i) => w.(busy := false, consumers := w.consumers[i := Closed(w.consumers[i], Finished)])
    case OrphanFires => w.(timer := false, aborted := w.aborted || (w.busy && w.subscriber == None && w.turn))
    case Crash => if w.durable then Rebuilt(w.thread) else MemoryOnly()
  }

  /** A run; a step that cannot happen where it stands is no step. */
  function Run(w: World, steps: seq<Step>): World {
    if steps == [] then w
    else
      var w' := Run(w, steps[..|steps| - 1]);
      if Enabled(w', steps[|steps| - 1]) then Do(w', steps[|steps| - 1]) else w'
  }
}

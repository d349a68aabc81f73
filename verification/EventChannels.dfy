/**
 The single-consumer push channel between an agent turn and the response that streams it: bounded, closable, with at
 most one reader waiting.
 */
module EventChannels {
  import opened Protocol

  /** How many values may wait for a reader that does not come; one more closes the channel. */
  const MAX_BUFFER: nat := 10_000

  datatype IterResult<+T> = Value(value: T) | End

  // ---- The channel as a value ------------------------------------------------------------------

  datatype Chan<T> = Chan(buffer: seq<T>, waiter: bool, closed: bool)

  datatype PushOutcome = Refused | Buffered | HandedOver
  datatype NextOutcome<T> = Gives(result: IterResult<T>) | Waits | Rejects

  function PushOutcomeOf<T>(c: Chan<T>): PushOutcome {
    if c.closed then Refused
    else if c.waiter then HandedOver
    else if |c.buffer| >= MAX_BUFFER then Refused
    else Buffered
  }

  function AfterPush<T>(c: Chan<T>, v: T): Chan<T> {
    if c.closed then c
    else if c.waiter then c.(waiter := false)
    else if |c.buffer| >= MAX_BUFFER then AfterClose(c)
    else c.(buffer := c.buffer + [v])
  }

  function AfterClose<T>(c: Chan<T>): Chan<T> {
    if c.closed then c else c.(closed := true, waiter := false)
  }

  function NextOutcomeOf<T>(c: Chan<T>): NextOutcome<T> {
    if |c.buffer| > 0 then Gives(Value(c.buffer[0]))
    else if c.closed then Gives(End)
    else if c.waiter then Rejects
    else Waits
  }

  function AfterNext<T>(c: Chan<T>): Chan<T> {
    if |c.buffer| > 0 then c.(buffer := c.buffer[1..])
    else if c.closed || c.waiter then c
    else c.(waiter := true)
  }

  // ---- Whole runs ------------------------------------------------------------------------------

  datatype Op<T> = Push(v: T) | Close | Next | Return

  /**
   A channel with the record of its run: what pushes were accepted, what reads were given, whether the end was told.
   */
  datatype History<T> = History(chan: Chan<T>, accepted: seq<T>, delivered: seq<T>, ended: bool)

  function Opened<T>(): History<T> {
    History(Chan([], false, false), [], [], false)
  }

  function Applied<T>(h: History<T>, op: Op<T>): History<T> {
    match op
    case Push(v) =>
      var h' := h.(chan := AfterPush(h.chan, v));
      (match PushOutcomeOf(h.chan)
       case Refused => h'
       case Buffered => h'.(accepted := h.accepted + [v])
       case HandedOver => h'.(accepted := h.accepted + [v], delivered := h.delivered + [v]))
    case Next =>
      var h' := h.(chan := AfterNext(h.chan));
      (match NextOutcomeOf(h.chan)
       case Gives(Value(v)) => h'.(delivered := h.delivered + [v])
       case Gives(End) => h'.(ended := true)
       case _ => h')
    case Close => Closing(h)
    case Return => Closing(h).(ended := true)
  }

  /** Closing tells a waiting reader the end. */
  function Closing<T>(h: History<T>): History<T> {
    h.(chan := AfterClose(h.chan), ended := h.ended || h.chan.waiter)
  }

  function AppliedAll<T>(h: History<T>, ops: seq<Op<T>>): History<T> {
    if ops == [] then h else Applied(AppliedAll(h, ops[..|ops| - 1]), ops[|ops| - 1])
  }

  function Reads<T>(n: nat): seq<Op<T>> {
    seq(n, _ => Op.Next)
  }

  ghost predicate Faithful<T>(h: History<T>) {
    && h.accepted == h.delivered + h.chan.buffer
    && |h.chan.buffer| <= MAX_BUFFER
    && (h.chan.waiter ==> h.chan.buffer == [] && !h.chan.closed)
  }

  /**
   Over any run, the accepted pushes are the delivered values followed by the buffered ones, in order, and a reader
   waits only on an empty open channel.
   */
  lemma {:induction false} FaithfulFifo<T>(ops: seq<Op<T>>)
    ensures Faithful(AppliedAll(Opened<T>(), ops))
  {
    if ops != [] {
      FaithfulFifo<T>(ops[..|ops| - 1]);
      var h, op := AppliedAll(Opened<T>(), ops[..|ops| - 1]), ops[|ops| - 1];
      if op.Next? && |h.chan.buffer| > 0 {
        assert h.chan.buffer == [h.chan.buffer[0]] + h.chan.buffer[1..];
      }
    }
  }

  /**
   A reader that asks and is told the end, rather than returning of its own accord, has been given everything accepted.
   */
  lemma {:induction false} EndMeansDrained<T>(ops: seq<Op<T>>)
    requires Return !in ops
    ensures var h := AppliedAll(Opened<T>(), ops); h.ended ==> h.chan.closed && h.delivered == h.accepted
  {
    if ops != [] {
      EndMeansDrained<T>(ops[..|ops| - 1]);
      FaithfulFifo<T>(ops[..|ops| - 1]);
    }
  }

  /** However a channel came to close, also by overflow, reading on gives every value it ever accepted. */
  lemma {:induction false} AcceptedIsDelivered<T>(ops: seq<Op<T>>, n: nat)
    requires n == |AppliedAll(Opened<T>(), ops).chan.buffer|
    ensures AppliedAll(AppliedAll(Opened<T>(), ops), Reads(n)).delivered == AppliedAll(Opened<T>(), ops).accepted
  {
    FaithfulFifo<T>(ops);
    DrainBuffer(AppliedAll(Opened<T>(), ops), n);
  }

  lemma {:induction false} DrainBuffer<T>(h: History<T>, n: nat)
    requires n <= |h.chan.buffer|
    ensures var h' := AppliedAll(h, Reads(n));
      h'.delivered == h.delivered + h.chan.buffer[..n] && h'.chan.buffer == h.chan.buffer[n..]
  {
    if n > 0 {
      DrainBuffer(h, n - 1);
      assert Reads<T>(n)[..n - 1] == Reads<T>(n - 1);
    }
  }

  // ---- The channel in place --------------------------------------------------------------------

  /** The promise a read returns; `result` is what it settled to. */
  class Promise<T> {
    var result: Option<IterResult<T>>

    constructor (result: Option<IterResult<T>>)
      ensures this.result == result
    {
      this.result := result;
    }
  }

  class EventChannel<T> {
    var buffer: seq<T>
    var waiter: Promise?<T>
    var closed: bool
    ghost var accepted: seq<T>   // every value a push returned true for
    ghost var delivered: seq<T>  // every value a read's promise settled to, in that order

    ghost predicate Valid()
      reads this, waiter
    {
      && accepted == delivered + buffer
      && |buffer| <= MAX_BUFFER
      && (waiter != null ==> buffer == [] && !closed && waiter.result == None)
    }

    ghost function State(): Chan<T>
      reads this
    {
      Chan(buffer, waiter != null, closed)
    }

    constructor ()
      ensures Valid() && State() == Opened<T>().chan && accepted == delivered == []
    {
      buffer, waiter, closed, accepted, delivered := [], null, false, [], [];
    }

    /** Hand a value to the waiting reader or buffer it. A full channel gives up: it refuses the value and closes. */
    method Push(value: T) returns (ok: bool)
      requires Valid()
      modifies this, waiter
      ensures Valid() && State() == AfterPush(old(State()), value)
      ensures ok <==> PushOutcomeOf(old(State())) != Refused
      // In the fields: a reader that waits is served; else the value is buffered unless 10000 are, which closes.
      ensures ok <==> !old(closed) && (old(waiter) != null || |old(buffer)| < 10_000)
      ensures waiter == null || old(closed)
      ensures buffer == if ok && old(waiter) == null then old(buffer) + [value] else old(buffer)
      ensures closed <==> !ok
      ensures accepted == if ok then old(accepted) + [value] else old(accepted)
      ensures old(waiter) != null ==> old(waiter).result == Some(Value(value)) && delivered == old(delivered) + [value]
      ensures old(waiter) == null ==> delivered == old(delivered)
    {
      if closed { return false; }
      if waiter != null {
        var resolve := waiter;
        waiter := null;
        resolve.result := Some(Value(value));
        accepted, delivered := accepted + [value], delivered + [value];
        return true;
      }
      if |buffer| >= MAX_BUFFER {
        Close();
        return false;
      }
      buffer := buffer + [value];
      accepted := accepted + [value];
      return true;
    }

    method Close()
      requires Valid()
      modifies this, waiter
      ensures Valid() && State() == AfterClose(old(State()))
      ensures closed && waiter == null && buffer == old(buffer)
      ensures accepted == old(accepted) && delivered == old(delivered)
      ensures old(waiter) != null ==> old(waiter).result == Some(End)
    {
      if closed { return; }
      closed := true;
      if waiter != null {
        var resolve := waiter;
        waiter := null;
        resolve.result := Some(End);
      }
    }

    /** One read; `null` is the rejected promise a second concurrent reader gets. */
    method Next() returns (p: Promise?<T>)
      requires Valid()
      modifies this
      ensures Valid() && State() == AfterNext(old(State()))
      ensures accepted == old(accepted) && closed == old(closed)
      ensures |old(buffer)| > 0 ==>
        p != null && p.result == Some(Value(old(buffer)[0])) && buffer == old(buffer)[1..] && waiter == old(waiter)
      ensures |old(buffer)| == 0 && closed ==> p != null && p.result == Some(End) && buffer == [] && waiter == null
      ensures |old(buffer)| == 0 && !closed && old(waiter) != null ==> p == null && waiter == old(waiter)
      ensures |old(buffer)| == 0 && !closed && old(waiter) == null ==> p != null && p.result == None && waiter == p
      ensures match NextOutcomeOf(old(State()))
        case Gives(r) => p != null && fresh(p) && p.result == Some(r)
          && delivered == if r.Value? then old(delivered) + [r.value] else old(delivered)
        case Waits => p != null && fresh(p) && p.result == None && waiter == p && delivered == old(delivered)
        case Rejects => p == null && delivered == old(delivered)
    {
      if |buffer| > 0 {
        var head := buffer[0];
        buffer := buffer[1..];
        delivered := delivered + [head];
        p := new Promise(Some(Value(head)));
      } else if closed {
        p := new Promise(Some(End));
      } else if waiter != null {
        p := null;
      } else {
        p := new Promise(None);
        waiter := p;
      }
    }

    /** The consumer stopped reading. */
    method Return() returns (p: Promise<T>)
      requires Valid()
      modifies this, waiter
      ensures Valid() && State() == AfterClose(old(State()))
      ensures accepted == old(accepted) && delivered == old(delivered)
      ensures old(waiter) != null ==> old(waiter).result == Some(End)
      ensures fresh(p) && p.result == Some(End)
    {
      Close();
      p := new Promise(Some(End));
    }
  }
}

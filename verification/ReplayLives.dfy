/**
 Reconnecting over any number of lives of the process: what a client holds that drops, and comes back with its last
 number or a message, whatever happened in between, crashes included; and exactly when that is still what the log says.
 */
module ReplayLives {
  import opened Protocol
  import opened Logs
  import opened Threads
  import opened Sessions
  import opened ReplayModel
  import opened ReplayConsumers
  import opened ReplayInvariant
  import opened ReplaySteps
  import opened ReplayTheorems
  import opened ReplayRuns
  import opened ReplayStarts

  // ---- The client's side -----------------------------------------------------------------------

  /**
   Some steps of the world, one of them, at `at`, the client's own opening of its consumer `i`; then a look at what that
   has been sent, of which `cut` events had arrived.
   */
  datatype Leg = Leg(steps: seq<Step>, at: nat, i: nat, cut: nat)

  /**
   A client that has come to this number opens a consumer: it attaches with the number, or sends a message into a log it
   has come to the end of. The process has not died since.
   */
  predicate Opens(w: World, cursor: nat, steps: seq<Step>, at: nat, i: nat) {
    && at < |steps| && Crash !in steps[at + 1..]
    && var there := Run(w, steps[..at]);
       match steps[at]
       case OpenAttach(n) => n == cursor && i == |there.consumers|
       case StreamSubscribes(j, _) => i == j && Enabled(there, steps[at]) && LastSeq(there.log) == cursor
       case _ => false
  }

  function WorldAt(w: World, legs: seq<Leg>): World {
    if legs == [] then w else Run(WorldAt(w, legs[..|legs| - 1]), legs[|legs| - 1].steps)
  }

  function CursorAfter(cursor: nat, seen: seq<Sequenced>): nat {
    if seen == [] then cursor else LastSeq(seen)
  }

  /** The entry of a log with this number, if any. */
  function EntryOf(log: seq<Sequenced>, n: nat): seq<Sequenced> {
    if log == [] then []
    else if log[|log| - 1].seqNo == n then [log[|log| - 1]]
    else EntryOf(log[..|log| - 1], n)
  }

  /**
   What a client with this cursor gains from one consumer: the events that arrived and, from the first of them on, the
   message it sent itself, which opens its stream and is not sent back.
   */
  function Gained(log: seq<Sequenced>, cursor: nat, c: Consumer, cut: nat): seq<Sequenced>
    requires cut <= |c.out|
  {
    (if cut > 0 && cursor < c.base then EntryOf(log, c.base) else []) + c.out[..cut]
  }

  /** What the client holds after these legs. */
  function Arrived(w: World, cursor: nat, legs: seq<Leg>): seq<Sequenced> {
    if legs == [] then []
    else
      var leg, now := legs[|legs| - 1], WorldAt(w, legs);
      var before := Arrived(w, cursor, legs[..|legs| - 1]);
      if leg.i < |now.consumers| && leg.cut <= |now.consumers[leg.i].out|
      then before + Gained(now.log, CursorAfter(cursor, before), now.consumers[leg.i], leg.cut)
      else before
  }

  /** A consumer starts where the client is: at its cursor, or with its message, the next event of the log. */
  predicate StartsAt(log: seq<Sequenced>, cursor: nat, c: Consumer) {
    c.base == cursor || (c.kind.Stream? && cursor < c.base && !Between(log, cursor, c.base))
  }

  /** On each leg the client opened its consumer with its last number, was sent history and no snapshot, met no hole. */
  ghost predicate Resumed(w: World, cursor: nat, legs: seq<Leg>) {
    legs == [] ||
    (var leg, before, now := legs[|legs| - 1], legs[..|legs| - 1], WorldAt(w, legs);
     var come := CursorAfter(cursor, Arrived(w, cursor, before));
     && Resumed(w, cursor, before)
     && Opens(WorldAt(w, before), come, leg.steps, leg.at, leg.i)
     && leg.i < |now.consumers|
     && leg.cut <= |now.consumers[leg.i].out|
     && (now.consumers[leg.i].snap.Some? ==> now.consumers[leg.i].base == come)
     && !now.consumers[leg.i].readLost && !now.consumers[leg.i].rolled)
  }

  // ---- Where a leg starts ----------------------------------------------------------------------

  /** A consumer the client opened itself starts where the client is. */
  lemma OpenedStartsAt(w: World, cursor: nat, steps: seq<Step>, at: nat, i: nat)
    requires Reachable(w) && Opens(w, cursor, steps, at, i)
    ensures var now := Run(w, steps);
      && i < |now.consumers|
      && ((now.consumers[i].snap.Some? ==> now.consumers[i].base == cursor) ==>
            StartsAt(now.log, cursor, now.consumers[i]))
  {
    var there := Run(w, steps[..at]);
    RunFrom(w, steps, at);
    hide Reachable, Run, Do;
    RunStaysReachable(w, steps[..at]);
    if steps[at].OpenAttach? {
      AttachStartsWhereAsked(there, cursor, steps[at + 1..]);
    } else {
      SenderStartsAtItsMessage(there, i, steps[at].op, steps[at + 1..]);
    }
  }

  // ---- Numbers within a life -------------------------------------------------------------------

  /** The last number of the log a life began with. */
  function BornLast(w: World): nat {
    if w.birth.born <= |w.log| then LastSeq(w.log[..w.birth.born]) else 0
  }

  /** Since a life began every number was given to some event; and what it began with is still stored. */
  ghost predicate Dense(w: World) {
    && w.birth.born <= |w.log|
    && (forall n :: BornLast(w) < n <= LastSeq(w.log) ==> InLog(w.log, n))
    && (if w.durable then BornLast(w) <= w.thread.lastSeq else BornLast(w) == 0)
  }

  lemma GrowsDense(w: World, w': World)
    requires Dense(w) && Grows(w, w') && w.hist.seqNo == LastSeq(w.log)
    requires w'.birth == w.birth && w'.durable == w.durable && w'.thread.lastSeq >= w.thread.lastSeq
    ensures Dense(w')
  {
    if w'.log != w.log {
      assert w'.log[..w.birth.born] == w.log[..w.birth.born];
      forall n | BornLast(w) < n <= LastSeq(w'.log)
        ensures InLog(w'.log, n)
      {
        if n <= LastSeq(w.log) {
          assert InLog(w.log, n);
          var k :| 0 <= k < |w.log| && w.log[k].seqNo == n;
          assert w'.log[k] == w.log[k];
        } else {
          assert w'.log[|w.log|].seqNo == n;
        }
      }
    }
  }

  lemma CrashDense(w: World)
    requires Reachable(w)
    ensures Dense(Do(w, Crash))
  {
    if w.durable {
      RebuiltNumbers(w);
      CrashedThread(w);
    }
    hide Reachable, LoadEvents, FromThread;
    var log := Do(w, Crash).log;
    assert log[..|log|] == log;
  }

  /** What a crash leaves of a durable session ends with the thread's last number. */
  lemma CrashedThread(w: World)
    requires Reachable(w) && w.durable
    ensures LastSeq(LoadEvents(w.thread, 0)) == w.thread.lastSeq
  {
    ReachableHolds(w);
    Parts(w);
    StoredIsSettled(w.thread);
    hide *;
  }

  lemma StepDense(w: World, step: Step)
    requires Reachable(w) && Dense(w) && Enabled(w, step)
    ensures Dense(Do(w, step))
  {
    hide Reachable, Dense, Do, Enabled, Inv;
    if step.Crash? {
      CrashDense(w);
    } else {
      ReachableHolds(w);
      Parts(w);
      StepGrows(w, step);
      GrowsDense(w, Do(w, step));
    }
  }

  lemma InitialDense(w: World)
    requires Initial(w)
    ensures Dense(w)
  {
    assert w.log[..|w.log|] == w.log;
    if w != MemoryOnly() {
      StoredIsSettled(w.thread);
    }
    hide LoadEvents, FromThread;
  }

  lemma {:induction false} RunDense(w0: World, steps: seq<Step>)
    requires Initial(w0)
    ensures Dense(Run(w0, steps))
  {
    hide Reachable, Dense, Do, Enabled, Initial;
    if steps == [] {
      InitialDense(w0);
    } else {
      RunDense(w0, steps[..|steps| - 1]);
      RunIsReachable(w0, steps[..|steps| - 1]);
      var w := Run(w0, steps[..|steps| - 1]);
      if Enabled(w, steps[|steps| - 1]) {
        StepDense(w, steps[|steps| - 1]);
      }
    }
  }

  lemma ReachableDense(w: World)
    requires Reachable(w)
    ensures Dense(w)
  {
    hide Dense, Initial, Run;
    var w0, steps :| Initial(w0) && w == Run(w0, steps);
    RunDense(w0, steps);
  }

  // ---- No number is passed by ------------------------------------------------------------------

  /**
   Between its first cursor and its last number a client holds every number the log has, and every number the log has
   still to give.
   */
  ghost predicate NoGap(log: seq<Sequenced>, cursor: nat, seen: seq<Sequenced>) {
    forall n :: cursor < n <= CursorAfter(cursor, seen) && (InLog(log, n) || n > LastSeq(log)) ==> InLog(seen, n)
  }

  ghost predicate Ascends(cursor: nat, seen: seq<Sequenced>) {
    Increasing(seen) && forall k :: 0 <= k < |seen| ==> seen[k].seqNo > cursor
  }

  lemma GrowthLeavesNoGap(log: seq<Sequenced>, s: Sequenced, cursor: nat, seen: seq<Sequenced>)
    requires NoGap(log, cursor, seen) && s.seqNo == LastSeq(log) + 1
    ensures NoGap(log + [s], cursor, seen)
  {
    forall n | cursor < n <= CursorAfter(cursor, seen) && (InLog(log + [s], n) || n > LastSeq(log + [s]))
      ensures InLog(seen, n)
    {
      if InLog(log + [s], n) {
        var k :| 0 <= k < |log + [s]| && (log + [s])[k].seqNo == n;
        assert k < |log| ==> log[k].seqNo == n;
      }
    }
  }

  lemma CrashLeavesNoGap(w: World, cursor: nat, seen: seq<Sequenced>)
    requires Reachable(w) && Dense(w) && NoGap(w.log, cursor, seen)
    ensures NoGap(Do(w, Crash).log, cursor, seen)
  {
    var kept := Do(w, Crash).log;
    CrashKeepsNumbers(w);
    hide Reachable, Do;
    forall n | cursor < n <= CursorAfter(cursor, seen) && (InLog(kept, n) || n > LastSeq(kept))
      ensures InLog(seen, n)
    {
      assert InLog(w.log, n) || n > LastSeq(w.log);
    }
  }

  /** A crash brings no number back, and goes back no further than to where the life began. */
  lemma CrashKeepsNumbers(w: World)
    requires Reachable(w) && Dense(w)
    ensures forall n :: InLog(Do(w, Crash).log, n) ==> InLog(w.log, n)
    ensures BornLast(w) <= LastSeq(Do(w, Crash).log)
  {
    var kept := Do(w, Crash).log;
    if w.durable {
      RebuiltNumbers(w);
      CrashedThread(w);
      if |w.log| > 0 {
        CrashKeepsExactlyTheStored(w, |w.log|);
      } else {
        EmptyStaysEmpty(w);
      }
      hide Reachable, Do;
      forall n | InLog(kept, n)
        ensures InLog(w.log, n)
      {
        var k :| 0 <= k < |kept| && kept[k].seqNo == n;
        assert kept[k] in w.log;
      }
    }
  }

  lemma EmptyStaysEmpty(w: World)
    requires Reachable(w) && w.durable && w.log == []
    ensures Do(w, Crash).log == []
  {
    RebuiltNumbers(w);
    ReachableHolds(w);
    Parts(w);
    StoreFacts(w);
    hide Inv, Reachable, LogOk, Do, ConsumersOk, LifeOk;
    RowsAreLogged(w.log, 0, w.thread, w.lost, 0);
    hide LoadEvents;
  }

  lemma StepLeavesNoGap(w: World, step: Step, cursor: nat, seen: seq<Sequenced>)
    requires Reachable(w) && Enabled(w, step) && NoGap(w.log, cursor, seen)
    ensures NoGap(Do(w, step).log, cursor, seen)
  {
    hide Reachable, Dense, Do, Enabled, NoGap, Inv;
    if step.Crash? {
      ReachableDense(w);
      CrashLeavesNoGap(w, cursor, seen);
    } else {
      ReachableHolds(w);
      Parts(w);
      StepGrows(w, step);
      var log' := Do(w, step).log;
      if log' != w.log {
        assert log' == w.log + [log'[|w.log|]];
        GrowthLeavesNoGap(w.log, log'[|w.log|], cursor, seen);
      }
    }
  }

  lemma {:induction false} RunLeavesNoGap(w: World, steps: seq<Step>, cursor: nat, seen: seq<Sequenced>)
    requires Reachable(w) && NoGap(w.log, cursor, seen)
    ensures Reachable(Run(w, steps)) && NoGap(Run(w, steps).log, cursor, seen)
  {
    hide Reachable, Do, Enabled, NoGap;
    if steps != [] {
      RunLeavesNoGap(w, steps[..|steps| - 1], cursor, seen);
      var w' := Run(w, steps[..|steps| - 1]);
      if Enabled(w', steps[|steps| - 1]) {
        ReachableStep(w', steps[|steps| - 1]);
        StepLeavesNoGap(w', steps[|steps| - 1], cursor, seen);
      }
    }
  }

  /** A visit adds the log's next events, so it leaves no gap either. */
  lemma VisitLeavesNoGap(log: seq<Sequenced>, cursor: nat, seen: seq<Sequenced>, c: Consumer, cut: nat)
    requires Increasing(log) && NoGap(log, cursor, seen) && Ascends(cursor, seen)
    requires cut <= |c.out| && c.out == Seg(log, c.base, c.delivered) && StartsAt(log, CursorAfter(cursor, seen), c)
    ensures var seen' := seen + Gained(log, CursorAfter(cursor, seen), c, cut);
      NoGap(log, cursor, seen') && Ascends(cursor, seen')
  {
    var d := CursorAfter(cursor, seen);
    var u, more := UpTo(log, d), Gained(log, d, c, cut);
    GainedIsNext(log, d, c, cut);
    hide Seg, Gained, StartsAt;
    MoreAscends(log, cursor, seen, more, u);
    if more == [] {
      assert seen + more == seen;
    } else {
      MoreLeavesNoGap(log, cursor, seen, more, u);
    }
  }

  /** What a client gains is the log's next stretch. */
  lemma GainedIsNext(log: seq<Sequenced>, cursor: nat, c: Consumer, cut: nat)
    requires Increasing(log) && cut <= |c.out| && c.out == Seg(log, c.base, c.delivered) && StartsAt(log, cursor, c)
    ensures var u, more := UpTo(log, cursor), Gained(log, cursor, c, cut);
      u + |more| <= |log| && more == log[u..u + |more|]
  {
    SegPrefix(log, c.base, c.delivered, cut);
    var u, v := UpTo(log, cursor), UpTo(log, c.base);
    if cut > 0 && cursor < c.base {
      OwnMessage(log, cursor, c.base);
      assert log[u..v] + log[v..v + cut] == log[u..v + cut];
    }
    hide Seg, Increasing;
  }

  /** Where nothing of the log lies between, the stretch up to a number is that number's entry. */
  lemma OwnMessage(log: seq<Sequenced>, cursor: nat, n: nat)
    requires Increasing(log) && cursor < n && !Between(log, cursor, n)
    ensures UpTo(log, cursor) <= UpTo(log, n) && EntryOf(log, n) == log[UpTo(log, cursor)..UpTo(log, n)]
  {
    var u, v := UpTo(log, cursor), UpTo(log, n);
    UpToMonotone(log, cursor, n);
    forall k | u <= k < v
      ensures log[k].seqNo == n
    {
      assert cursor < log[k].seqNo <= n;
    }
    EntryIs(log, n);
    if u < v {
      assert u + 1 == v;
    }
  }

  lemma {:induction false} EntryIs(log: seq<Sequenced>, n: nat)
    requires Increasing(log)
    ensures forall k :: 0 <= k < |log| && log[k].seqNo == n ==> EntryOf(log, n) == [log[k]]
    ensures (forall k :: 0 <= k < |log| ==> log[k].seqNo != n) ==> EntryOf(log, n) == []
  {
    if log != [] && log[|log| - 1].seqNo != n {
      EntryIs(log[..|log| - 1], n);
    }
  }

  lemma SegPrefix(log: seq<Sequenced>, a: nat, b: nat, cut: nat)
    requires Increasing(log) && cut <= |Seg(log, a, b)|
    ensures UpTo(log, a) + cut <= |log| && Seg(log, a, b)[..cut] == log[UpTo(log, a)..UpTo(log, a) + cut]
  {
    hide Increasing;
  }

  lemma MoreAscends(log: seq<Sequenced>, cursor: nat, seen: seq<Sequenced>, more: seq<Sequenced>, u: nat)
    requires Increasing(log) && Ascends(cursor, seen) && u == UpTo(log, CursorAfter(cursor, seen))
    requires u + |more| <= |log| && more == log[u..u + |more|]
    ensures Ascends(cursor, seen + more)
  {
    EndsAtCursor(cursor, seen);
    SliceAscends(log, u, more, CursorAfter(cursor, seen));
    hide CursorAfter, UpTo;
    JoinAscends(cursor, seen, more, CursorAfter(cursor, seen));
  }

  lemma EndsAtCursor(cursor: nat, seen: seq<Sequenced>)
    requires Ascends(cursor, seen)
    ensures cursor <= CursorAfter(cursor, seen)
    ensures forall k :: 0 <= k < |seen| ==> seen[k].seqNo <= CursorAfter(cursor, seen)
  {
    assert seen != [] ==> seen[|seen| - 1].seqNo > cursor;
  }

  lemma SliceAscends(log: seq<Sequenced>, u: nat, more: seq<Sequenced>, n: nat)
    requires Increasing(log) && u == UpTo(log, n) && u + |more| <= |log| && more == log[u..u + |more|]
    ensures Ascends(n, more)
  {
    assert forall k :: 0 <= k < |more| ==> more[k] == log[u + k];
  }

  lemma JoinAscends(cursor: nat, a: seq<Sequenced>, b: seq<Sequenced>, n: nat)
    requires Ascends(cursor, a) && Ascends(n, b) && cursor <= n
    requires forall k :: 0 <= k < |a| ==> a[k].seqNo <= n
    ensures Ascends(cursor, a + b)
  {
    forall i, j | 0 <= i < j < |a + b|
      ensures (a + b)[i].seqNo < (a + b)[j].seqNo
    {
      if i < |a| <= j {
        assert (a + b)[j] == b[j - |a|];
      }
    }
  }

  lemma MoreLeavesNoGap(log: seq<Sequenced>, cursor: nat, seen: seq<Sequenced>, more: seq<Sequenced>, u: nat)
    requires Increasing(log) && NoGap(log, cursor, seen) && u == UpTo(log, CursorAfter(cursor, seen))
    requires more != [] && u + |more| <= |log| && more == log[u..u + |more|]
    ensures NoGap(log, cursor, seen + more)
  {
    var v := u + |more|;
    MoreEndsAt(log, cursor, seen, more, v);
    hide Increasing, CursorAfter, InLog, LastSeq, UpTo;
    forall n | cursor < n <= CursorAfter(cursor, seen + more) && (InLog(log, n) || n > LastSeq(log))
      ensures InLog(seen + more, n)
    {
      if n <= CursorAfter(cursor, seen) {
        InFirst(seen, more, n);
      } else {
        LogHas(log, u, v, n);
        InSecond(seen, more, n);
      }
    }
  }

  lemma MoreEndsAt(log: seq<Sequenced>, cursor: nat, seen: seq<Sequenced>, more: seq<Sequenced>, v: nat)
    requires more != [] && v <= |log| && |more| <= v && more == log[v - |more|..v]
    ensures CursorAfter(cursor, seen + more) == log[v - 1].seqNo
  {
    assert (seen + more)[|seen + more| - 1] == more[|more| - 1];
  }

  lemma InFirst(a: seq<Sequenced>, b: seq<Sequenced>, n: nat)
    requires InLog(a, n)
    ensures InLog(a + b, n)
  {
    var k :| 0 <= k < |a| && a[k].seqNo == n;
    assert (a + b)[k].seqNo == n;
  }

  lemma InSecond(a: seq<Sequenced>, b: seq<Sequenced>, n: nat)
    requires InLog(b, n)
    ensures InLog(a + b, n)
  {
    var k :| 0 <= k < |b| && b[k].seqNo == n;
    assert (a + b)[|a| + k].seqNo == n;
  }

  lemma LogHas(log: seq<Sequenced>, u: nat, v: nat, n: nat)
    requires Increasing(log) && u < v <= |log| && n <= log[v - 1].seqNo
    requires (forall k :: 0 <= k < u ==> log[k].seqNo < n) && (InLog(log, n) || n > LastSeq(log))
    ensures InLog(log[u..v], n)
  {
    var k :| 0 <= k < |log| && log[k].seqNo == n;
    assert u <= k < v;
    assert log[u..v][k - u] == log[k];
  }

  /** Over any legs, crashes included, a client passes no number by and is sent none twice. */
  lemma {:induction false} LegsLeaveNoGap(w: World, cursor: nat, legs: seq<Leg>)
    requires Reachable(w) && Resumed(w, cursor, legs)
    ensures Reachable(WorldAt(w, legs))
    ensures NoGap(WorldAt(w, legs).log, cursor, Arrived(w, cursor, legs)) && Ascends(cursor, Arrived(w, cursor, legs))
  {
    hide Reachable, NoGap, Ascends, Increasing, Run;
    if legs == [] {
      NothingSeen(w.log, cursor);
    } else {
      var leg, before := legs[|legs| - 1], legs[..|legs| - 1];
      LegsLeaveNoGap(w, cursor, before);
      RunLeavesNoGap(WorldAt(w, before), leg.steps, cursor, Arrived(w, cursor, before));
      var now := WorldAt(w, legs);
      OpenedStartsAt(WorldAt(w, before), CursorAfter(cursor, Arrived(w, cursor, before)), leg.steps, leg.at, leg.i);
      ExactlyOnce(now, leg.i);
      VisitLeavesNoGap(now.log, cursor, Arrived(w, cursor, before), now.consumers[leg.i], leg.cut);
    }
  }

  lemma NothingSeen(log: seq<Sequenced>, cursor: nat)
    ensures NoGap(log, cursor, []) && Ascends(cursor, [])
  {
  }

  // ---- What the log still says -----------------------------------------------------------------

  /** Ascending logs with the same entries are the same. */
  lemma {:induction false} SameEntries(a: seq<Sequenced>, b: seq<Sequenced>)
    requires Increasing(a) && Increasing(b) && forall e :: e in a <==> e in b
    ensures a == b
  {
    if a == [] {
      if b != [] {
        var e := AnEntry(b);
        assert false;
      }
    } else if b == [] {
      var e := AnEntry(a);
      assert false;
    } else {
      var x, y := a[|a| - 1], b[|b| - 1];
      assert x in b && y in a;
      assert x == y;
      var a', b' := a[..|a| - 1], b[..|b| - 1];
      forall e
        ensures e in a' <==> e in b'
      {
        LastIsApart(a, e);
        LastIsApart(b, e);
      }
      SameEntries(a', b');
    }
  }

  lemma AnEntry(a: seq<Sequenced>) returns (e: Sequenced)
    requires a != []
    ensures e in a
  {
    e := a[0];
  }

  lemma LastIsApart(a: seq<Sequenced>, e: Sequenced)
    requires Increasing(a) && a != []
    ensures e in a[..|a| - 1] <==> e in a && e != a[|a| - 1]
  {
  }

  lemma SegEntries(log: seq<Sequenced>, a: nat, b: nat)
    requires Increasing(log)
    ensures Increasing(Seg(log, a, b))
    ensures forall e :: e in Seg(log, a, b) <==> e in log && a < e.seqNo <= b
  {
    var u, v := UpTo(log, a), UpTo(log, b);
    forall e
      ensures e in Seg(log, a, b) <==> e in log && a < e.seqNo <= b
    {
      if e in log && a < e.seqNo <= b {
        var k :| 0 <= k < |log| && log[k] == e;
        assert u <= k < v;
        assert log[u..v][k - u] == e;
      }
    }
  }

  /** What the client holds is the log from its first cursor on, up to its last number. */
  ghost predicate IsStretch(log: seq<Sequenced>, cursor: nat, seen: seq<Sequenced>) {
    Increasing(log) && seen == Seg(log, cursor, CursorAfter(cursor, seen))
  }

  ghost predicate StillLogged(log: seq<Sequenced>, seen: seq<Sequenced>) {
    forall e :: e in seen ==> e in log
  }

  lemma StretchExactlyWhen(log: seq<Sequenced>, cursor: nat, seen: seq<Sequenced>)
    requires Increasing(log) && Ascends(cursor, seen) && NoGap(log, cursor, seen)
    ensures IsStretch(log, cursor, seen) <==> StillLogged(log, seen)
  {
    var c := CursorAfter(cursor, seen);
    SegEntries(log, cursor, c);
    if StillLogged(log, seen) {
      forall e
        ensures e in seen <==> e in Seg(log, cursor, c)
      {
        SeenIsSeg(log, cursor, seen, e);
      }
      hide NoGap, Seg;
      SameEntries(seen, Seg(log, cursor, c));
    }
  }

  lemma SeenIsSeg(log: seq<Sequenced>, cursor: nat, seen: seq<Sequenced>, e: Sequenced)
    requires Increasing(log) && Ascends(cursor, seen) && NoGap(log, cursor, seen) && StillLogged(log, seen)
    ensures e in seen <==> e in log && cursor < e.seqNo <= CursorAfter(cursor, seen)
  {
    if e in log && cursor < e.seqNo <= CursorAfter(cursor, seen) {
      var k :| 0 <= k < |log| && log[k] == e;
      assert InLog(log, e.seqNo);
      var j :| 0 <= j < |seen| && seen[j].seqNo == e.seqNo;
      assert seen[j] in log;
      var m :| 0 <= m < |log| && log[m] == seen[j];
      assert m == k;
    }
  }

  /**
   A client drops and comes back any number of times, in any number of lives of the process. It holds no number twice
   and passes none of the log's by; and what it holds is the log's stretch from its first cursor
   on exactly when every event it holds is still in the log.
   */
  lemma ReconnectAcrossLives(w: World, cursor: nat, legs: seq<Leg>, more: seq<Step>)
    requires Reachable(w) && Resumed(w, cursor, legs)
    ensures var log, seen := Run(WorldAt(w, legs), more).log, Arrived(w, cursor, legs);
      && Increasing(log) && Increasing(seen)
      && (forall n :: cursor < n <= CursorAfter(cursor, seen) && InLog(log, n) ==> InLog(seen, n))
      && (IsStretch(log, cursor, seen) <==> StillLogged(log, seen))
  {
    hide Reachable, Increasing, Run, Inv, IsStretch, StillLogged, InLog;
    LegsLeaveNoGap(w, cursor, legs);
    RunLeavesNoGap(WorldAt(w, legs), more, cursor, Arrived(w, cursor, legs));
    ReachableHolds(Run(WorldAt(w, legs), more));
    StretchExactlyWhen(Run(WorldAt(w, legs), more).log, cursor, Arrived(w, cursor, legs));
  }

  // ---- When what the client holds stays --------------------------------------------------------

  /** Of these events each was written to the thread and none is queued or lost; without a thread nothing is written. */
  ghost predicate AllStored(w: World, seen: seq<Sequenced>) {
    if w.durable
    then forall k :: 0 <= k < |w.log| && w.log[k] in seen ==>
           k < |w.log| - |w.chain| && w.log[k].seqNo !in w.lost
    else seen == []
  }

  /** Whenever the process dies among these steps, all of these events were stored. */
  ghost predicate Spared(w: World, steps: seq<Step>, seen: seq<Sequenced>) {
    steps == [] ||
    (var step, before := steps[|steps| - 1], steps[..|steps| - 1];
     Spared(w, before, seen) && (step.Crash? ==> AllStored(Run(w, before), seen)))
  }

  lemma CrashKeepsExactlyWhen(w: World, seen: seq<Sequenced>)
    requires Reachable(w) && StillLogged(w.log, seen)
    ensures StillLogged(Do(w, Crash).log, seen) <==> AllStored(w, seen)
  {
    if w.durable && w.log != [] {
      CrashKeepsExactlyTheStored(w, |w.log|);
      hide Reachable, Do;
      LoggedByIndex(w.log, Do(w, Crash).log, seen);
    } else if !w.durable {
      hide Reachable;
      assert Do(w, Crash).log == [];
      OfNothing(seen);
    } else {
      hide Reachable, Do;
      OfNothing(seen);
    }
  }

  lemma OfNothing(seen: seq<Sequenced>)
    ensures StillLogged([], seen) <==> seen == []
  {
    assert seen != [] ==> seen[0] in seen;
  }

  lemma LoggedByIndex(log: seq<Sequenced>, kept: seq<Sequenced>, seen: seq<Sequenced>)
    requires StillLogged(log, seen)
    ensures StillLogged(kept, seen) <==> forall k :: 0 <= k < |log| && log[k] in seen ==> log[k] in kept
  {
  }

  lemma StepKeepsExactlyWhen(w: World, step: Step, seen: seq<Sequenced>)
    requires Reachable(w) && Enabled(w, step) && StillLogged(w.log, seen)
    ensures StillLogged(Do(w, step).log, seen) <==> (step.Crash? ==> AllStored(w, seen))
  {
    hide Reachable, Do, Enabled;
    if step.Crash? {
      CrashKeepsExactlyWhen(w, seen);
    } else {
      StepGrows(w, step);
      assert forall k :: 0 <= k < |w.log| ==> Do(w, step).log[k] == w.log[k];
    }
  }

  /** At every moment of these steps the log has all of these events. */
  ghost predicate LoggedThrough(w: World, steps: seq<Step>, seen: seq<Sequenced>) {
    forall k :: 0 <= k <= |steps| ==> StillLogged(Run(w, steps[..k]).log, seen)
  }

  lemma LoggedThroughSnoc(w: World, steps: seq<Step>, seen: seq<Sequenced>)
    requires steps != []
    ensures LoggedThrough(w, steps, seen) <==>
            LoggedThrough(w, steps[..|steps| - 1], seen) && StillLogged(Run(w, steps).log, seen)
  {
    hide Run, StillLogged;
    var before := steps[..|steps| - 1];
    assert forall k :: 0 <= k <= |before| ==> before[..k] == steps[..k];
    assert steps[..|steps|] == steps;
  }

  lemma {:induction false} LoggedThroughExactlyWhen(w: World, steps: seq<Step>, seen: seq<Sequenced>)
    requires Reachable(w) && StillLogged(w.log, seen)
    ensures Reachable(Run(w, steps)) && (LoggedThrough(w, steps, seen) <==> Spared(w, steps, seen))
    ensures LoggedThrough(w, steps, seen) ==> StillLogged(Run(w, steps).log, seen)
  {
    hide Reachable, StillLogged, LoggedThrough, AllStored, Do, Enabled;
    if steps == [] {
      NoStepsKeep(w, seen);
    } else {
      var before, step := steps[..|steps| - 1], steps[|steps| - 1];
      LoggedThroughExactlyWhen(w, before, seen);
      LoggedThroughSnoc(w, steps, seen);
      var w' := Run(w, before);
      CrashIsEnabled(w');
      if Enabled(w', step) {
        ReachableStep(w', step);
        if StillLogged(w'.log, seen) {
          StepKeepsExactlyWhen(w', step, seen);
        }
      }
    }
  }

  lemma NoStepsKeep(w: World, seen: seq<Sequenced>)
    ensures LoggedThrough(w, [], seen) <==> StillLogged(w.log, seen)
  {
    hide StillLogged;
    var none: seq<Step> := [];
    assert none[..0] == none && Run(w, none) == w;
  }

  lemma CrashIsEnabled(w: World)
    ensures Enabled(w, Crash)
  {
  }

  /** At every moment of these steps what the client holds is the log's stretch. */
  ghost predicate StretchThrough(w: World, steps: seq<Step>, cursor: nat, seen: seq<Sequenced>) {
    forall k :: 0 <= k <= |steps| ==> IsStretch(Run(w, steps[..k]).log, cursor, seen)
  }

  /** At every moment of these legs what the client then held was the log's stretch. */
  ghost predicate AlwaysStretch(w: World, cursor: nat, legs: seq<Leg>) {
    legs == [] ||
    (var leg, before := legs[|legs| - 1], legs[..|legs| - 1];
     && AlwaysStretch(w, cursor, before)
     && StretchThrough(WorldAt(w, before), leg.steps, cursor, Arrived(w, cursor, before)))
  }

  /** Whenever the process died, all that the client then held had been stored. */
  ghost predicate AlwaysSpared(w: World, cursor: nat, legs: seq<Leg>) {
    legs == [] ||
    (var leg, before := legs[|legs| - 1], legs[..|legs| - 1];
     AlwaysSpared(w, cursor, before) && Spared(WorldAt(w, before), leg.steps, Arrived(w, cursor, before)))
  }

  lemma StretchThroughEnds(w: World, steps: seq<Step>, cursor: nat, seen: seq<Sequenced>)
    requires StretchThrough(w, steps, cursor, seen)
    ensures IsStretch(Run(w, steps).log, cursor, seen)
  {
    hide Run, IsStretch;
    assert steps[..|steps|] == steps;
  }

  lemma StretchIsLoggedThrough(w: World, cursor: nat, legs: seq<Leg>, more: seq<Step>)
    requires Reachable(w) && Resumed(w, cursor, legs)
    ensures var now, seen := WorldAt(w, legs), Arrived(w, cursor, legs);
      StretchThrough(now, more, cursor, seen) <==> LoggedThrough(now, more, seen)
  {
    var now, seen := WorldAt(w, legs), Arrived(w, cursor, legs);
    hide Reachable, Resumed, WorldAt, Arrived, Run, IsStretch, StillLogged;
    forall k | 0 <= k <= |more|
      ensures IsStretch(Run(now, more[..k]).log, cursor, seen) <==> StillLogged(Run(now, more[..k]).log, seen)
    {
      ReconnectAcrossLives(w, cursor, legs, more[..k]);
    }
  }

  /**
   Over any number of lives, what a returning client holds is at every moment the log from its first cursor on, without
   a hole and without a duplicate, exactly when the process never died while an event it held was queued or lost.
   */
  lemma {:induction false} ReconnectChain(w: World, cursor: nat, legs: seq<Leg>, more: seq<Step>)
    requires Reachable(w) && Resumed(w, cursor, legs)
    ensures var now, seen := WorldAt(w, legs), Arrived(w, cursor, legs);
      AlwaysStretch(w, cursor, legs) && StretchThrough(now, more, cursor, seen) <==>
      AlwaysSpared(w, cursor, legs) && Spared(now, more, seen)
    decreases |legs|
  {
    hide Reachable, StretchThrough, Spared, StillLogged, Run;
    if legs == [] {
    } else {
      ReconnectChain(w, cursor, legs[..|legs| - 1], legs[|legs| - 1].steps);
    }
    if AlwaysStretch(w, cursor, legs) {
      AlwaysStretchIsLogged(w, cursor, legs);
      hide Resumed, WorldAt, Arrived, AlwaysStretch, AlwaysSpared;
      LegsLeaveNoGap(w, cursor, legs);
      LoggedThroughExactlyWhen(WorldAt(w, legs), more, Arrived(w, cursor, legs));
      StretchIsLoggedThrough(w, cursor, legs, more);
    }
  }

  /** What arrives on a leg is of the log, so with what was held before it is all there. */
  lemma AlwaysStretchIsLogged(w: World, cursor: nat, legs: seq<Leg>)
    requires Reachable(w) && Resumed(w, cursor, legs) && AlwaysStretch(w, cursor, legs)
    ensures StillLogged(WorldAt(w, legs).log, Arrived(w, cursor, legs))
  {
    hide Reachable, Run, StretchThrough;
    if legs != [] {
      var leg, before := legs[|legs| - 1], legs[..|legs| - 1];
      LegsLeaveNoGap(w, cursor, legs);
      StretchAtTheEnd(w, cursor, before, leg.steps);
      var now, d := WorldAt(w, legs), CursorAfter(cursor, Arrived(w, cursor, before));
      LegsLeaveNoGap(w, cursor, before);
      OpenedStartsAt(WorldAt(w, before), d, leg.steps, leg.at, leg.i);
      ExactlyOnce(now, leg.i);
      GainedIsNext(now.log, d, now.consumers[leg.i], leg.cut);
      hide Resumed, NoGap, Ascends, Increasing, Seg, IsStretch, AlwaysStretch, Gained, StartsAt;
      SliceIsLogged(now.log, UpTo(now.log, d), Gained(now.log, d, now.consumers[leg.i], leg.cut));
    }
  }

  lemma SliceIsLogged(log: seq<Sequenced>, u: nat, more: seq<Sequenced>)
    requires u + |more| <= |log| && more == log[u..u + |more|]
    ensures StillLogged(log, more)
  {
  }

  lemma StretchAtTheEnd(w: World, cursor: nat, legs: seq<Leg>, more: seq<Step>)
    requires Reachable(w) && Resumed(w, cursor, legs)
    requires StretchThrough(WorldAt(w, legs), more, cursor, Arrived(w, cursor, legs))
    ensures StillLogged(Run(WorldAt(w, legs), more).log, Arrived(w, cursor, legs))
  {
    hide Reachable, Resumed, WorldAt, Arrived, Run, IsStretch, StillLogged;
    ReconnectAcrossLives(w, cursor, legs, more);
    hide StretchThrough;
    StretchThroughEnds(WorldAt(w, legs), more, cursor, Arrived(w, cursor, legs));
  }

  // ---- Within one life -------------------------------------------------------------------------

  ghost predicate CrashFree(legs: seq<Leg>) {
    forall k :: 0 <= k < |legs| ==> Crash !in legs[k].steps
  }

  lemma {:induction false} CrashFreeIsSpared(w: World, steps: seq<Step>, seen: seq<Sequenced>)
    requires Crash !in steps
    ensures Spared(w, steps, seen)
  {
    hide Run, AllStored;
    if steps != [] {
      CrashFreeIsSpared(w, steps[..|steps| - 1], seen);
      assert steps[|steps| - 1] in steps;
    }
  }

  lemma {:induction false} CrashFreeLegsAreSpared(w: World, cursor: nat, legs: seq<Leg>)
    requires CrashFree(legs)
    ensures AlwaysSpared(w, cursor, legs)
  {
    hide Spared;
    if legs != [] {
      var leg, before := legs[|legs| - 1], legs[..|legs| - 1];
      CrashFreeLegsAreSpared(w, cursor, before);
      CrashFreeIsSpared(WorldAt(w, before), leg.steps, Arrived(w, cursor, before));
    }
  }

  /** Within one life of the process, what the client holds is always the log's stretch. */
  lemma ReconnectWithinALife(w: World, cursor: nat, legs: seq<Leg>, more: seq<Step>)
    requires Reachable(w) && Resumed(w, cursor, legs) && CrashFree(legs) && Crash !in more
    ensures AlwaysStretch(w, cursor, legs)
    ensures IsStretch(Run(WorldAt(w, legs), more).log, cursor, Arrived(w, cursor, legs))
  {
    hide *;
    CrashFreeLegsAreSpared(w, cursor, legs);
    CrashFreeIsSpared(WorldAt(w, legs), more, Arrived(w, cursor, legs));
    ReconnectChain(w, cursor, legs, more);
    StretchThroughEnds(WorldAt(w, legs), more, cursor, Arrived(w, cursor, legs));
  }
}

/**
 The replay part of an attach as the loops it is: durable rows, then the ring's copy, each skipping what is known; or,
 without a durable log, the ring's tail or one snapshot. The lists are what the attach finds when it reads them.
 */
module AttachReplay {
  import opened Protocol
  import opened Logs
  import opened SnapshotFold
  import opened Threads
  import opened ReplayModel

  /** The number of the last event a client knows after being shown a list. */
  function Reached(list: seq<Sequenced>, delivered: nat): nat {
    if list == [] then delivered
    else
      var before, last := Reached(list[..|list| - 1], delivered), list[|list| - 1].seqNo;
      if last <= before then before else last
  }

  /** The events of a list that a client shown it in order did not know. */
  function Unseen(list: seq<Sequenced>, delivered: nat): seq<Sequenced> {
    if list == [] then []
    else
      var front, last := list[..|list| - 1], list[|list| - 1];
      Unseen(front, delivered) + if last.seqNo <= Reached(front, delivered) then [] else [last]
  }

  /** One replay loop; the client is found gone at the iteration `goneAt`, if the list reaches it. */
  method ReplayList(list: seq<Sequenced>, known: nat, goneAt: nat) returns (out: seq<Sequenced>, delivered: nat)
    ensures out == Unseen(Shown(list, goneAt), known) && delivered == Reached(Shown(list, goneAt), known)
  {
    out, delivered := [], known;
    for i := 0 to |list|
      invariant i <= goneAt
      invariant out == Unseen(list[..i], known) && delivered == Reached(list[..i], known)
    {
      if i == goneAt { break; }
      assert list[..i + 1][..i] == list[..i];
      var event := list[i];
      if event.seqNo <= delivered { continue; }
      delivered := event.seqNo;
      out := out + [event];
    }
    assert list[..|list|] == list;
  }

  datatype Replay = Replay(out: seq<Sequenced>, snapshot: Option<Snapshot>, delivered: nat)

  /** A list as far as the loop gets before it finds the client gone. */
  function Shown(list: seq<Sequenced>, goneAt: nat): seq<Sequenced> {
    if goneAt < |list| then list[..goneAt] else list
  }

  /** A ring as a session keeps it: the end of an ascending log whose last number is the session's. */
  ghost predicate EndsLog(log: seq<Sequenced>, ring: seq<Sequenced>, seqNo: nat) {
    Increasing(log) && LastSeq(log) == seqNo && |ring| <= |log| && ring == log[|log| - |ring|..]
  }

  /** The ring has every event of the log past this number. */
  ghost predicate HoldsPast(log: seq<Sequenced>, ring: seq<Sequenced>, lastSeq: nat) {
    forall k :: 0 <= k < |log| && log[k].seqNo > lastSeq ==> log[k] in ring
  }

  /** Whether a client with this cursor is told the ring's tail rather than a snapshot. */
  predicate GapFree(lastSeq: nat, ring: seq<Sequenced>, seqNo: nat) {
    lastSeq > 0 && (if ring == [] then lastSeq >= seqNo else lastSeq + 1 >= ring[0].seqNo)
  }

  /**
   The replay of an attach: `durable` are the rows read, if they could be; `ring`, `seqNo` and `snap` the session's when
   they are read. The client is found gone at the iteration `goneAt`, counted through both loops.
   */
  method Attach(
    lastSeq: nat, durable: Option<seq<Sequenced>>, ring: seq<Sequenced>, seqNo: nat, snap: Snapshot, goneAt: nat)
    returns (r: Replay)
    requires Increasing(ring) && (ring != [] ==> LastSeq(ring) == seqNo)
    requires durable.Some? ==>
      Increasing(durable.value) && forall i :: 0 <= i < |durable.value| ==> durable.value[i].seqNo > lastSeq
    ensures durable.Some? && goneAt < |durable.value| ==>
      r == Replay(durable.value[..goneAt], None, EndOf(durable.value[..goneAt], lastSeq))
    ensures durable.Some? && goneAt >= |durable.value| ==>
      var known := EndOf(durable.value, lastSeq);
      var shown := Shown(ring, goneAt - |durable.value|);
      r == Replay(durable.value + PastOf(shown, known), None, EndOf(shown, known))
    ensures durable.None? && GapFree(lastSeq, ring, seqNo) ==>
      r == Replay(PastOf(Shown(ring, goneAt), lastSeq), None, EndOf(Shown(ring, goneAt), lastSeq))
    ensures durable.None? && !GapFree(lastSeq, ring, seqNo) ==> r == Replay([], Some(snap), seqNo)
    // Without rows: a tail only if it is all the client lacks, and on a log without holes whenever it is.
    ensures durable.None? ==> forall log :: EndsLog(log, ring, seqNo) ==>
      && (r.snapshot.None? ==> HoldsPast(log, ring, lastSeq))
      && (Consecutive(log) ==> (r.snapshot.None? <==> lastSeq > 0 && HoldsPast(log, ring, lastSeq)))
  {
    forall log | EndsLog(log, ring, seqNo)
      ensures GapFree(lastSeq, ring, seqNo) ==> HoldsPast(log, ring, lastSeq)
      ensures Consecutive(log) ==> (GapFree(lastSeq, ring, seqNo) <==> lastSeq > 0 && HoldsPast(log, ring, lastSeq))
    {
      GapFreeHolds(log, ring, seqNo, lastSeq);
    }
    hide Unseen, Reached, PastOf, EndOf, Shown, Increasing, EndsLog, HoldsPast, Consecutive;
    if durable.Some? {
      RowsAreUnseen(durable.value, lastSeq, goneAt);
      var rows, reached := ReplayList(durable.value, lastSeq, goneAt);
      if goneAt < |durable.value| {
        // The client is gone at the ring's first iteration too.
        NothingShown(ring, reached);
        var none, same := ReplayList(ring, reached, 0);
        return Replay(rows + none, None, same);
      }
      ShownIsPast(ring, reached, goneAt - |durable.value|);
      var unwritten, last := ReplayList(ring, reached, goneAt - |durable.value|);
      return Replay(rows + unwritten, None, last);
    }
    var oldestBuffered := if ring == [] then seqNo + 1 else ring[0].seqNo;
    var gapFree := lastSeq > 0 && lastSeq >= oldestBuffered - 1;
    if gapFree {
      ShownIsPast(ring, lastSeq, goneAt);
      var tail, last := ReplayList(ring, lastSeq, goneAt);
      return Replay(tail, None, last);
    }
    return Replay([], Some(snap), seqNo);
  }

  /** A tail is told only when it is all the client lacks; on a log without holes, exactly then. */
  lemma GapFreeHolds(log: seq<Sequenced>, ring: seq<Sequenced>, seqNo: nat, lastSeq: nat)
    requires EndsLog(log, ring, seqNo)
    ensures GapFree(lastSeq, ring, seqNo) ==> HoldsPast(log, ring, lastSeq)
    ensures Consecutive(log) ==> (GapFree(lastSeq, ring, seqNo) <==> lastSeq > 0 && HoldsPast(log, ring, lastSeq))
  {
    var m := |log| - |ring|;
    forall k | 0 <= k < |log|
      ensures log[k] in ring <==> k >= m
    {
      if k >= m {
        assert ring[k - m] == log[k];
      }
    }
    if Consecutive(log) && !GapFree(lastSeq, ring, seqNo) && lastSeq > 0 {
      assert log[lastSeq].seqNo == lastSeq + 1 && log[lastSeq] !in ring;
    }
  }

  /** The tail of an ascending list past a number, and the number that leaves a client at. */
  ghost function PastOf(list: seq<Sequenced>, known: nat): seq<Sequenced> {
    if Increasing(list) then list[UpTo(list, known)..] else []
  }

  function EndOf(list: seq<Sequenced>, known: nat): nat {
    if list != [] && LastSeq(list) > known then LastSeq(list) else known
  }

  lemma ShownIsPast(list: seq<Sequenced>, known: nat, goneAt: nat)
    requires Increasing(list)
    ensures Increasing(Shown(list, goneAt))
    ensures Unseen(Shown(list, goneAt), known) == PastOf(Shown(list, goneAt), known)
    ensures Reached(Shown(list, goneAt), known) == EndOf(Shown(list, goneAt), known)
  {
    UnseenIsTail(Shown(list, goneAt), known);
  }

  lemma NothingShown(list: seq<Sequenced>, known: nat)
    ensures Unseen([], known) == [] && Reached([], known) == known && Shown(list, 0) == []
  {
  }

  /** All rows past a cursor are news. */
  lemma RowsAreUnseen(rows: seq<Sequenced>, lastSeq: nat, goneAt: nat)
    requires Increasing(rows) && forall i :: 0 <= i < |rows| ==> rows[i].seqNo > lastSeq
    ensures var shown := Shown(rows, goneAt);
      && shown == (if goneAt < |rows| then rows[..goneAt] else rows)
      && Unseen(shown, lastSeq) == shown
      && Reached(shown, lastSeq) == EndOf(shown, lastSeq)
  {
    var shown := Shown(rows, goneAt);
    assert Increasing(shown);
    UnseenIsTail(shown, lastSeq);
    UpToIs(shown, lastSeq, 0);
    assert shown[0..] == shown;
  }

  /** Of an ascending list, what a client did not know is the tail past its cursor. */
  lemma {:induction false} UnseenIsTail(list: seq<Sequenced>, delivered: nat)
    requires Increasing(list)
    ensures Unseen(list, delivered) == list[UpTo(list, delivered)..]
    ensures Reached(list, delivered) == if list != [] && LastSeq(list) > delivered then LastSeq(list) else delivered
  {
    if list != [] {
      UnseenIsTail(list[..|list| - 1], delivered);
      hide Unseen, Reached, Increasing;
      TailGrows(list, delivered);
      UnseenSnoc(list, delivered);
    }
  }

  lemma UnseenSnoc(list: seq<Sequenced>, delivered: nat)
    requires list != []
    ensures var front, last := list[..|list| - 1], list[|list| - 1];
      var known := last.seqNo <= Reached(front, delivered);
      && Unseen(list, delivered) == Unseen(front, delivered) + (if known then [] else [last])
      && Reached(list, delivered) == if known then Reached(front, delivered) else last.seqNo
  {
  }

  lemma TailGrows(list: seq<Sequenced>, delivered: nat)
    requires Increasing(list) && list != []
    ensures var front, last := list[..|list| - 1], list[|list| - 1];
      && Increasing(front) && (front != [] ==> LastSeq(front) < last.seqNo)
      && list[UpTo(list, delivered)..] ==
         front[UpTo(front, delivered)..] + if last.seqNo <= delivered then [] else [last]
  {
    hide UpTo;
    var front, last := list[..|list| - 1], list[|list| - 1];
    FrontIncreasing(list);
    hide Increasing;
    assert list == front + [last];
    if last.seqNo <= delivered {
      UpToEnd(list, delivered);
      UpToEnd(front, delivered);
    } else {
      UpToGrows(front, last, delivered);
      var u := UpTo(front, delivered);
      assert list[u..] == front[u..] + [last];
    }
  }

  lemma FrontIncreasing(list: seq<Sequenced>)
    requires Increasing(list) && list != []
    ensures var front, last := list[..|list| - 1], list[|list| - 1];
      Increasing(front) && (front != [] ==> LastSeq(front) < last.seqNo) && last.seqNo > LastSeq(front)
  {
  }

  // ---- The loop and the step system ------------------------------------------------------------

  function ReplaySteps(w: World, c: Consumer, n: nat): Consumer {
    if n == 0 then c else Replayed(w, ReplaySteps(w, c, n - 1))
  }

  /** The step system's replay of an undropped consumer is this loop, one iteration a step. */
  lemma {:induction false} StepsAreTheLoop(w: World, c: Consumer, n: nat)
    requires (c.pc.Rows? || c.pc.Ring?) && !c.gone && n <= |c.todo|
    ensures ReplaySteps(w, c, n) ==
      c.(todo := c.todo[n..], out := c.out + Unseen(c.todo[..n], c.delivered),
         delivered := Reached(c.todo[..n], c.delivered))
  {
    if n > 0 {
      StepsAreTheLoop(w, c, n - 1);
      assert c.todo[n - 1..][0] == c.todo[n - 1] && c.todo[n - 1..][1..] == c.todo[n..];
      OneIteration(w, ReplaySteps(w, c, n - 1));
      assert c.todo[..n][..n - 1] == c.todo[..n - 1];
      UnseenSnoc(c.todo[..n], c.delivered);
      hide Replayed, Unseen, Reached;
    }
  }

  lemma OneIteration(w: World, c: Consumer)
    requires (c.pc.Rows? || c.pc.Ring?) && !c.gone && c.todo != []
    ensures var known := c.todo[0].seqNo <= c.delivered;
      Replayed(w, c) == c.(todo := c.todo[1..], out := c.out + (if known then [] else [c.todo[0]]),
        delivered := if known then c.delivered else c.todo[0].seqNo)
  {
  }

  /** Where the step system chooses between tail and snapshot and replays that, it does what the method does. */
  lemma ChoosingIsAttach(w: World, c: Consumer)
    requires c.pc.Choosing? && !c.gone && c.out == [] && c.snap.None?
    requires Increasing(w.hist.ring) && (w.hist.ring != [] ==> LastSeq(w.hist.ring) == w.hist.seqNo)
    ensures var ring, c1 := w.hist.ring, Chosen(w, c);
      var c' := ReplaySteps(w, c1, |c1.todo|);
      && c'.todo == []
      && if GapFree(c.delivered, ring, w.hist.seqNo)
         then c'.out == PastOf(ring, c.delivered) && c'.snap.None? && c'.delivered == EndOf(ring, c.delivered)
         else c'.out == [] && c'.snap == Some(w.hist.snap) && c'.delivered == w.hist.seqNo
  {
    hide *;
    var c1 := Chosen(w, c);
    ChosenShape(w, c);
    StepsAreTheLoop(w, c1, |c1.todo|);
    UnseenIsPast(w.hist.ring, c.delivered);
    NothingShown(c1.todo, c1.delivered);
    assert c1.todo[..|c1.todo|] == c1.todo;
  }

  lemma ChosenShape(w: World, c: Consumer)
    requires c.pc.Choosing? && !c.gone && c.snap.None?
    ensures var c1 := Chosen(w, c);
      && c1.pc.Ring? && !c1.gone && c1.out == c.out
      && if GapFree(c.delivered, w.hist.ring, w.hist.seqNo)
         then c1.todo == w.hist.ring && c1.snap.None? && c1.delivered == c.delivered
         else c1.todo == [] && c1.snap == Some(w.hist.snap) && c1.delivered == w.hist.seqNo
  {
  }

  lemma UnseenIsPast(list: seq<Sequenced>, known: nat)
    requires Increasing(list)
    ensures Unseen(list, known) == PastOf(list, known) && Reached(list, known) == EndOf(list, known)
  {
    UnseenIsTail(list, known);
  }

  /** And where it reads rows and copies the ring behind them. */
  lemma ReadingIsAttach(w: World, c: Consumer)
    requires c.pc.Reading? && !c.gone && c.out == [] && ThreadOk(w.thread)
    requires Increasing(w.hist.ring)
    ensures var rows, c1 := LoadEvents(w.thread, c.delivered), RowsRead(w, c);
      var c2 := Replayed(w, ReplaySteps(w, c1, |rows|));
      var c', known := ReplaySteps(w, c2, |w.hist.ring|), EndOf(rows, c.delivered);
      && c'.pc.Ring? && c'.todo == []
      && c'.out == rows + PastOf(w.hist.ring, known) && c'.snap == c.snap
      && c'.delivered == EndOf(w.hist.ring, known)
  {
    hide *;
    var rows, c1 := LoadEvents(w.thread, c.delivered), RowsRead(w, c);
    LoadIsSortedRows(w.thread, c.delivered);
    RowsPast(rows, c.delivered);
    RowsShape(w, c);
    StepsAreTheLoop(w, c1, |rows|);
    assert c1.todo[..|rows|] == rows && c1.todo[|rows|..] == [] && c.out + rows == rows;
    RowsAreUnseen(rows, c.delivered, |rows|);
    ShownWhole(rows);
    var c1' := ReplaySteps(w, c1, |rows|);
    CopyShape(w, c1');
    var c2 := Replayed(w, c1');
    StepsAreTheLoop(w, c2, |w.hist.ring|);
    assert c2.todo[..|w.hist.ring|] == w.hist.ring;
    UnseenIsPast(w.hist.ring, c2.delivered);
  }

  lemma RowsShape(w: World, c: Consumer)
    ensures var c1 := RowsRead(w, c);
      && c1.pc.Rows? && c1.gone == c.gone && c1.out == c.out && c1.snap == c.snap && c1.delivered == c.delivered
      && c1.todo == LoadEvents(w.thread, c.delivered)
  {
    hide LoadEvents;
  }

  lemma CopyShape(w: World, c: Consumer)
    requires c.pc.Rows? && !c.gone && c.todo == []
    ensures var c2 := Replayed(w, c);
      && c2.pc.Ring? && !c2.gone && c2.out == c.out && c2.snap == c.snap && c2.delivered == c.delivered
      && c2.todo == w.hist.ring
  {
    hide Between, OldestBuffered;
  }

  lemma RowsPast(rows: seq<Sequenced>, n: nat)
    requires forall s: Sequenced :: s in rows ==> s.seqNo > n
    ensures forall i :: 0 <= i < |rows| ==> rows[i].seqNo > n
  {
  }

  lemma ShownWhole(list: seq<Sequenced>)
    ensures Shown(list, |list|) == list
  {
  }
}

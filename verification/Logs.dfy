/** Sequenced logs: strictly increasing numbers, and the stretch of a log between two of them. */
module Logs {
  import opened Protocol

  ghost predicate Increasing(log: seq<Sequenced>) {
    && (forall i :: 0 <= i < |log| ==> log[i].seqNo >= 1)
    && (forall i, j :: 0 <= i < j < |log| ==> log[i].seqNo < log[j].seqNo)
  }

  /** Numbered 1, 2, 3, … with no hole. */
  ghost predicate Consecutive(log: seq<Sequenced>) {
    forall i :: 0 <= i < |log| ==> log[i].seqNo == i + 1
  }

  /** Some entry is numbered past `a` and below `b`. */
  predicate Between(log: seq<Sequenced>, a: nat, b: nat) {
    exists i :: 0 <= i < |log| && a < log[i].seqNo < b
  }

  function LastSeq(log: seq<Sequenced>): nat {
    if log == [] then 0 else log[|log| - 1].seqNo
  }

  /** How many entries are numbered at most `n`. */
  ghost function UpTo(log: seq<Sequenced>, n: nat): (k: nat)
    requires Increasing(log)
    ensures k <= |log|
    ensures forall i :: 0 <= i < k ==> log[i].seqNo <= n
    ensures forall i :: k <= i < |log| ==> log[i].seqNo > n
  {
    if log == [] then 0
    else if log[|log| - 1].seqNo <= n then |log|
    else UpTo(log[..|log| - 1], n)
  }

  /** The entries numbered after `a`, up to and including `b`. */
  ghost function Seg(log: seq<Sequenced>, a: nat, b: nat): seq<Sequenced>
    requires Increasing(log)
  {
    if UpTo(log, a) <= UpTo(log, b) then log[UpTo(log, a)..UpTo(log, b)] else []
  }

  lemma UpToIs(log: seq<Sequenced>, n: nat, k: nat)
    requires Increasing(log) && k <= |log|
    requires k > 0 ==> log[k - 1].seqNo <= n
    requires k < |log| ==> log[k].seqNo > n
    ensures UpTo(log, n) == k
  {
  }

  lemma UpToMonotone(log: seq<Sequenced>, a: nat, b: nat)
    requires Increasing(log) && a <= b
    ensures UpTo(log, a) <= UpTo(log, b)
  {
    var u := UpTo(log, b);
    assert u < |log| ==> log[u].seqNo > b;
  }

  /** The number of an entry counts exactly the entries up to it. */
  lemma UpToEntry(log: seq<Sequenced>, k: nat)
    requires Increasing(log) && k < |log|
    ensures UpTo(log, log[k].seqNo) == k + 1
  {
    UpToIs(log, log[k].seqNo, k + 1);
  }

  lemma UpToEnd(log: seq<Sequenced>, n: nat)
    requires Increasing(log)
    ensures LastSeq(log) <= n <==> UpTo(log, n) == |log|
  {
    if log != [] {
      var u := UpTo(log, n);
      assert u < |log| ==> log[|log| - 1].seqNo > n;
    }
  }

  /** Delivering the first entry past `b` extends the stretch by exactly it. */
  lemma SegExtends(log: seq<Sequenced>, a: nat, b: nat, k: nat)
    requires Increasing(log) && a <= b && UpTo(log, b) == k < |log|
    ensures Seg(log, a, log[k].seqNo) == Seg(log, a, b) + [log[k]]
  {
    UpToEntry(log, k);
    UpToMonotone(log, a, b);
  }

  lemma SegEmpty(log: seq<Sequenced>, a: nat)
    requires Increasing(log)
    ensures Seg(log, a, a) == []
  {
  }

  lemma UpToGrows(log: seq<Sequenced>, s: Sequenced, n: nat)
    requires Increasing(log) && s.seqNo > LastSeq(log)
    ensures Increasing(log + [s])
    ensures n < s.seqNo ==> UpTo(log + [s], n) == UpTo(log, n)
    ensures UpTo(log, n) <= UpTo(log + [s], n)
  {
    IncreasingGrows(log, s);
    var log', u := log + [s], UpTo(log, n);
    assert u > 0 ==> log'[u - 1] == log[u - 1];
    assert u < |log| ==> log'[u] == log[u];
    if n < s.seqNo || u < |log| {
      UpToIs(log', n, u);
    } else {
      UpToEnd(log', n);
    }
  }

  lemma IncreasingGrows(log: seq<Sequenced>, s: Sequenced)
    requires Increasing(log) && s.seqNo > LastSeq(log)
    ensures Increasing(log + [s])
  {
  }

  /** A log's growth leaves a stretch alone that it had already reached the end of, or that is empty. */
  lemma SegStable(log: seq<Sequenced>, s: Sequenced, a: nat, b: nat)
    requires Increasing(log) && s.seqNo > LastSeq(log)
    requires a == b || (a < b <= LastSeq(log))
    ensures Increasing(log + [s]) && Seg(log + [s], a, b) == Seg(log, a, b)
  {
    UpToGrows(log, s, a);
    UpToGrows(log, s, b);
    UpToMonotone(log, a, b);
    var u, v := UpTo(log, a), UpTo(log, b);
    if a != b {
      assert (log + [s])[u..v] == log[u..v];
    }
  }

  lemma ConsecutiveIsIncreasing(log: seq<Sequenced>)
    requires Consecutive(log)
    ensures Increasing(log) && LastSeq(log) == |log|
  {
  }

  lemma ConsecutiveUpTo(log: seq<Sequenced>, n: nat)
    requires Consecutive(log)
    ensures Increasing(log) && UpTo(log, n) == if n <= |log| then n else |log|
  {
    ConsecutiveIsIncreasing(log);
    UpToIs(log, n, if n <= |log| then n else |log|);
  }
}

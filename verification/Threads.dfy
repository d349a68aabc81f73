/**
 Durable composer threads: one conversation per (user, workflow), or per user before the workflow exists. A thread is
 a row of the threads table together with its event rows, which cascade with it; writes to it queue in emit order and
 land, or fail, one at a time.
 */
module Threads {
  import opened Protocol
  import opened Logs

  datatype Thread = Thread(
    userKey: string,
    workflowId: Option<string>,
    sdkSessionId: Option<string>,
    lastSeq: nat,
    rows: map<nat, Event>)

  // ---- One thread's log ------------------------------------------------------------------------

  /** Insert unless the sequence number is taken, and raise `last_seq`: one statement, so both or neither. */
  function Stored(t: Thread, s: Sequenced): Thread {
    t.(rows := if s.seqNo in t.rows then t.rows else t.rows[s.seqNo := s.event],
       lastSeq := if s.seqNo > t.lastSeq then s.seqNo else t.lastSeq)
  }

  /** `last_seq` is the highest sequence number stored, or the zero a thread starts from. */
  ghost predicate ThreadOk(t: Thread) {
    && (forall s :: s in t.rows ==> 1 <= s <= t.lastSeq)
    && (t.lastSeq > 0 ==> t.lastSeq in t.rows)
  }

  function RowsBetween(rows: map<nat, Event>, after: nat, upTo: nat): seq<Sequenced>
    decreases upTo
  {
    if upTo <= after then []
    else RowsBetween(rows, after, upTo - 1) + (if upTo in rows then [Sequenced(rows[upTo], upTo)] else [])
  }

  /** The rows past a number, in ascending order. */
  function LoadEvents(t: Thread, afterSeq: nat): seq<Sequenced> {
    RowsBetween(t.rows, afterSeq, t.lastSeq)
  }

  lemma {:induction false} RowsBetweenIsSorted(rows: map<nat, Event>, after: nat, upTo: nat)
    ensures var log := RowsBetween(rows, after, upTo);
      && Increasing(log)
      && (forall i :: 0 <= i < |log| ==> after < log[i].seqNo <= upTo)
      && (forall s: Sequenced :: s in log <==> after < s.seqNo <= upTo && s.seqNo in rows && rows[s.seqNo] == s.event)
  {
    if after < upTo {
      RowsBetweenIsSorted(rows, after, upTo - 1);
    }
  }

  /** What a load returns: every row after the given number, in strictly increasing order, and nothing else. */
  lemma LoadIsSortedRows(t: Thread, afterSeq: nat)
    requires ThreadOk(t)
    ensures Increasing(LoadEvents(t, afterSeq))
    ensures forall s: Sequenced :: s in LoadEvents(t, afterSeq) <==>
      (s.seqNo > afterSeq && s.seqNo in t.rows && t.rows[s.seqNo] == s.event)
  {
    RowsBetweenIsSorted(t.rows, afterSeq, t.lastSeq);
  }

  function StoredAll(t: Thread, log: seq<Sequenced>): Thread {
    if log == [] then t else Stored(StoredAll(t, log[..|log| - 1]), log[|log| - 1])
  }

  /** No write ever overwrites or removes a row, nor lowers `last_seq` below one. */
  lemma {:induction false} HistoryIsNeverOverwritten(t: Thread, log: seq<Sequenced>)
    requires ThreadOk(t) && forall i :: 0 <= i < |log| ==> log[i].seqNo >= 1
    ensures var t' := StoredAll(t, log);
      && ThreadOk(t') && t'.lastSeq >= t.lastSeq
      && t'.(rows := t.rows, lastSeq := t.lastSeq) == t
      && (forall s :: s in t.rows ==> s in t'.rows && t'.rows[s] == t.rows[s])
      && (forall i :: 0 <= i < |log| ==> log[i].seqNo in t'.rows)
  {
    if log != [] {
      HistoryIsNeverOverwritten(t, log[..|log| - 1]);
    }
  }

  /** Storing an event again, at any later time, changes nothing. */
  lemma AppendIsIdempotent(t: Thread, s: Sequenced, later: seq<Sequenced>)
    requires ThreadOk(t) && s.seqNo >= 1 && forall i :: 0 <= i < |later| ==> later[i].seqNo >= 1
    ensures Stored(StoredAll(Stored(t, s), later), s) == StoredAll(Stored(t, s), later)
  {
    HistoryIsNeverOverwritten(Stored(t, s), later);
  }

  // ---- The threads table -----------------------------------------------------------------------

  predicate HasKey(t: Thread, userKey: string, workflowId: Option<string>) {
    t.userKey == userKey && t.workflowId == workflowId
  }

  function NewThread(userKey: string, workflowId: Option<string>): Thread {
    Thread(userKey, workflowId, None, 0, map[])
  }

  /** The table's keys: at most one thread for each user and workflow, at most one scratch thread for each user. */
  ghost predicate KeysUnique(threads: map<string, Thread>) {
    forall a, b :: a in threads && b in threads && a != b ==>
      !HasKey(threads[a], threads[b].userKey, threads[b].workflowId)
  }

  /** Every keyed thread's workflow exists: deleting a workflow takes its threads. */
  ghost predicate WorkflowsExist(threads: map<string, Thread>, workflows: set<string>) {
    forall id :: id in threads && threads[id].workflowId.Some? ==> threads[id].workflowId.value in workflows
  }

  /** The agent session a thread is to resume, if one is given and the thread is there. */
  function Remembering(threads: map<string, Thread>, threadId: Option<string>, agent: Option<string>)
    : map<string, Thread>
  {
    if threadId.Some? && agent.Some? && threadId.value in threads
    then threads[threadId.value := threads[threadId.value].(sdkSessionId := agent)]
    else threads
  }

  /** `Vanished` is the error of a row gone between insert and select. */
  datatype Resolution = Found(id: string, thread: Thread) | NoWorkflow | Vanished

  datatype Rival = NoRival | Inserts(id: string, thread: Thread) | InsertsAndDeletes

  /** The store: its tables and, per thread, the writes still queued. */
  class ThreadStore {
    var workflows: set<string>
    var threads: map<string, Thread>
    var chains: map<string, seq<Sequenced>>

    ghost predicate Valid()
      reads this
    {
      && KeysUnique(threads)
      && WorkflowsExist(threads, workflows)
      && (forall id :: id in threads ==> ThreadOk(threads[id]))
      && (forall id :: id in chains ==> forall i :: 0 <= i < |chains[id]| ==> chains[id][i].seqNo >= 1)
    }

    ghost function Chain(id: string): seq<Sequenced>
      reads this
    {
      if id in chains then chains[id] else []
    }

    constructor (workflows: set<string>)
      ensures Valid() && threads == map[] && chains == map[] && this.workflows == workflows
    {
      this.workflows, threads, chains := workflows, map[], map[];
    }

    /** The row of a key, if there is one. */
    method Select(userKey: string, workflowId: Option<string>) returns (found: Option<string>)
      requires Valid()
      ensures found.Some? <==> exists id :: id in threads && HasKey(threads[id], userKey, workflowId)
      ensures found.Some? ==> found.value in threads && HasKey(threads[found.value], userKey, workflowId)
    {
      found := None;
      var rest := threads.Keys;
      while rest != {}
        invariant rest <= threads.Keys
        invariant forall id :: id in threads && id !in rest ==> !HasKey(threads[id], userKey, workflowId)
      {
        var id :| id in rest;
        if HasKey(threads[id], userKey, workflowId) {
          return Some(id);
        }
        rest := rest - {id};
      }
    }

    /**
     Find or create the thread of a key. `rival` is what another request does between this one's select and its insert:
     it may insert the key's row, whose events may already be coming in, and it may delete that row again before it is
     selected. The table's unique keys make this insert a no-op then, and the rival's row, if it is there, is the
     thread. The insert fails when the workflow does not exist.
     */
    method Resolve(userKey: string, workflowId: Option<string>, newId: string, rival: Rival)
      returns (r: Resolution)
      requires Valid() && newId !in threads
      requires rival.Inserts? ==>
        && rival.id !in threads
        && ThreadOk(rival.thread) && HasKey(rival.thread, userKey, workflowId)
      modifies this`threads
      ensures Valid()
      ensures forall id |
        && id in old(threads)
        && old(threads)[id].userKey == userKey && old(threads)[id].workflowId == workflowId ::
        r == Found(id, old(threads)[id]) && threads == old(threads)
      ensures (forall id :: id in old(threads) ==>
          !(old(threads)[id].userKey == userKey && old(threads)[id].workflowId == workflowId)) ==>
        if workflowId.Some? && workflowId.value !in workflows then r == NoWorkflow && threads == old(threads)
        else match rival
          case NoRival =>
            r == Found(newId, Thread(userKey, workflowId, None, 0, map[]))
              && threads == old(threads)[newId := Thread(userKey, workflowId, None, 0, map[])]
          case Inserts(id, thread) => r == Found(id, thread) && threads == old(threads)[id := thread]
          case InsertsAndDeletes => r == Vanished && threads == old(threads)
    {
      var found := Select(userKey, workflowId);
      if found.Some? {
        return Found(found.value, threads[found.value]);
      }
      if workflowId.Some? && workflowId.value !in workflows {
        return NoWorkflow;
      }
      r := Insert(userKey, workflowId, newId, rival);
    }

    /** The insert of a row whose key was free, and the select of the winner where it was not free any more. */
    method Insert(userKey: string, workflowId: Option<string>, newId: string, rival: Rival) returns (r: Resolution)
      requires Valid() && newId !in threads && (workflowId.Some? ==> workflowId.value in workflows)
      requires forall id :: id in threads ==> !HasKey(threads[id], userKey, workflowId)
      requires rival.Inserts? ==>
        && rival.id !in threads
        && ThreadOk(rival.thread) && HasKey(rival.thread, userKey, workflowId)
      modifies this`threads
      ensures Valid()
      ensures match rival
        case NoRival =>
          r == Found(newId, NewThread(userKey, workflowId))
            && threads == old(threads)[newId := NewThread(userKey, workflowId)]
        case Inserts(id, thread) => r == Found(id, thread) && threads == old(threads)[id := thread]
        case InsertsAndDeletes => r == Vanished && threads == old(threads)
    {
      if rival.NoRival? {
        threads := threads[newId := NewThread(userKey, workflowId)];
        return Found(newId, threads[newId]);
      }
      if rival.Inserts? {
        threads := threads[rival.id := rival.thread];
        assert HasKey(threads[rival.id], userKey, workflowId);
      }
      hide ThreadOk;
      var winner := Select(userKey, workflowId);
      return if winner.Some? then Found(winner.value, threads[winner.value]) else Vanished;
    }

    /** Clear the thread of a key; its events go with it. */
    method DeleteThread(userKey: string, workflowId: Option<string>) returns (removed: Option<string>)
      requires Valid()
      modifies this`threads
      ensures Valid()
      ensures removed.None? ==> threads == old(threads)
      ensures removed.Some? ==>
        && removed.value in old(threads) && threads == old(threads) - {removed.value}
        && old(threads)[removed.value].userKey == userKey && old(threads)[removed.value].workflowId == workflowId
      ensures forall id :: id in threads ==> !(threads[id].userKey == userKey && threads[id].workflowId == workflowId)
    {
      removed := Select(userKey, workflowId);
      if removed.Some? {
        threads := threads - {removed.value};
      }
    }

    /**
     Move a thread to the workflow created from it. The thread standing there yields its key; when the workflow has
     meanwhile gone, the thread, still scratch, goes with it.
     */
    method Rekey(threadId: string, workflowId: string) returns (moved: bool)
      requires Valid()
      modifies this`threads
      ensures Valid()
      ensures moved <==> workflowId in workflows
      ensures !moved ==> threads == if threadId in old(threads) && old(threads)[threadId].workflowId == None
        then old(threads) - {threadId} else old(threads)
      ensures moved && threadId !in old(threads) ==> threads == old(threads)
      ensures moved && threadId in old(threads) ==>
        var t := old(threads)[threadId];
        && threadId in threads && threads[threadId] == t.(workflowId := Some(workflowId))
        && (forall id :: id in threads <==>
              id in old(threads) && (id == threadId
                || !(old(threads)[id].userKey == t.userKey && old(threads)[id].workflowId == Some(workflowId))))
        && (forall id :: id in threads && id != threadId ==> threads[id] == old(threads)[id])
    {
      if workflowId !in workflows {
        if threadId in threads && threads[threadId].workflowId == None {
          threads := threads - {threadId};
        }
        return false;
      }
      if threadId in threads {
        var user := threads[threadId].userKey;
        threads := map id | id in threads
          && !(HasKey(threads[id], user, Some(workflowId)) && id != threadId) :: threads[id];
        threads := threads[threadId := threads[threadId].(workflowId := Some(workflowId))];
      }
      return true;
    }

    /** Note the agent session a rebuilt session may resume. */
    method RecordSdkSession(threadId: string, agent: string)
      requires Valid()
      modifies this`threads
      ensures Valid() && threads == Remembering(old(threads), Some(threadId), Some(agent))
      ensures threads.Keys == old(threads).Keys
      ensures forall id :: id in threads ==>
        threads[id] == if id == threadId then old(threads)[id].(sdkSessionId := Some(agent)) else old(threads)[id]
    {
      if threadId in threads {
        threads := threads[threadId := threads[threadId].(sdkSessionId := Some(agent))];
      }
    }

    /** Queue one event behind the thread's earlier writes. */
    method Append(threadId: string, event: Sequenced)
      requires Valid() && event.seqNo >= 1
      modifies this`chains
      ensures Valid()
      ensures chains == old(chains)[threadId := old(Chain(threadId)) + [event]]
    {
      var queued := if threadId in chains then chains[threadId] else [];
      chains := chains[threadId := queued + [event]];
    }

    /**
     The oldest queued write settles. It fails when the database does, or when its thread is gone; a failure stores
     nothing and the chain moves on.
     */
    method Settle(threadId: string, databaseOk: bool)
      requires Valid() && threadId in chains && chains[threadId] != []
      modifies this`threads, this`chains
      ensures Valid()
      ensures Chain(threadId) == old(Chain(threadId))[1..]
      ensures forall id :: id != threadId ==> Chain(id) == old(Chain(id))
      ensures threads == if databaseOk && threadId in old(threads)
        then old(threads)[threadId := Stored(old(threads)[threadId], old(Chain(threadId))[0])]
        else old(threads)
    {
      var event := chains[threadId][0];
      if databaseOk && threadId in threads {
        threads := threads[threadId := Stored(threads[threadId], event)];
      }
      if |chains[threadId]| == 1 {
        chains := chains - {threadId};
      } else {
        chains := chains[threadId := chains[threadId][1..]];
      }
    }
  }
}

/**
 The process's sessions: a capped table that makes room by dropping the session idle the longest, never a busy one.
 */
module SessionStores {
  import opened Protocol
  import opened JsMaps

  const MAX_SESSIONS: nat := 200

  /** What the table looks at in a session. */
  datatype Slot = Slot(busy: bool, lastUsedAt: int, threadId: Option<string>)

  ghost predicate Idle(m: JsMap<Slot>, id: string) {
    id in m.at && !m.at[id].busy
  }

  /** Idle the longest; of several, the one created first. */
  ghost predicate OldestIdle(m: JsMap<Slot>, i: nat) {
    && i < |m.keys| && Idle(m, m.keys[i])
    && forall j | 0 <= j < |m.keys| && Idle(m, m.keys[j]) ::
         m.at[m.keys[i]].lastUsedAt < m.at[m.keys[j]].lastUsedAt
         || (m.at[m.keys[i]].lastUsedAt == m.at[m.keys[j]].lastUsedAt && i <= j)
  }

  /** Bound to the thread, and created before every other that is. */
  ghost predicate FirstBound(m: JsMap<Slot>, i: nat, threadId: string) {
    && i < |m.keys| && m.keys[i] in m.at && m.at[m.keys[i]].threadId == Some(threadId)
    && forall j :: 0 <= j < i ==> m.keys[j] in m.at && m.at[m.keys[j]].threadId != Some(threadId)
  }

  class SessionStore {
    var sessions: JsMap<Slot>

    ghost predicate Valid()
      reads this
    {
      sessions.Valid()
    }

    constructor ()
      ensures Valid() && sessions == Empty()
    {
      sessions := Empty();
    }

    /** Room is made only at the cap, and only at the cost of the oldest idle session. */
    method EvictOldestIdle() returns (evicted: Option<string>)
      requires Valid()
      modifies this
      ensures Valid()
      ensures evicted.None? ==> sessions == old(sessions) && forall id :: id in sessions.at ==> sessions.at[id].busy
      ensures evicted.Some? ==> sessions == old(sessions).Delete(evicted.value)
      ensures evicted.Some? ==> exists i: nat :: OldestIdle(old(sessions), i) && old(sessions).keys[i] == evicted.value
    {
      var oldest := -1;
      for i := 0 to |sessions.keys|
        invariant -1 <= oldest < i
        invariant oldest == -1 ==> forall j :: 0 <= j < i ==> !Idle(sessions, sessions.keys[j])
        invariant oldest >= 0 ==> Idle(sessions, sessions.keys[oldest])
        invariant oldest >= 0 ==> forall j | 0 <= j < i && Idle(sessions, sessions.keys[j]) ::
          sessions.at[sessions.keys[oldest]].lastUsedAt < sessions.at[sessions.keys[j]].lastUsedAt
          || (sessions.at[sessions.keys[oldest]].lastUsedAt == sessions.at[sessions.keys[j]].lastUsedAt && oldest <= j)
      {
        assert sessions.keys[i] in sessions.keys && (oldest >= 0 ==> sessions.keys[oldest] in sessions.keys);
        var s := sessions.at[sessions.keys[i]];
        if !s.busy && (oldest == -1 || s.lastUsedAt < sessions.at[sessions.keys[oldest]].lastUsedAt) {
          oldest := i;
        }
      }
      if oldest == -1 {
        forall id | id in sessions.at
          ensures sessions.at[id].busy
        {
          assert id in sessions.keys;
          var j :| 0 <= j < |sessions.keys| && sessions.keys[j] == id;
          assert !Idle(sessions, sessions.keys[j]);
        }
        return None;
      }
      assert OldestIdle(sessions, oldest);
      evicted := Some(sessions.keys[oldest]);
      DeleteKeepsValid(sessions, evicted.value);
      sessions := sessions.Delete(evicted.value);
    }

    /**
     A new session joins last; every busy session stays, and the cap is passed only when every other session is busy.
     */
    method Create(newId: string, now: int)
      requires Valid() && newId !in sessions.at
      modifies this
      ensures Valid() && newId in sessions.at && sessions.at[newId] == Slot(false, now, None)
      ensures forall id :: id in old(sessions).at && old(sessions).at[id].busy ==>
        id in sessions.at && sessions.at[id] == old(sessions).at[id]
      ensures forall id :: id in sessions.at && id != newId ==>
        id in old(sessions).at && sessions.at[id] == old(sessions).at[id]
      ensures |old(sessions).keys| < 200 ==> sessions == old(sessions).Set(newId, Slot(false, now, None))
      ensures |old(sessions).keys| >= 200 && (forall id :: id in old(sessions).at ==> old(sessions).at[id].busy) ==>
        sessions == old(sessions).Set(newId, Slot(false, now, None))
      ensures |old(sessions).keys| >= 200 && (exists id :: id in old(sessions).at && !old(sessions).at[id].busy) ==>
        exists i: nat :: OldestIdle(old(sessions), i)
          && sessions == old(sessions).Delete(old(sessions).keys[i]).Set(newId, Slot(false, now, None))
      ensures |old(sessions).keys| <= 200 && |sessions.keys| > 200 ==>
        (forall id :: id in sessions.at && id != newId ==> sessions.at[id].busy)
    {
      if |sessions.keys| >= MAX_SESSIONS {
        var evicted := EvictOldestIdle();
        if evicted.Some? {
          DeleteShrinks(old(sessions), evicted.value);
        }
      }
      SetKeepsValid(sessions, newId, Slot(false, now, None));
      sessions := sessions.Set(newId, Slot(false, now, None));
    }

    /** The first session bound to a thread; finding it counts as use. */
    method FindByThread(threadId: string, now: int) returns (found: Option<string>)
      requires Valid()
      modifies this
      ensures Valid() && sessions.keys == old(sessions).keys
      ensures found.None? ==> sessions == old(sessions) && forall id :: id in sessions.at ==>
        sessions.at[id].threadId != Some(threadId)
      ensures found.Some? ==>
        found.value in old(sessions).at && old(sessions).at[found.value].threadId == Some(threadId)
      ensures found.Some? ==>
        exists i: nat :: FirstBound(old(sessions), i, threadId) && old(sessions).keys[i] == found.value
      ensures found.Some? ==>
        sessions == old(sessions).Set(found.value, old(sessions).at[found.value].(lastUsedAt := now))
    {
      for i := 0 to |sessions.keys|
        invariant sessions == old(sessions)
        invariant forall j :: 0 <= j < i ==>
          sessions.keys[j] in sessions.at && sessions.at[sessions.keys[j]].threadId != Some(threadId)
      {
        var id := sessions.keys[i];
        assert id in sessions.keys;
        if sessions.at[id].threadId == Some(threadId) {
          assert FirstBound(sessions, i, threadId);
          SetKeepsValid(sessions, id, sessions.at[id].(lastUsedAt := now));
          sessions := sessions.Set(id, sessions.at[id].(lastUsedAt := now));
          return Some(id);
        }
      }
      return None;
    }
  }

  lemma DeleteShrinks(m: JsMap<Slot>, id: string)
    requires m.Valid() && id in m.at
    ensures |m.Delete(id).keys| == |m.keys| - 1
  {
    WithoutOnce(m.keys, id);
  }

  lemma {:induction false} WithoutOnce(keys: seq<string>, id: string)
    requires forall i, j :: 0 <= i < j < |keys| ==> keys[i] != keys[j]
    ensures |Without(keys, id)| == |keys| - if id in keys then 1 else 0
  {
    if keys != [] {
      WithoutOnce(keys[..|keys| - 1], id);
    }
  }
}

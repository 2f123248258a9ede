/** The per-session delivery counter of internal/pkg/httpsrv/stats.go: a table
    from session id to `sessionStats{id, sent}`, with create-or-bump, copy-out
    read and delete. The mutex only serialises callers; each method is one
    atomic update of the table. */
module Stats {
  import opened Wrappers

  /** One row of the table; `sent` counts messages delivered to the session. */
  datatype SessionStats = SessionStats(id: string, sent: nat)

  type Sessions = map<string, SessionStats>

  /** Every row is filed under its own id and was created by a delivery. */
  ghost predicate WellFormed(m: Sessions)
  {
    forall k :: k in m ==> m[k].id == k && m[k].sent >= 1
  }

  /** The table after `increment(id)`. */
  function Incremented(m: Sessions, id: string): Sessions
  {
    if id in m then m[id := m[id].(sent := m[id].sent + 1)]
    else m[id := SessionStats(id, 1)]
  }

  /** The copy `getStats(id)` hands out; `None` stands for nil. */
  function Lookup(m: Sessions, id: string): Option<SessionStats>
  {
    if id in m then Some(SessionStats(m[id].id, m[id].sent)) else None
  }

  /** The table after `removeStats(id)`. */
  function Removed(m: Sessions, id: string): Sessions
  {
    if id in m then m - {id} else m
  }

  /** The table after `k` calls of `increment(id)`. */
  function IncrementedTimes(m: Sessions, id: string, k: nat): Sessions
  {
    if k == 0 then m else Incremented(IncrementedTimes(m, id, k - 1), id)
  }

  /** increment on an absent id files a new row under that id, with one send. */
  lemma IncrementCreates(m: Sessions, id: string)
    requires id !in m
    ensures id in Incremented(m, id) && Incremented(m, id)[id] == SessionStats(id, 1)
  {
  }

  /** increment on a present id adds exactly one to its count and keeps its id. */
  lemma IncrementBumps(m: Sessions, id: string)
    requires id in m
    ensures id in Incremented(m, id)
    ensures Incremented(m, id)[id].sent == m[id].sent + 1
    ensures Incremented(m, id)[id].id == m[id].id
  {
  }

  /** increment touches no other row and adds no other key. */
  lemma IncrementFrames(m: Sessions, id: string)
    ensures Incremented(m, id).Keys == m.Keys + {id}
    ensures forall k :: k in m && k != id ==> Incremented(m, id)[k] == m[k]
  {
  }

  /** k increments of an id the table did not hold leave a row with count k
      and leave every other row as it was. */
  lemma {:induction false} FreshIdCountsIncrements(m: Sessions, id: string, k: nat)
    requires id !in m && k >= 1
    ensures id in IncrementedTimes(m, id, k)
    ensures IncrementedTimes(m, id, k)[id] == SessionStats(id, k)
    ensures IncrementedTimes(m, id, k).Keys == m.Keys + {id}
    ensures forall j :: j in m ==> IncrementedTimes(m, id, k)[j] == m[j]
  {
    if k > 1 {
      FreshIdCountsIncrements(m, id, k - 1);
    }
  }

  /** getStats finds a row exactly when the id is in the table, and the copy
      carries the row's id and count. */
  lemma LookupFindsRow(m: Sessions, id: string)
    requires WellFormed(m)
    ensures Lookup(m, id).Some? <==> id in m
    ensures Lookup(m, id).Some? ==>
      Lookup(m, id).value == m[id] && Lookup(m, id).value.id == id && Lookup(m, id).value.sent >= 1
  {
  }

  /** removeStats deletes exactly the row for id; removing an absent id
      changes nothing. */
  lemma RemoveDeletesOnlyId(m: Sessions, id: string)
    ensures Removed(m, id).Keys == m.Keys - {id}
    ensures forall k :: k in Removed(m, id) ==> Removed(m, id)[k] == m[k]
    ensures id !in m ==> Removed(m, id) == m
  {
  }

  /** Both updates keep every row filed under its own id with a positive count. */
  lemma UpdatesKeepWellFormed(m: Sessions, id: string)
    requires WellFormed(m)
    ensures WellFormed(Incremented(m, id)) && WellFormed(Removed(m, id))
  {
  }

  /** Deleting a session after any number of deliveries leaves the table as it
      was before the session's first delivery. */
  lemma {:induction false} RemoveUndoesIncrements(m: Sessions, id: string, k: nat)
    requires id !in m
    ensures Removed(IncrementedTimes(m, id, k), id) == m
  {
    if k >= 1 {
      FreshIdCountsIncrements(m, id, k);
      assert IncrementedTimes(m, id, k) - {id} == m;
    }
  }

  /** `statsManager`. */
  class StatsManager {
    var sessions: Sessions

    ghost predicate Valid()
      reads this
    {
      WellFormed(sessions)
    }

    /** `newStatsManager`: no sessions. */
    constructor ()
      ensures Valid() && sessions == map[]
    {
      sessions := map[];
    }

    method Increment(id: string)
      requires Valid()
      modifies this
      ensures Valid() && sessions == Incremented(old(sessions), id)
    {
      if id in sessions {
        var stats := sessions[id];
        sessions := sessions[id := stats.(sent := stats.sent + 1)];
      } else {
        sessions := sessions[id := SessionStats(id, 1)];
      }
    }

    /** A copy of the row, or `None` for nil; the table is only read. */
    method GetStats(id: string) returns (r: Option<SessionStats>)
      requires Valid()
      ensures r.Some? <==> id in sessions
      ensures r.Some? ==> r.value == sessions[id] && r.value.id == id && r.value.sent >= 1
    {
      if id in sessions {
        var stats := sessions[id];
        r := Some(SessionStats(stats.id, stats.sent));
      } else {
        r := None;
      }
    }

    /** Deletes the row of id; `logged` is the row written to the log, if any. */
    method RemoveStats(id: string) returns (logged: Option<SessionStats>)
      requires Valid()
      modifies this
      ensures Valid() && sessions == Removed(old(sessions), id)
      ensures logged == Lookup(old(sessions), id)
    {
      if id in sessions {
        logged := Some(sessions[id]);
        sessions := sessions - {id};
      } else {
        logged := None;
      }
    }
  }

  /** The part of `Server` that owns the statistics. */
  class Server {
    const stats: StatsManager

    /** `initStats`, as run by `New`. */
    constructor ()
      ensures fresh(stats) && stats.Valid() && stats.sessions == map[]
    {
      stats := new StatsManager();
    }

    method IncStats(id: string)
      requires stats.Valid()
      modifies stats
      ensures stats.Valid() && stats.sessions == Incremented(old(stats.sessions), id)
    {
      stats.Increment(id);
    }

    method RemoveStats(id: string)
      requires stats.Valid()
      modifies stats
      ensures stats.Valid() && stats.sessions == Removed(old(stats.sessions), id)
    {
      var _ := stats.RemoveStats(id);
    }
  }
}

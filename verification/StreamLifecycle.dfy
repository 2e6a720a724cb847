// The shared table of request lifecycles (internal/plugin/request_lifecycle.go).
module StreamLifecycle {
  import opened Base

  type Id = string
  type Rid = string

  // One live lifecycle entry. `bound` is the stream's reservation once the entry knows it.
  datatype Entry = Entry(createdAt: int, bound: Option<Id>, canceled: bool, clientFinished: bool)

  type Entries = map<Rid, Entry>

  const PENDING_TTL: int := 300_000

  predicate Expired(e: Entry, now: int) {
    e.bound.None? && now - e.createdAt >= PENDING_TTL
  }

  function Prune(entries: Entries, now: int): Entries {
    map id | id in entries && !Expired(entries[id], now) :: entries[id]
  }

  function Track(entries: Entries, id: Rid, now: int): Entries {
    if id == "" then entries else Prune(entries, now)[id := Entry(now, None, false, false)]
  }

  // The table after binding, and whether the client is already gone.
  function Bind(entries: Entries, id: Rid, reservation: Id): (Entries, bool) {
    if id == "" || reservation == "" || id !in entries then (entries, false)
    else if entries[id].canceled then (entries - {id}, true)
    else (entries[id := entries[id].(bound := Some(reservation))], false)
  }

  function Clear(entries: Entries, id: Rid): Entries {
    if id == "" then entries else entries - {id}
  }

  // The gate: whether the upstream call may start.
  predicate MayLaunch(entries: Entries, id: Rid) {
    id == "" || id !in entries || !entries[id].canceled
  }

  // The table after a completion callback, and the reservation whose client slot it frees.
  function Complete(entries: Entries, id: Rid, canceled: bool): (Entries, Option<Id>) {
    if id == "" || id !in entries then (entries, None)
    else if !canceled then (entries - {id}, None)
    else
      var e := entries[id];
      (entries[id := e.(canceled := true, clientFinished := e.clientFinished || e.bound.Some?)],
       if e.clientFinished then None else e.bound)
  }

  // An entry that is not bound within five minutes is forgotten by the next tracked request; no other
  // entry is.
  lemma TrackForgets(entries: Entries, id: Rid, now: int, x: Rid)
    requires id != "" && x != id
    ensures x in Track(entries, id, now) <==>
            x in entries && (entries[x].bound.Some? || now - entries[x].createdAt < 300_000)
    ensures x in Track(entries, id, now) ==> Track(entries, id, now)[x] == entries[x]
  {
  }

  class StreamLifecycles {
    var entries: Entries

    constructor ()
      ensures entries == map[]
    {
      entries := map[];
    }

    method TrackStream(id: Rid, now: int)
      modifies this
      ensures entries == Track(old(entries), id, now)
    {
      if id == "" {
        return;
      }
      PruneExpired(now);
      entries := entries[id := Entry(now, None, false, false)];
    }

    // pruneStreamLifecyclesLocked: bound entries are kept whatever their age.
    method PruneExpired(now: int)
      modifies this
      ensures entries == Prune(old(entries), now)
    {
      var todo := entries;
      while todo.Keys != {}
        invariant todo.Keys <= old(entries).Keys && forall id | id in todo :: todo[id] == old(entries)[id]
        invariant entries == map id | id in old(entries) && (id in todo || !Expired(old(entries)[id], now)) ::
                  old(entries)[id]
        decreases todo.Keys
      {
        var id :| id in todo;
        if todo[id].bound.None? && now - todo[id].createdAt >= PENDING_TTL {
          entries := entries - {id};
        }
        todo := todo - {id};
      }
    }

    method BindStream(id: Rid, reservation: Id) returns (gone: bool)
      modifies this
      ensures (entries, gone) == Bind(old(entries), id, reservation)
    {
      if id == "" || reservation == "" || id !in entries {
        return false;
      }
      if entries[id].canceled {
        entries := entries - {id};
        return true;
      }
      entries := entries[id := entries[id].(bound := Some(reservation))];
      gone := entries[id].canceled;
    }

    method BeginUpstream(id: Rid) returns (ok: bool)
      ensures ok == MayLaunch(entries, id)
    {
      if id == "" || id !in entries {
        return true;
      }
      ok := !entries[id].canceled;
    }

    // The reservation whose client slot the caller must free, if any.
    method CompleteStream(id: Rid, canceled: bool) returns (frees: Option<Id>)
      modifies this
      ensures (entries, frees) == Complete(old(entries), id, canceled)
    {
      if id == "" || id !in entries {
        return None;
      }
      if !canceled {
        entries := entries - {id};
        return None;
      }
      var e := entries[id].(canceled := true);
      frees := None;
      if e.bound.Some? && !e.clientFinished {
        e := e.(clientFinished := true);
        frees := e.bound;
      }
      entries := entries[id := e];
    }

    method ClearStream(id: Rid)
      modifies this
      ensures entries == Clear(old(entries), id)
    {
      if id != "" {
        entries := entries - {id};
      }
    }
  }
}

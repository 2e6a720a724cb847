// What the other store calls answer (internal/store/settle.go, reserve.go, execution.go, usage.go,
// spend_reset.go, attempt.go): for every input the error, or the rows and counters that change, written
// out; whatever is not mentioned stays as it was.
module StoreAnswers {
  import opened Base
  import opened Sums
  import opened Ledger
  import opened LedgerInvariant
  import opened LedgerSteps
  import opened LedgerRuns
  import ReserveAnswers
  import Store

  // One key, one reservation and at most one row of a database replaced.
  function Replaced(db: Db, k: Id, key: Key, id: Id, r: Reservation): Db {
    Db(db.callers, db.keys[k := key], db.reservations[id := r], db.ledger)
  }

  // A held reservation is settled under a free row id: its hold turns into spend, and a row says for
  // which model, tokens and cost, at which time and whether by the fallback.
  lemma SettleAnswers(db: Db, row: Id, id: Id, model: string, tokens: int, cost: int, fallback: bool, now: int)
    requires Valid(db)
    ensures var result := Settle(db, row, id, model, tokens, cost, fallback, now);
            if id == "" || model == "" || cost < 0 || tokens < 0 then result == (db, Err(InvalidArgument))
            else if id !in db.reservations then result == (db, Err(ReservationNotFound))
            else
              var r := db.reservations[id];
              match r.status
              case Settled => result == (db, Ok(r))
              case Released => result == (db, Err(ReservationFinalized))
              case Held =>
                if row in db.ledger then result == (db, Err(StorageConflict))
                else
                  var key := db.keys[r.key];
                  var after := key.(held := key.held - r.held, settled := key.settled + cost);
                  var settled := r.(model := model, settledCost := Some(cost), status := Settled, updated := now);
                  var entry := Row(id, r.caller, r.key, model, tokens, cost, now, fallback);
                  result == (Replaced(db, r.key, after, id, settled).(ledger := db.ledger[row := entry]), Ok(settled))
  {
    if id in db.reservations {
      assert ReservationFits(db.keys, db.reservations[id]);
      if db.reservations[id].status.Held? {
        HeldHasNoRow(db, id);
      }
    }
  }

  // A held reservation is released: its hold goes back to its key.
  lemma ReleaseAnswers(db: Db, id: Id, now: int)
    requires Valid(db)
    ensures var result := Release(db, id, now);
            if id == "" then result == (db, Err(InvalidArgument))
            else if id !in db.reservations then result == (db, Err(ReservationNotFound))
            else
              var r := db.reservations[id];
              match r.status
              case Released => result == (db, Ok(r))
              case Settled => result == (db, Err(ReservationFinalized))
              case Held =>
                var key, released := db.keys[r.key], r.(status := Released, updated := now);
                result == (Replaced(db, r.key, key.(held := key.held - r.held), id, released), Ok(released))
  {
    if id in db.reservations && db.reservations[id].status.Held? {
      Store.ReleaseOneRow(db, id, now);
    }
  }

  // What key k holds in the listed reservations.
  ghost function HeldAmong(db: Db, ids: seq<Id>, k: Id): int {
    SumMap(db.reservations, (id: Id, r: Reservation) => if id in ids && r.key == k then r.held else 0)
  }

  ghost predicate RowsReleased(before: map<Id, Reservation>, ids: seq<Id>, now: int, after: map<Id, Reservation>) {
    after.Keys == before.Keys
    && forall id | id in before ::
         after[id] == if id in ids then before[id].(status := Released, updated := now) else before[id]
  }

  ghost predicate HoldsReturned(db: Db, ids: seq<Id>, after: map<Id, Key>) {
    after.Keys == db.keys.Keys
    && forall k | k in db.keys :: after[k] == db.keys[k].(held := db.keys[k].held - HeldAmong(db, ids, k))
  }

  // The listed rows are released, and each key gets back the sum of its holds among them.
  ghost predicate AllReleased(db: Db, ids: seq<Id>, now: int, after: Db) {
    && after.callers == db.callers && after.ledger == db.ledger
    && RowsReleased(db.reservations, ids, now, after.reservations) && HoldsReturned(db, ids, after.keys)
  }

  lemma OneKeyReturned(db: Db, ids: seq<Id>, now: int, k: Id)
    requires Valid(db) && CanRelease(db, IdSet(ids)) && k in db.keys
    ensures ReleaseSet(db, IdSet(ids), now).keys[k] == db.keys[k].(held := db.keys[k].held - HeldAmong(db, ids, k))
  {
    ReleaseReturnsHolds(db, IdSet(ids), now, k);
    SumSame(db.reservations, db.reservations,
            (id: Id, r: Reservation) => if id in IdSet(ids) && r.key == k then r.held else 0,
            (id: Id, r: Reservation) => if id in ids && r.key == k then r.held else 0);
  }

  lemma ReleaseSetReleases(db: Db, ids: seq<Id>, now: int)
    requires Valid(db) && CanRelease(db, IdSet(ids))
    ensures AllReleased(db, ids, now, ReleaseSet(db, IdSet(ids), now))
  {
    var after := ReleaseSet(db, IdSet(ids), now);
    assert RowsReleased(db.reservations, ids, now, after.reservations);
    assert HoldsReturned(db, ids, after.keys) by {
      forall k | k in db.keys ensures after.keys[k] == db.keys[k].(held := db.keys[k].held - HeldAmong(db, ids, k)) {
        OneKeyReturned(db, ids, now, k);
      }
    }
  }

  // A batch of pairwise distinct held reservations is released as a whole; any other batch changes
  // nothing.
  lemma BatchAnswers(db: Db, ids: seq<Id>, now: int)
    requires Valid(db)
    ensures var distinct := forall i, j | 0 <= i < j < |ids| :: ids[i] != ids[j];
            var held := forall id | id in ids ::
              id != "" && id in db.reservations && db.reservations[id].status == Held;
            if distinct && held then AllReleased(db, ids, now, ReleaseBatch(db, ids, now))
            else ReleaseBatch(db, ids, now) == db
  {
    BatchSucceeds(db, ids);
    assert forall i | 0 <= i < |ids| :: ids[i] in ids;
    if BatchFailure(db, ids).None? {
      ReleaseSetReleases(db, ids, now);
    }
  }

  // The stale release takes exactly the holds last touched before the deadline.
  lemma StaleAnswers(db: Db, olderThan: int, now: int, stale: seq<Id>)
    requires Valid(db)
    requires forall id :: id in stale <==>
               id in db.reservations && db.reservations[id].status == Held && db.reservations[id].updated < olderThan
    ensures AllReleased(db, stale, now, ReleaseStale(db, olderThan, now))
  {
    assert IdSet(stale) == StaleIds(db, olderThan);
    ReleaseSetReleases(db, stale, now);
  }

  // Only a held reservation is touched, and only a held one not yet marked is marked finished.
  lemma MarkAnswers(db: Db, id: Id, now: int)
    requires Valid(db)
    ensures if id == "" || id !in db.reservations || db.reservations[id].status != Held
            then Touch(db, id, now) == db && FinishExecution(db, id, now) == db
            else
              var r := db.reservations[id];
              && Touch(db, id, now) == db.(reservations := db.reservations[id := r.(updated := now)])
              && FinishExecution(db, id, now)
                 == if r.finished.Some? then db
                    else db.(reservations := db.reservations[id := r.(finished := Some(now))])
  {
  }

  // A row takes new tokens and a new cost and is no fallback any more; the reservation follows the
  // cost, and the key too if its total counts the row, though never below 0.
  lemma RepriceAnswers(db: Db, row: Id, tokens: int, cost: int, now: int)
    requires Valid(db)
    ensures var result := Reprice(db, row, tokens, cost, now);
            if row == "" || cost < 0 || tokens < 0 || row !in db.ledger then result == (db, Err(InvalidArgument))
            else
              var before := db.ledger[row];
              var r, key := db.reservations[before.reservation], db.keys[before.key];
              var counted := key.totalReset.None? || key.totalReset.value <= before.created;
              var priced := if counted then key.(settled := Max(0, key.settled - before.cost + cost)) else key;
              var costed := if cost == before.cost then r else r.(settledCost := Some(cost), updated := now);
              var entry := before.(tokens := tokens, cost := cost, fallback := false);
              var after := Replaced(db, before.key, priced, before.reservation, costed);
              result == (after.(ledger := db.ledger[row := entry]), Ok(()))
  {
    if row != "" && cost >= 0 && tokens >= 0 && row in db.ledger {
      Store.RepriceStored(db, row, tokens, cost, now);
    }
  }

  // The tokens of a pattern since a start follow a new token count exactly where the row counts.
  lemma RepriceMovesTokens(env: Env, db: Db, row: Id, tokens: int, cost: int, now: int, k: Id, pattern: string,
                           from: int)
    requires Valid(db) && row != "" && tokens >= 0 && cost >= 0 && row in db.ledger
    ensures var before := db.ledger[row];
            var counts := before.key == k && before.created >= from && ReserveAnswers.Names(env, pattern, before.model);
            ReserveAnswers.RowUse(env, Reprice(db, row, tokens, cost, now).0, k, pattern, from)
            == ReserveAnswers.RowUse(env, db, k, pattern, from) + (if counts then tokens - before.tokens else 0)
  {
    var f := (l: Id, x: Row) =>
      if x.key == k && x.created >= from && ReserveAnswers.Names(env, pattern, x.model) then x.tokens else 0;
    Store.RepriceStored(db, row, tokens, cost, now);
    SumUpdate(db.ledger, f, row, WithReprice(db, row, tokens, cost, now).ledger[row]);
  }

  // A reset stamps the chosen periods of the named keys, or of all keys that are not revoked, and
  // clears the settled total with the total scope alone. It needs a period, a key and known keys.
  lemma ResetAnswers(db: Db, ids: seq<Id>, all: bool, scopes: Scopes, now: int)
    ensures var targets := if all then set k | k in db.keys && !db.keys[k].revoked else set k | k in ids && k != "";
            var result := ResetSpend(db, ids, all, scopes, now);
            if !(scopes.total || scopes.daily || scopes.weekly || scopes.monthly) || (!all && targets == {})
            then result == (db, Err(InvalidArgument))
            else if exists k :: k in targets && k !in db.keys then result == (db, Err(KeyNotFound))
            else
              && result.1 == Ok(|targets|)
              && result.0 == db.(keys := result.0.keys) && result.0.keys.Keys == db.keys.Keys
              && forall k | k in db.keys ::
                   var key := db.keys[k];
                   result.0.keys[k]
                   == if k !in targets then key
                      else Key(key.caller, key.revoked, key.policy, if scopes.total then 0 else key.settled, key.held,
                               if scopes.total then Some(now) else key.totalReset,
                               if scopes.daily then Some(now) else key.dailyReset,
                               if scopes.weekly then Some(now) else key.weeklyReset,
                               if scopes.monthly then Some(now) else key.monthlyReset)
  {
    var targets := ResetTargets(db, ids, all);
    assert targets <= db.keys.Keys <==> !exists k :: k in targets && k !in db.keys;
  }

  // A rejected attempt leaves a settled reservation of one token and no cost, finished at once, and
  // its row.
  lemma RejectAnswers(db: Db, id: NewId, row: Id, caller: Id, k: Id, model: string, now: int)
    requires Valid(db)
    ensures var result := Reject(db, id, row, caller, k, model, now);
            if caller == "" || k == "" || model == "" then result == (db, Err(InvalidArgument))
            else if k !in db.keys then result == (db, Err(KeyNotFound))
            else if db.keys[k].caller != caller then result == (db, Err(InvalidArgument))
            else if id in db.reservations || row in db.ledger
                    || exists x | x in db.reservations ::
                         db.reservations[x].caller == caller && db.reservations[x].idem == "reject:" + id
            then result == (db, Err(StorageConflict))
            else
              var r := Reservation(caller, k, "reject:" + id, model, 1, 0, Some(0), Settled, now, now, Some(now));
              var entry := Row(id, caller, k, model, 0, 0, now, false);
              result == (Db(db.callers, db.keys, db.reservations[id := r], db.ledger[row := entry]), Ok(()))
  {
    if HasRow(db.ledger, id) {
      var l :| l in db.ledger && db.ledger[l].reservation == id;
      assert RowFits(db.reservations, db.ledger[l]);
    }
    assert HasIdem(db, caller, "reject:" + id)
        <==> exists x | x in db.reservations ::
               db.reservations[x].caller == caller && db.reservations[x].idem == "reject:" + id;
  }
}

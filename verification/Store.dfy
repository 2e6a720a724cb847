// The store (internal/store): one object whose fields are the four tables. Each method is one SQL
// transaction, written statement by statement with the clamps, loops and early returns of the code,
// and proved to compute the step of module Ledger. A transaction works on local copies of the tables
// and commits by assigning the fields, so every early return is a rollback.
module Store {
  import opened Base
  import opened Calendar
  import opened Sums
  import opened Ledger
  import opened LedgerInvariant
  import LedgerRuns
  import opened TokenQuery

  // ---------- Releases, one row at a time ----------

  lemma ReleaseNone(db: Db, now: int)
    requires Valid(db)
    ensures ReleaseSet(db, {}, now) == db
  {
    assert ReleaseRows(db.reservations, {}, now) == db.reservations;
    assert CountHolds(db.keys, db.reservations) == db.keys;
  }

  lemma ReleaseOneMore(db: Db, ids: set<Id>, id: Id, now: int)
    requires id !in ids
    ensures ReleaseSet(ReleaseSet(db, ids, now), {id}, now) == ReleaseSet(db, ids + {id}, now)
  {
    var some, all := ReleaseRows(db.reservations, ids, now), ReleaseRows(db.reservations, ids + {id}, now);
    assert ReleaseRows(some, {id}, now) == all;
    assert CountHolds(CountHolds(db.keys, some), all) == CountHolds(db.keys, all);
  }

  lemma NotYetReleased(db: Db, ids: set<Id>, id: Id, now: int)
    requires id in db.reservations && id !in ids
    ensures id in ReleaseSet(db, ids, now).reservations
            && ReleaseSet(db, ids, now).reservations[id] == db.reservations[id]
  {
  }

  // Returning one hold to its key is recounting all keys.
  lemma RecountOne(keys: Keys, reservations: Reservations, id: Id, now: int)
    requires HeldAgrees(keys, reservations) && id in reservations && reservations[id].status.Held?
             && reservations[id].key in keys
    ensures var r := reservations[id];
            CountHolds(keys, reservations[id := ReleaseReservation(r, now)])
            == keys[r.key := keys[r.key].(held := keys[r.key].held - r.held)]
  {
    var r := reservations[id];
    var after := reservations[id := ReleaseReservation(r, now)];
    forall k | k in keys ensures SumMap(after, HeldBy(k)) == keys[k].held - (if k == r.key then r.held else 0) {
      SumUpdate(reservations, HeldBy(k), id, after[id]);
    }
  }

  lemma ReleaseOneRow(db: Db, id: Id, now: int)
    requires Valid(db) && id in db.reservations && db.reservations[id].status.Held?
    ensures var r := db.reservations[id];
            && r.key in db.keys
            && ReleaseSet(db, {id}, now)
            == db.(reservations := db.reservations[id := ReleaseReservation(r, now)],
                   keys := db.keys[r.key := db.keys[r.key].(held := db.keys[r.key].held - r.held)])
  {
    RecountOne(db.keys, db.reservations, id, now);
    assert ReleaseRows(db.reservations, {id}, now)
      == db.reservations[id := ReleaseReservation(db.reservations[id], now)];
  }

  // CASE WHEN held >= x THEN held - x ELSE 0 END
  function ReturnHold(key: Key, amount: int): Key {
    key.(held := if key.held >= amount then key.held - amount else 0)
  }

  // releaseHeldReservationTx. The 0 branch of the clamp is never taken.
  method ReleaseHeldTx(tx: Db, id: Id, now: int) returns (after: Db)
    requires Valid(tx) && id in tx.reservations && tx.reservations[id].status.Held?
    ensures after == ReleaseSet(tx, {id}, now) && Valid(after)
  {
    var r := tx.reservations[id];
    HoldClampIsDead(tx.keys, tx.reservations, id);
    ReleaseOneRow(tx, id, now);
    ReleaseSetValid(tx, {id}, now);
    after := tx.(keys := tx.keys[r.key := ReturnHold(tx.keys[r.key], r.held)],
                 reservations := tx.reservations[id := ReleaseReservation(r, now)]);
  }

  // uniquePluginKeyIDs: non-empty ids, each once, in order of appearance.
  method UniqueIds(ids: seq<Id>) returns (out: seq<Id>)
    ensures IdSet(out) == set k | k in ids && k != ""
    ensures |out| == |IdSet(out)|
  {
    out := [];
    var seen: set<Id> := {};
    for i := 0 to |ids|
      invariant seen == IdSet(out) == (set k | k in ids[..i] && k != "") && |out| == |seen|
    {
      assert ids[..i + 1] == ids[..i] + [ids[i]];
      if ids[i] != "" && ids[i] !in seen {
        seen := seen + {ids[i]};
        assert IdSet(out + [ids[i]]) == IdSet(out) + {ids[i]};
        out := out + [ids[i]];
      }
    }
    assert ids[..|ids|] == ids;
  }

  lemma ListOne(ids: set<Id>, rest: set<Id>, out: seq<Id>, id: Id)
    requires rest <= ids && id in rest && IdSet(out) == ids - rest && |out| == |ids - rest|
    ensures IdSet(out + [id]) == ids - (rest - {id}) && |out + [id]| == |ids - (rest - {id})|
  {
    assert ids - (rest - {id}) == (ids - rest) + {id};
    assert IdSet(out + [id]) == IdSet(out) + {id};
  }

  // The rows of a one-column query, in some order.
  method Listed(ids: set<Id>) returns (out: seq<Id>)
    ensures IdSet(out) == ids && |out| == |ids|
  {
    out := [];
    var rest := ids;
    while rest != {}
      invariant rest <= ids && IdSet(out) == ids - rest && |out| == |ids - rest|
      decreases rest
    {
      var id :| id in rest;
      ListOne(ids, rest, out, id);
      out, rest := out + [id], rest - {id};
    }
    assert ids - {} == ids;
  }

  // The batch loop: the first id that cannot be released abandons the transaction.
  method ReleaseBatchTx(db: Db, ids: seq<Id>, now: int) returns (tx: Db, e: Option<Error>)
    requires Valid(db)
    ensures e == BatchFailure(db, ids)
    ensures e.None? ==> tx == ReleaseSet(db, IdSet(ids), now) && Valid(tx)
  {
    tx := db;
    ReleaseNone(db, now);
    assert IdSet(ids[..0]) == {};
    for i := 0 to |ids|
      invariant Valid(tx) && BatchFailure(db, ids[..i]).None? && tx == ReleaseSet(db, IdSet(ids[..i]), now)
    {
      var id := ids[i];
      BatchStep(db, ids, i);
      if id == "" {
        return tx, Some(InvalidArgument);
      }
      if id !in tx.reservations {
        return tx, Some(ReservationNotFound);
      }
      if !tx.reservations[id].status.Held? {
        return tx, Some(ReservationFinalized);
      }
      ReleaseOneMore(db, IdSet(ids[..i]), id, now);
      tx := ReleaseHeldTx(tx, id, now);
    }
    assert ids[..|ids|] == ids;
    e := None;
  }

  lemma StaleStep(db: Db, ids: seq<Id>, i: nat, now: int)
    requires |IdSet(ids)| == |ids| && i < |ids| && IdSet(ids) <= db.reservations.Keys
    ensures var tx, id := ReleaseSet(db, IdSet(ids[..i]), now), ids[i];
            && id in db.reservations && id in tx.reservations && tx.reservations[id] == db.reservations[id]
            && ReleaseSet(tx, {id}, now) == ReleaseSet(db, IdSet(ids[..i + 1]), now)
  {
    ListedOnce(ids, i);
    NotYetReleased(db, IdSet(ids[..i]), ids[i], now);
    ReleaseOneMore(db, IdSet(ids[..i]), ids[i], now);
  }

  // The stale loop: every listed reservation is released.
  method ReleaseEachTx(db: Db, ids: seq<Id>, now: int) returns (tx: Db)
    requires Valid(db) && |IdSet(ids)| == |ids| && IdSet(ids) <= db.reservations.Keys
    requires forall id | id in ids :: db.reservations[id].status.Held?
    ensures tx == ReleaseSet(db, IdSet(ids), now) && Valid(tx)
  {
    tx := db;
    ReleaseNone(db, now);
    assert IdSet(ids[..0]) == {};
    for i := 0 to |ids|
      invariant Valid(tx) && tx == ReleaseSet(db, IdSet(ids[..i]), now)
    {
      StaleStep(db, ids, i, now);
      tx := ReleaseHeldTx(tx, ids[i], now);
    }
    assert ids[..|ids|] == ids;
  }

  method ReleaseStaleTx(db: Db, olderThan: int, now: int) returns (tx: Db, released: nat)
    requires Valid(db)
    ensures tx == ReleaseStale(db, olderThan, now) && Valid(tx) && released == |StaleIds(db, olderThan)|
  {
    var ids := Listed(StaleIds(db, olderThan));
    assert forall id | id in ids :: id in IdSet(ids);
    tx := ReleaseEachTx(db, ids, now);
    released := |ids|;
  }

  // What settling a held reservation must do.
  lemma SettleHeld(db: Db, row: Id, id: Id, model: string, tokens: int, cost: int, fallback: bool, now: int)
    requires Valid(db) && id in db.reservations && db.reservations[id].status.Held?
    requires id != "" && model != "" && cost >= 0 && tokens >= 0
    ensures db.reservations[id].key in db.keys
    ensures var after := WithSettlement(db, row, id, model, tokens, cost, fallback, now);
            Ledger.Settle(db, row, id, model, tokens, cost, fallback, now)
            == if row in db.ledger then (db, Err(StorageConflict)) else (after, Ok(after.reservations[id]))
    ensures row !in db.ledger ==> Valid(WithSettlement(db, row, id, model, tokens, cost, fallback, now))
  {
    HeldHasNoRow(db, id);
    if row !in db.ledger {
      SettleValid(db, row, id, model, tokens, cost, fallback, now);
    }
  }

  // The checks that come with the writes of Reserve.
  function LateRefusal(db: Db, req: Request): Option<Error>
    requires req.key in db.keys
  {
    if db.keys[req.key].policy.Total() != 0 && Remaining(db.keys[req.key]) < req.amount then Some(InsufficientQuota)
    else if req.id in db.reservations then Some(StorageConflict)
    else None
  }

  lemma HoldIsValid(db: Db, req: Request, now: int)
    requires Valid(db) && req.Complete() && !HasIdem(db, req.caller, req.idem)
    requires req.key in db.keys && db.keys[req.key].caller == req.caller
    ensures LateRefusal(db, req).None? ==> Valid(WithHold(db, req, now))
  {
    if LateRefusal(db, req).None? {
      HoldValid(db, req, now);
    }
  }

  predicate IsIdem(r: Reservation, caller: Id, idem: string) {
    r.caller == caller && r.idem == idem
  }

  ghost predicate OnlyIdem(reservations: Reservations, id: Id, caller: Id, idem: string) {
    forall other | other in reservations && IsIdem(reservations[other], caller, idem) :: other == id
  }

  lemma OneIdem(db: Db, caller: Id, idem: string, id: Id)
    requires Valid(db) && id in db.reservations && IsIdem(db.reservations[id], caller, idem)
    ensures OnlyIdem(db.reservations, id, caller, idem)
  {
    forall other | other in db.reservations && IsIdem(db.reservations[other], caller, idem) ensures other == id {
      assert SameIdem(db.reservations[other], db.reservations[id]);
    }
  }

  lemma ReserveReplays(env: Env, db: Db, req: Request, id: Id, now: int)
    requires req.Complete() && id in db.reservations && IsIdem(db.reservations[id], req.caller, req.idem)
    requires OnlyIdem(db.reservations, id, req.caller, req.idem)
    ensures var r := db.reservations[id];
            Ledger.Reserve(env, db, req, now)
            == (db, if r.estimate != req.estimate || r.held != req.amount || r.key != req.key
                    then Err(IdempotencyConflict) else Ok(r))
  {
    assert HasIdem(db, req.caller, req.idem);
    forall x | x in db.reservations && db.reservations[x].caller == req.caller && db.reservations[x].idem == req.idem
      ensures IsIdem(db.reservations[x], req.caller, req.idem)
    {
    }
  }

  // A stored row can always be repriced.
  lemma RepriceStored(db: Db, row: Id, tokens: int, cost: int, now: int)
    requires Valid(db) && row in db.ledger && row != "" && tokens >= 0 && cost >= 0
    ensures CanReprice(db, row, tokens, cost) && db.reservations[db.ledger[row].reservation].status.Settled?
    ensures Reprice(db, row, tokens, cost, now) == (WithReprice(db, row, tokens, cost, now), Ok(()))
    ensures Valid(WithReprice(db, row, tokens, cost, now))
  {
    assert RowFits(db.reservations, db.ledger[row]);
    assert ReservationFits(db.keys, db.reservations[db.ledger[row].reservation]);
    RepriceValid(db, row, tokens, cost, now);
  }

  method TargetList(db: Db, ids: seq<Id>, all: bool) returns (targets: seq<Id>)
    ensures IdSet(targets) == ResetTargets(db, ids, all) && |targets| == |IdSet(targets)|
  {
    if all {
      targets := Listed(set k | k in db.keys && !db.keys[k].revoked);
    } else {
      targets := UniqueIds(ids);
    }
  }

  // The loop of ResetPluginKeySpend: an unknown key abandons the transaction.
  method ResetAllTx(db: Db, targets: seq<Id>, scopes: Scopes, now: int) returns (txKeys: Keys, ok: bool)
    requires |IdSet(targets)| == |targets|
    ensures ok <==> IdSet(targets) <= db.keys.Keys
    ensures ok ==> txKeys == WithReset(db, IdSet(targets), scopes, now).keys
  {
    txKeys := db.keys;
    for i := 0 to |targets|
      invariant IdSet(targets[..i]) <= db.keys.Keys
      invariant txKeys == WithReset(db, IdSet(targets[..i]), scopes, now).keys
    {
      ListedOnce(targets, i);
      if targets[i] !in txKeys {
        return txKeys, false;
      }
      txKeys := txKeys[targets[i] := ResetKey(txKeys[targets[i]], scopes, now)];
    }
    assert targets[..|targets|] == targets;
    ok := true;
  }

  class Store {
    var callers: map<Id, bool>
    var keys: map<Id, Key>
    var reservations: map<Id, Reservation>
    var ledger: map<Id, Row>

    function State(): Db
      reads this
    {
      Db(callers, keys, reservations, ledger)
    }

    constructor ()
      ensures State() == EMPTY && Valid(State())
    {
      callers, keys, reservations, ledger := map[], map[], map[], map[];
      new;
      EmptyValid();
    }

    // keyPeriodSpend
    method KeyPeriodSpend(k: Id, start: int) returns (spend: int)
      ensures spend == SpendSince(State(), k, start)
    {
      var settled := SumRows(ledger, CostSince(k, Some(start)));
      var held := SumRows(reservations, HeldSince(k, start));
      spend := settled + held;
    }

    // The three calendar limits, in order.
    method PeriodLimit(env: Env, k: Id, amount: int, now: int) returns (e: Option<Error>)
      requires k in keys
      ensures e == if SpendRefused(env, State(), k, amount, Daily, now) then Some(SpendExceeded(Daily))
                   else if SpendRefused(env, State(), k, amount, Weekly, now) then Some(SpendExceeded(Weekly))
                   else if SpendRefused(env, State(), k, amount, Monthly, now) then Some(SpendExceeded(Monthly))
                   else None
    {
      var key, periods := keys[k], [Daily, Weekly, Monthly];
      assert periods[0] == Daily && periods[1] == Weekly && periods[2] == Monthly;
      for i := 0 to |periods|
        invariant forall j | 0 <= j < i :: !SpendRefused(env, State(), k, amount, periods[j], now)
      {
        var limit := key.policy.SpendLimit(periods[i]);
        if limit != 0 {
          var used := KeyPeriodSpend(k, EffectiveStart(env, key, periods[i], now));
          if used > limit - amount {
            assert i > 0 ==> !SpendRefused(env, State(), k, amount, periods[0], now);
            assert i > 1 ==> !SpendRefused(env, State(), k, amount, periods[1], now);
            return Some(SpendExceeded(periods[i]));
          }
        }
      }
      e := None;
    }

    // Everything Reserve checks between reading the key row and holding the amount.
    method CheckKey(env: Env, req: Request, now: int) returns (e: Option<Error>)
      requires req.key in keys && req.estimate > 0
      ensures e == EarlyRefusal(env, State(), req, now)
    {
      var key := keys[req.key];
      if key.revoked {
        return Some(KeyRevoked);
      }
      if !key.policy.enabled {
        return Some(KeyDisabled);
      }
      if key.policy.expires.Some? && key.policy.expires.value <= now {
        return Some(KeyExpired);
      }
      if !ModelAllowed(env, key.policy.allowed, req.model) {
        return Some(ModelNotAllowed);
      }
      e := EnforceModelTokenLimits(env, State(), req.key, req.model, req.estimate, now);
      if e.Some? {
        return;
      }
      if key.policy.maxConcurrent > 0 {
        var active := SumRows(reservations, ActiveBy(req.key));
        if active >= key.policy.maxConcurrent {
          return Some(ConcurrentLimit);
        }
      }
      e := PeriodLimit(env, req.key, req.amount, now);
    }

    // The two writes of Reserve: hold the amount on the key if its quota allows, insert the row.
    method HoldAndInsert(req: Request, now: int) returns (e: Option<Error>)
      requires req.key in keys && keys[req.key].policy.enabled && !keys[req.key].revoked
      modifies this`keys, this`reservations
      ensures e == LateRefusal(old(State()), req)
      ensures State() == if e.Some? then old(State()) else WithHold(old(State()), req, now)
    {
      var key := keys[req.key];
      if !(key.policy.enabled && !key.revoked
           && (key.policy.quota.None? || key.policy.quota.value == 0
               || key.policy.quota.value - key.settled - key.held >= req.amount)) {
        return Some(InsufficientQuota);
      }
      var txKeys := keys[req.key := key.(held := key.held + req.amount)];
      if req.id in reservations {
        return Some(StorageConflict);
      }
      keys, reservations := txKeys, reservations[req.id := NewHold(req, now)];
      e := None;
    }

    // The idempotency lookup.
    method Existing(caller: Id, idem: string) returns (id: Option<Id>)
      requires Valid(State())
      ensures id.None? <==> !HasIdem(State(), caller, idem)
      ensures id.Some? ==>
                && id.value in reservations && IsIdem(reservations[id.value], caller, idem)
                && OnlyIdem(reservations, id.value, caller, idem)
    {
      if x :| x in reservations && IsIdem(reservations[x], caller, idem) {
        OneIdem(State(), caller, idem, x);
        return Some(x);
      }
      id := None;
    }

    // Also returns the id of the reservation found or made.
    method Reserve(env: Env, req: Request, now: int) returns (r: Result<Reservation, Error>, id: Id)
      requires Valid(State())
      modifies this`keys, this`reservations
      ensures (State(), r) == Ledger.Reserve(env, old(State()), req, now)
      ensures r.Ok? ==> id in reservations && reservations[id] == r.value && IsIdem(r.value, req.caller, req.idem)
      ensures r.Ok? && !HasIdem(old(State()), req.caller, req.idem) ==> id == req.id
      ensures Valid(State())
    {
      id := req.id;
      if !req.Complete() {
        return Err(InvalidArgument), id;
      }
      var found := Existing(req.caller, req.idem);
      if found.Some? {
        ReserveReplays(env, State(), req, found.value, now);
        id := found.value;
        var existing := reservations[id];
        if existing.estimate != req.estimate || existing.held != req.amount || existing.key != req.key {
          return Err(IdempotencyConflict), id;
        }
        return Ok(existing), id;
      }
      var e := CheckOwner(env, req, now);
      if e.None? {
        HoldIsValid(State(), req, now);
        e := HoldAndInsert(req, now);
      }
      r := if e.Some? then Err(e.value) else Ok(NewHold(req, now));
    }

    // The caller, the key's owner and everything on the key before the quota.
    method CheckOwner(env: Env, req: Request, now: int) returns (e: Option<Error>)
      requires req.Complete()
      ensures e.None? ==>
                && req.key in keys && keys[req.key].caller == req.caller
                && keys[req.key].policy.enabled && !keys[req.key].revoked
      ensures Refusal(env, State(), req, now) == if e.Some? then e else LateRefusal(State(), req)
    {
      if req.caller !in callers {
        return Some(CallerNotFound);
      }
      if !callers[req.caller] {
        return Some(CallerDisabled);
      }
      if req.key !in keys || keys[req.key].caller != req.caller {
        return Some(KeyNotFound);
      }
      e := CheckKey(env, req, now);
    }

    // The three writes of Settle; a taken ledger id abandons the transaction.
    method SettleHeldTx(row: Id, id: Id, model: string, tokens: int, cost: int, fallback: bool, now: int)
      returns (ok: bool)
      requires id in reservations && reservations[id].key in keys
               && keys[reservations[id].key].held >= reservations[id].held
      modifies this`keys, this`reservations, this`ledger
      ensures ok == (row !in old(ledger))
      ensures State() == if ok then WithSettlement(old(State()), row, id, model, tokens, cost, fallback, now)
              else old(State())
    {
      var held := reservations[id];
      var key := ReturnHold(keys[held.key], held.held);
      var txKeys := keys[held.key := key.(settled := key.settled + cost)];
      var done := held.(status := Settled, settledCost := Some(cost), model := model, updated := now);
      if row in ledger {
        return false;
      }
      keys, reservations := txKeys, reservations[id := done];
      ledger := ledger[row := Row(id, held.caller, held.key, model, tokens, cost, now, fallback)];
      ok := true;
    }

    method Settle(row: Id, id: Id, model: string, tokens: int, cost: int, fallback: bool, now: int)
      returns (r: Result<Reservation, Error>)
      requires Valid(State())
      modifies this`keys, this`reservations, this`ledger
      ensures (State(), r) == Ledger.Settle(old(State()), row, id, model, tokens, cost, fallback, now)
      ensures Valid(State())
    {
      if id == "" || model == "" || cost < 0 || tokens < 0 {
        return Err(InvalidArgument);
      }
      if id !in reservations {
        return Err(ReservationNotFound);
      }
      if reservations[id].status.Settled? {
        return Ok(reservations[id]);
      }
      if !reservations[id].status.Held? {
        return Err(ReservationFinalized);
      }
      HoldClampIsDead(keys, reservations, id);
      SettleHeld(State(), row, id, model, tokens, cost, fallback, now);
      var ok := SettleHeldTx(row, id, model, tokens, cost, fallback, now);
      if !ok {
        return Err(StorageConflict);
      }
      r := Ok(reservations[id]);
    }

    method Release(id: Id, now: int) returns (r: Result<Reservation, Error>)
      requires Valid(State())
      modifies this
      ensures (State(), r) == Ledger.Release(old(State()), id, now)
      ensures Valid(State())
    {
      if id == "" {
        return Err(InvalidArgument);
      }
      if id !in reservations {
        return Err(ReservationNotFound);
      }
      if reservations[id].status.Released? {
        return Ok(reservations[id]);
      }
      if !reservations[id].status.Held? {
        return Err(ReservationFinalized);
      }
      var tx := ReleaseHeldTx(State(), id, now);
      keys, reservations := tx.keys, tx.reservations;
      r := Ok(reservations[id]);
    }

    method ReleaseHeldReservations(ids: seq<Id>, now: int) returns (r: Option<Error>)
      requires Valid(State())
      modifies this
      ensures State() == ReleaseBatch(old(State()), ids, now) && r == BatchFailure(old(State()), ids)
      ensures Valid(State())
    {
      var tx;
      tx, r := ReleaseBatchTx(State(), ids, now);
      if r.None? {
        keys, reservations := tx.keys, tx.reservations;
      }
    }

    method ReleaseStaleReservations(olderThan: int, now: int) returns (released: nat)
      requires Valid(State())
      modifies this
      ensures State() == ReleaseStale(old(State()), olderThan, now) && released == |StaleIds(old(State()), olderThan)|
      ensures Valid(State())
    {
      var tx;
      tx, released := ReleaseStaleTx(State(), olderThan, now);
      keys, reservations := tx.keys, tx.reservations;
    }

    method TouchReservation(id: Id, now: int) returns (e: Option<Error>)
      requires Valid(State())
      modifies this`reservations
      ensures State() == Touch(old(State()), id, now) && Valid(State())
      ensures e == if id == "" then Some(InvalidArgument)
                   else if id in old(reservations) && old(reservations)[id].status.Held? then None
                   else Some(ReservationFinalized)
    {
      if id == "" {
        return Some(InvalidArgument);
      }
      if id !in reservations || !reservations[id].status.Held? {
        return Some(ReservationFinalized);
      }
      MarkValid(State(), id, reservations[id].(updated := now));
      reservations := reservations[id := reservations[id].(updated := now)];
      e := None;
    }

    // Succeeds also when there is nothing to mark.
    method FinishExecution(id: Id, now: int) returns (e: Option<Error>)
      requires Valid(State())
      modifies this`reservations
      ensures State() == Ledger.FinishExecution(old(State()), id, now) && Valid(State())
      ensures e == if id == "" then Some(InvalidArgument) else None
    {
      if id == "" {
        return Some(InvalidArgument);
      }
      if id in reservations && reservations[id].status.Held? && reservations[id].finished.None? {
        MarkValid(State(), id, reservations[id].(finished := Some(now)));
        reservations := reservations[id := reservations[id].(finished := Some(now))];
      }
      e := None;
    }

    method UpdateUsageDetail(row: Id, tokens: int, cost: int, now: int) returns (r: Result<(), Error>)
      requires Valid(State())
      modifies this`keys, this`reservations, this`ledger
      ensures (State(), r) == Reprice(old(State()), row, tokens, cost, now)
      ensures Valid(State())
    {
      if row == "" || cost < 0 || tokens < 0 || row !in ledger {
        return Err(InvalidArgument);
      }
      RepriceStored(State(), row, tokens, cost, now);
      RepriceTx(row, tokens, cost, now);
      r := Ok(());
    }

    // The writes of UpdateUsageDetail, with the clamp of the settled counter.
    method RepriceTx(row: Id, tokens: int, cost: int, now: int)
      requires row in ledger && ledger[row].key in keys && ledger[row].reservation in reservations
      modifies this`keys, this`reservations, this`ledger
      ensures State() == WithReprice(old(State()), row, tokens, cost, now)
    {
      var before := ledger[row];
      var key, reservation := keys[before.key], reservations[before.reservation];
      var delta := cost - before.cost;
      ledger := ledger[row := before.(tokens := tokens, cost := cost, fallback := false)];
      if delta != 0 {
        if !(key.totalReset.Some? && before.created < key.totalReset.value) {
          key := key.(settled := if key.settled + delta < 0 then 0 else key.settled + delta);
        }
        if reservation.status.Settled? {
          reservation := reservation.(settledCost := Some(cost), updated := now);
        }
      }
      keys := keys[before.key := key];
      reservations := reservations[before.reservation := reservation];
    }

    method ResetPluginKeySpend(ids: seq<Id>, all: bool, scopes: Scopes, now: int) returns (r: Result<nat, Error>)
      requires Valid(State())
      modifies this`keys
      ensures (State(), r) == ResetSpend(old(State()), ids, all, scopes, now)
      ensures Valid(State())
    {
      if !scopes.Any() {
        return Err(InvalidArgument);
      }
      var targets := TargetList(State(), ids, all);
      if !all && |targets| == 0 {
        return Err(InvalidArgument);
      }
      var txKeys, ok := ResetAllTx(State(), targets, scopes, now);
      if !ok {
        return Err(KeyNotFound);
      }
      LedgerRuns.ResetValid(State(), IdSet(targets), scopes, now);
      keys := txKeys;
      r := Ok(|targets|);
    }

    method InsertRejectedAttempt(id: NewId, row: Id, caller: Id, k: Id, model: string, now: int)
      returns (r: Result<(), Error>)
      requires Valid(State())
      modifies this`reservations, this`ledger
      ensures (State(), r) == Reject(old(State()), id, row, caller, k, model, now)
      ensures Valid(State())
    {
      if caller == "" || k == "" || model == "" {
        return Err(InvalidArgument);
      }
      if k !in keys {
        return Err(KeyNotFound);
      }
      if keys[k].caller != caller {
        return Err(InvalidArgument);
      }
      RejectedIsValid(State(), id, row, caller, k, model, now);
      r := RejectTx(id, row, caller, k, model, now);
    }

    // The two inserts and the unique indexes that can refuse them.
    method RejectTx(id: NewId, row: Id, caller: Id, k: Id, model: string, now: int) returns (r: Result<(), Error>)
      modifies this`reservations, this`ledger
      ensures r == if Rejectable(old(State()), id, row, caller) then Ok(()) else Err(StorageConflict)
      ensures State() == if r.Ok? then WithRejection(old(State()), id, row, caller, k, model, now) else old(State())
    {
      if id in reservations
         || exists x | x in reservations ::
           reservations[x].caller == caller && reservations[x].idem == REJECT_PREFIX + id
      {
        return Err(StorageConflict);
      }
      if row in ledger || exists l | l in ledger :: ledger[l].reservation == id {
        return Err(StorageConflict);
      }
      reservations := reservations[id :=
        Reservation(caller, k, REJECT_PREFIX + id, model, 1, 0, Some(0), Settled, now, now, Some(now))];
      ledger := ledger[row := Row(id, caller, k, model, 0, 0, now, false)];
      r := Ok(());
    }
  }

  ghost predicate Rejectable(db: Db, id: Id, row: Id, caller: Id) {
    id !in db.reservations && row !in db.ledger && !HasIdem(db, caller, REJECT_PREFIX + id) && !HasRow(db.ledger, id)
  }

  lemma RejectedIsValid(db: Db, id: NewId, row: Id, caller: Id, k: Id, model: string, now: int)
    requires Valid(db) && k in db.keys && db.keys[k].caller == caller
    ensures Rejectable(db, id, row, caller) ==> Valid(WithRejection(db, id, row, caller, k, model, now))
  {
    if Rejectable(db, id, row, caller) {
      RejectValid(db, id, row, caller, k, model, now);
    }
  }

  // A failing prefix decides the whole batch.
  lemma {:induction false} BatchPrefix(db: Db, ids: seq<Id>, n: nat)
    requires n <= |ids|
    ensures BatchFailure(db, ids[..n]).Some? ==> BatchFailure(db, ids) == BatchFailure(db, ids[..n])
    decreases |ids|
  {
    if n == |ids| {
      assert ids[..n] == ids;
    } else {
      BatchPrefix(db, ids[..|ids| - 1], n);
      assert ids[..|ids| - 1][..n] == ids[..n];
    }
  }

  // The i-th id after its predecessors went through.
  lemma BatchStep(db: Db, ids: seq<Id>, i: nat)
    requires i < |ids| && BatchFailure(db, ids[..i]).None?
    ensures IdSet(ids[..i + 1]) == IdSet(ids[..i]) + {ids[i]}
    ensures var e := if ids[i] == "" then Some(InvalidArgument)
                     else if ids[i] !in db.reservations then Some(ReservationNotFound)
                     else if ids[i] in IdSet(ids[..i]) || !db.reservations[ids[i]].status.Held?
                       then Some(ReservationFinalized)
                     else None;
            BatchFailure(db, ids[..i + 1]) == e && (e.Some? ==> BatchFailure(db, ids) == e)
  {
    assert ids[..i + 1][..i] == ids[..i];
    BatchPrefix(db, ids, i + 1);
  }

  lemma ListedOnce(ids: seq<Id>, i: nat)
    requires |IdSet(ids)| == |ids| && i < |ids|
    ensures ids[i] !in IdSet(ids[..i]) && ids[i] in IdSet(ids) && IdSet(ids[..i + 1]) == IdSet(ids[..i]) + {ids[i]}
  {
    if ids[i] in ids[..i] {
      var without := ids[..i] + ids[i + 1..];
      assert IdSet(ids) == IdSet(without);
      SetNoLarger(without);
      assert false;
    }
  }

  lemma {:induction false} SetNoLarger(ids: seq<Id>)
    ensures |IdSet(ids)| <= |ids|
  {
    if ids != [] {
      var n := |ids| - 1;
      SetNoLarger(ids[..n]);
      assert IdSet(ids) == IdSet(ids[..n]) + {ids[n]};
    }
  }
}

// The consistency of the ledger tables and its preservation by every atomic step.
module LedgerInvariant {
  import opened Base
  import opened Calendar
  import opened Sums
  import opened Ledger

  type Keys = map<Id, Key>
  type Reservations = map<Id, Reservation>
  type Rows = map<Id, Row>

  ghost predicate ReservationFits(keys: Keys, r: Reservation) {
    && r.key in keys && keys[r.key].caller == r.caller && r.held >= 0 && r.estimate > 0
    && (r.status.Settled? <==> r.settledCost.Some?)
  }

  // A ledger row belongs to a settled reservation of the same key with the same amount.
  ghost predicate RowFits(reservations: Reservations, row: Row) {
    && row.cost >= 0 && row.tokens >= 0 && row.reservation in reservations
    && RowMatches(row, reservations[row.reservation])
  }

  ghost predicate RowMatches(row: Row, r: Reservation) {
    r.status.Settled? && r.settledCost == Some(row.cost) && r.key == row.key && r.caller == row.caller
  }

  ghost predicate ReservationsFit(keys: Keys, reservations: Reservations) {
    forall id | id in reservations :: ReservationFits(keys, reservations[id])
  }

  ghost predicate RowsFit(reservations: Reservations, ledger: Rows) {
    forall l | l in ledger :: RowFits(reservations, ledger[l])
  }

  // Settled reservations and ledger rows correspond one to one.
  ghost predicate EverySettlementHasRow(reservations: Reservations, ledger: Rows) {
    forall id {:trigger HasRow(ledger, id)} | id in reservations && reservations[id].status.Settled? ::
      HasRow(ledger, id)
  }

  ghost predicate OneRowEach(ledger: Rows) {
    forall l, m | l in ledger && m in ledger && ledger[l].reservation == ledger[m].reservation :: l == m
  }

  ghost predicate SameIdem(a: Reservation, b: Reservation) {
    a.caller == b.caller && a.idem == b.idem
  }

  ghost predicate IdempotencyUnique(reservations: Reservations) {
    forall i, j | i in reservations && j in reservations && SameIdem(reservations[i], reservations[j]) :: i == j
  }

  // Conservation: the held counter of a key is the sum of its held reservations.
  ghost predicate HeldAgrees(keys: Keys, reservations: Reservations) {
    forall k | k in keys :: keys[k].held == SumMap(reservations, HeldBy(k))
  }

  ghost predicate KeysFit(keys: Keys) {
    forall k | k in keys :: keys[k].settled >= 0 && keys[k].policy.Valid()
  }

  ghost predicate Valid(db: Db) {
    && "" !in db.reservations && ReservationsFit(db.keys, db.reservations) && RowsFit(db.reservations, db.ledger)
    && EverySettlementHasRow(db.reservations, db.ledger) && OneRowEach(db.ledger)
    && IdempotencyUnique(db.reservations) && HeldAgrees(db.keys, db.reservations) && KeysFit(db.keys)
  }

  const EMPTY: Db := Db(map[], map[], map[], map[])

  lemma EmptyValid()
    ensures Valid(EMPTY)
  {
  }

  // ---------- Consequences ----------

  // The guard `held >= x` of every hold release is true: its 0 branch is dead code.
  lemma HoldClampIsDead(keys: Keys, reservations: Reservations, id: Id)
    requires ReservationsFit(keys, reservations) && HeldAgrees(keys, reservations)
    requires id in reservations && reservations[id].status.Held?
    ensures keys[reservations[id].key].held >= reservations[id].held >= 0
  {
    var k := reservations[id].key;
    SumNonNegative(reservations, HeldBy(k));
    assert HeldBy(k)(id, reservations[id]) == reservations[id].held;
  }

  // The unique index on usage_ledger.reservation_id can never fire for a held reservation.
  lemma HeldHasNoRow(db: Db, id: Id)
    requires Valid(db) && id in db.reservations && !db.reservations[id].status.Settled?
    ensures !HasRow(db.ledger, id)
  {
  }

  lemma HeldNonNegative(db: Db, k: Id)
    requires Valid(db) && k in db.keys
    ensures db.keys[k].held >= 0
  {
    SumNonNegative(db.reservations, HeldBy(k));
  }

  // ---------- How one table update carries each clause ----------

  ghost predicate SameOwners(keys: Keys, after: Keys) {
    keys.Keys == after.Keys && forall k | k in keys :: after[k].caller == keys[k].caller
  }

  lemma FitsAfterPut(keys: Keys, after: Keys, reservations: Reservations, id: Id, r: Reservation)
    requires ReservationsFit(keys, reservations) && SameOwners(keys, after) && ReservationFits(keys, r)
    ensures ReservationsFit(after, reservations[id := r])
  {
  }

  lemma RowsAfterPut(reservations: Reservations, ledger: Rows, id: Id, r: Reservation)
    requires RowsFit(reservations, ledger)
    requires forall l | l in ledger && ledger[l].reservation == id :: RowMatches(ledger[l], r)
    ensures RowsFit(reservations[id := r], ledger)
  {
    forall l | l in ledger ensures RowFits(reservations[id := r], ledger[l]) {
      assert RowFits(reservations, ledger[l]);
    }
  }

  lemma CoveredAfterPut(reservations: Reservations, ledger: Rows, id: Id, r: Reservation)
    requires EverySettlementHasRow(reservations, ledger)
    requires r.status.Settled? ==> HasRow(ledger, id)
    ensures EverySettlementHasRow(reservations[id := r], ledger)
  {
  }

  lemma CoveredAfterRow(reservations: Reservations, ledger: Rows, l: Id, row: Row)
    requires EverySettlementHasRow(reservations, ledger)
    requires l in ledger ==> ledger[l].reservation == row.reservation
    ensures EverySettlementHasRow(reservations, ledger[l := row]) && HasRow(ledger[l := row], row.reservation)
  {
    var after := ledger[l := row];
    assert after[l].reservation == row.reservation;
    forall id | id in reservations && reservations[id].status.Settled? ensures HasRow(after, id) {
      assert HasRow(ledger, id);
      var m :| m in ledger && ledger[m].reservation == id;
      assert m in after && after[m].reservation == id;
    }
  }

  lemma OneRowAfterRow(ledger: Rows, l: Id, row: Row)
    requires OneRowEach(ledger)
    requires if l in ledger then ledger[l].reservation == row.reservation else !HasRow(ledger, row.reservation)
    ensures OneRowEach(ledger[l := row])
  {
  }

  lemma IdemAfterPut(reservations: Reservations, id: Id, r: Reservation)
    requires IdempotencyUnique(reservations)
    requires if id in reservations then SameIdem(reservations[id], r)
             else forall x | x in reservations :: !SameIdem(reservations[x], r)
    ensures IdempotencyUnique(reservations[id := r])
  {
    var after := reservations[id := r];
    forall i, j | i in after && j in after && SameIdem(after[i], after[j]) ensures i == j {
      var o := if i == id then j else i;
      assert o != id ==> o in reservations && after[o] == reservations[o];
    }
  }

  lemma HeldAfterPut(keys: Keys, after: Keys, reservations: Reservations, id: Id, r: Reservation)
    requires HeldAgrees(keys, reservations) && after.Keys == keys.Keys
    requires forall k | k in keys ::
               after[k].held == keys[k].held - (if id in reservations then HeldBy(k)(id, reservations[id]) else 0)
                 + HeldBy(k)(id, r)
    ensures HeldAgrees(after, reservations[id := r])
  {
    forall k | k in after ensures after[k].held == SumMap(reservations[id := r], HeldBy(k)) {
      SumUpdate(reservations, HeldBy(k), id, r);
    }
  }

  // ---------- Preservation by each step ----------

  lemma ReserveTables(db: Db, keys: Keys, id: Id, r: Reservation)
    requires Valid(db) && id != "" && id !in db.reservations && r.status.Held? && ReservationFits(db.keys, r)
    requires SameOwners(db.keys, keys) && KeysFit(keys)
    requires forall x | x in db.reservations :: !SameIdem(db.reservations[x], r)
    requires forall k | k in keys :: keys[k].held == db.keys[k].held + HeldBy(k)(id, r)
    ensures Valid(Db(db.callers, keys, db.reservations[id := r], db.ledger))
  {
    FitsAfterPut(db.keys, keys, db.reservations, id, r);
    forall l | l in db.ledger ensures db.ledger[l].reservation != id {
      assert RowFits(db.reservations, db.ledger[l]);
    }
    RowsAfterPut(db.reservations, db.ledger, id, r);
    CoveredAfterPut(db.reservations, db.ledger, id, r);
    IdemAfterPut(db.reservations, id, r);
    HeldAfterPut(db.keys, keys, db.reservations, id, r);
  }

  ghost predicate CanHold(db: Db, req: Request) {
    && req.Complete() && !HasIdem(db, req.caller, req.idem) && req.id !in db.reservations
    && req.key in db.keys && db.keys[req.key].caller == req.caller
  }

  lemma HoldValid(db: Db, req: Request, now: int)
    requires Valid(db) && CanHold(db, req)
    ensures Valid(WithHold(db, req, now))
  {
    var r, after := NewHold(req, now), WithHold(db, req, now);
    CounterMove(db.keys, req.key, after.keys[req.key], req.id, db.reservations, r);
    ReserveTables(db, after.keys, req.id, r);
  }

  // Settlement seen as three table updates.
  lemma SettleTables(db: Db, keys: Keys, row: Id, entry: Row, id: Id, done: Reservation)
    requires Valid(db) && id in db.reservations && db.reservations[id].status.Held?
    requires SameOwners(db.keys, keys) && KeysFit(keys)
    requires done.status.Settled? && RowMatches(entry, done) && entry.reservation == id && entry.cost >= 0
             && entry.tokens >= 0
    requires done == db.reservations[id].(status := Settled, settledCost := done.settledCost,
                                          model := done.model, updated := done.updated)
    requires row !in db.ledger && !HasRow(db.ledger, id)
    requires forall k | k in keys ::
             keys[k].held == db.keys[k].held - HeldBy(k)(id, db.reservations[id]) + HeldBy(k)(id, done)
    ensures Valid(Db(db.callers, keys, db.reservations[id := done], db.ledger[row := entry]))
  {
    FitsAfterPut(db.keys, keys, db.reservations, id, done);
    RowsAfterPut(db.reservations, db.ledger, id, done);
    CoveredAfterRow(db.reservations, db.ledger, row, entry);
    CoveredAfterPut(db.reservations, db.ledger[row := entry], id, done);
    OneRowAfterRow(db.ledger, row, entry);
    IdemAfterPut(db.reservations, id, done);
    HeldAfterPut(db.keys, keys, db.reservations, id, done);
  }

  // Changing the counters of one key, with a reservation of that key moving by the same amount.
  lemma CounterMove(keys: Keys, key: Id, after: Key, id: Id, reservations: Reservations, r: Reservation)
    requires key in keys && KeysFit(keys) && after.caller == keys[key].caller && after.settled >= 0
             && after.policy.Valid()
    requires r.key == key && (id in reservations ==> reservations[id].key == key)
    requires after.held == keys[key].held - (if id in reservations then HeldBy(key)(id, reservations[id]) else 0)
             + HeldBy(key)(id, r)
    ensures SameOwners(keys, keys[key := after]) && KeysFit(keys[key := after])
    ensures forall k | k in keys ::
              keys[key := after][k].held
                == keys[k].held - (if id in reservations then HeldBy(k)(id, reservations[id]) else 0) + HeldBy(k)(id, r)
  {
  }

  ghost predicate CanSettle(db: Db, row: Id, id: Id, tokens: int, cost: int) {
    && id in db.reservations && db.reservations[id].status.Held? && db.reservations[id].key in db.keys
    && cost >= 0 && tokens >= 0 && row !in db.ledger && !HasRow(db.ledger, id)
  }

  lemma SettleValid(db: Db, row: Id, id: Id, model: string, tokens: int, cost: int, fallback: bool, now: int)
    requires Valid(db) && CanSettle(db, row, id, tokens, cost)
    ensures Valid(WithSettlement(db, row, id, model, tokens, cost, fallback, now))
  {
    var r := db.reservations[id];
    var after := WithSettlement(db, row, id, model, tokens, cost, fallback, now);
    CounterMove(db.keys, r.key, after.keys[r.key], id, db.reservations, after.reservations[id]);
    SettleTables(db, after.keys, row, after.ledger[row], id, after.reservations[id]);
  }

  lemma ReleaseRowsFit(keys: Keys, reservations: Reservations, ids: set<Id>, now: int)
    requires ReservationsFit(keys, reservations)
    requires forall id | id in ids && id in reservations :: reservations[id].status.Held?
    ensures ReservationsFit(CountHolds(keys, ReleaseRows(reservations, ids, now)), ReleaseRows(reservations, ids, now))
  {
    var after := ReleaseRows(reservations, ids, now);
    forall id | id in after ensures ReservationFits(CountHolds(keys, after), after[id]) {
      assert ReservationFits(keys, reservations[id]);
    }
  }

  lemma ReleaseKeepsRows(reservations: Reservations, ledger: Rows, ids: set<Id>, now: int)
    requires RowsFit(reservations, ledger)
    requires forall id | id in ids && id in reservations :: reservations[id].status.Held?
    ensures RowsFit(ReleaseRows(reservations, ids, now), ledger)
  {
    var after := ReleaseRows(reservations, ids, now);
    forall l | l in ledger ensures RowFits(after, ledger[l]) {
      assert RowFits(reservations, ledger[l]);
    }
  }

  lemma ReleaseKeepsIdem(reservations: Reservations, ids: set<Id>, now: int)
    requires IdempotencyUnique(reservations)
    ensures IdempotencyUnique(ReleaseRows(reservations, ids, now))
  {
    var after := ReleaseRows(reservations, ids, now);
    forall i, j | i in after && j in after && SameIdem(after[i], after[j]) ensures i == j {
      assert SameIdem(reservations[i], reservations[j]);
    }
  }

  ghost predicate CanRelease(db: Db, ids: set<Id>) {
    forall id | id in ids :: id in db.reservations && db.reservations[id].status.Held?
  }

  lemma ReleaseSetValid(db: Db, ids: set<Id>, now: int)
    requires Valid(db) && CanRelease(db, ids)
    ensures Valid(ReleaseSet(db, ids, now))
  {
    ReleaseRowsFit(db.keys, db.reservations, ids, now);
    ReleaseKeepsRows(db.reservations, db.ledger, ids, now);
    ReleaseKeepsIdem(db.reservations, ids, now);
    var after := ReleaseRows(db.reservations, ids, now);
    assert EverySettlementHasRow(after, db.ledger) by {
      forall id | id in after && after[id].status.Settled? ensures HasRow(db.ledger, id) {
        assert db.reservations[id].status.Settled?;
      }
    }
  }

  // Releasing returns exactly the released amounts to each key.
  lemma ReleaseReturnsHolds(db: Db, ids: set<Id>, now: int, k: Id)
    requires Valid(db) && k in db.keys && CanRelease(db, ids)
    ensures ReleaseSet(db, ids, now).keys[k].held
         == db.keys[k].held
            - SumMap(db.reservations, (id: Id, r: Reservation) => if id in ids && r.key == k then r.held else 0)
  {
    var after := ReleaseSet(db, ids, now);
    var released := (id: Id, r: Reservation) => if id in ids && r.key == k then r.held else 0;
    var kept := (id: Id, r: Reservation) => if id in ids then 0 else HeldBy(k)(id, r);
    SumAdd(db.reservations, released, kept, HeldBy(k));
    SumSame(db.reservations, after.reservations, kept, HeldBy(k));
  }

  // A change of the execution mark or the touch time of a held reservation.
  ghost predicate CanMark(db: Db, id: Id, r: Reservation) {
    && id in db.reservations && db.reservations[id].status.Held?
    && r == db.reservations[id].(finished := r.finished, updated := r.updated)
    && (db.reservations[id].finished.Some? ==> r.finished == db.reservations[id].finished)
  }

  lemma MarkValid(db: Db, id: Id, r: Reservation)
    requires Valid(db) && CanMark(db, id, r)
    ensures Valid(db.(reservations := db.reservations[id := r]))
  {
    FitsAfterPut(db.keys, db.keys, db.reservations, id, r);
    HeldHasNoRow(db, id);
    RowsAfterPut(db.reservations, db.ledger, id, r);
    CoveredAfterPut(db.reservations, db.ledger, id, r);
    IdemAfterPut(db.reservations, id, r);
    HeldAfterPut(db.keys, db.keys, db.reservations, id, r);
  }

  // Repricing seen as three table updates; r is the row's settled reservation.
  lemma RepriceTables(db: Db, keys: Keys, row: Id, entry: Row, r: Reservation)
    requires Valid(db) && row in db.ledger
    requires SameOwners(db.keys, keys) && KeysFit(keys) && forall k | k in keys :: keys[k].held == db.keys[k].held
    requires entry == db.ledger[row].(tokens := entry.tokens, cost := entry.cost, fallback := entry.fallback)
    requires entry.cost >= 0 && entry.tokens >= 0
    requires var id := db.ledger[row].reservation;
             id in db.reservations && r == db.reservations[id].(settledCost := Some(entry.cost), updated := r.updated)
    ensures Valid(Db(db.callers, keys, db.reservations[entry.reservation := r], db.ledger[row := entry]))
  {
    var id := entry.reservation;
    assert RowFits(db.reservations, db.ledger[row]);
    FitsAfterPut(db.keys, keys, db.reservations, id, r);
    var reservations, ledger := db.reservations[id := r], db.ledger[row := entry];
    forall l | l in ledger ensures RowFits(reservations, ledger[l]) {
      if l != row {
        assert RowFits(db.reservations, db.ledger[l]);
      }
    }
    CoveredAfterRow(db.reservations, db.ledger, row, entry);
    CoveredAfterPut(db.reservations, db.ledger[row := entry], id, r);
    OneRowAfterRow(db.ledger, row, entry);
    IdemAfterPut(db.reservations, id, r);
    HeldAfterPut(db.keys, keys, db.reservations, id, r);
  }

  lemma RepriceKeys(keys: Keys, k: Id, created: int, delta: int)
    requires k in keys && KeysFit(keys)
    ensures var after := keys[k := RepriceKey(keys[k], created, delta)];
            SameOwners(keys, after) && KeysFit(after) && forall j | j in after :: after[j].held == keys[j].held
  {
  }

  // Also without a price change the reservation carries the row's cost.
  lemma RepricedReservation(row: Row, r: Reservation, cost: int, now: int)
    requires RowMatches(row, r)
    ensures var after := RepriceReservation(r, cost, cost - row.cost, now);
            after == r.(settledCost := Some(cost), updated := after.updated)
  {
  }

  ghost predicate CanReprice(db: Db, row: Id, tokens: int, cost: int) {
    && tokens >= 0 && cost >= 0 && row in db.ledger
    && db.ledger[row].key in db.keys && db.ledger[row].reservation in db.reservations
  }

  lemma RepriceValid(db: Db, row: Id, tokens: int, cost: int, now: int)
    requires Valid(db) && CanReprice(db, row, tokens, cost)
    ensures Valid(WithReprice(db, row, tokens, cost, now))
  {
    var before := db.ledger[row];
    assert RowFits(db.reservations, before);
    var after := WithReprice(db, row, tokens, cost, now);
    RepricedReservation(before, db.reservations[before.reservation], cost, now);
    RepriceKeys(db.keys, before.key, before.created, cost - before.cost);
    RepriceTables(db, after.keys, row, after.ledger[row], after.reservations[before.reservation]);
  }

  ghost predicate CanReject(db: Db, id: Id, row: Id, caller: Id, k: Id) {
    && id != "" && k in db.keys && db.keys[k].caller == caller && id !in db.reservations && row !in db.ledger
    && !HasIdem(db, caller, REJECT_PREFIX + id) && !HasRow(db.ledger, id)
  }

  lemma RejectValid(db: Db, id: Id, row: Id, caller: Id, k: Id, model: string, now: int)
    requires Valid(db) && CanReject(db, id, row, caller, k)
    ensures Valid(WithRejection(db, id, row, caller, k, model, now))
  {
    var after := WithRejection(db, id, row, caller, k, model, now);
    var r, entry := after.reservations[id], after.ledger[row];
    FitsAfterPut(db.keys, db.keys, db.reservations, id, r);
    RowsAfterPut(db.reservations, db.ledger, id, r);
    CoveredAfterRow(db.reservations, db.ledger, row, entry);
    CoveredAfterPut(db.reservations, db.ledger[row := entry], id, r);
    OneRowAfterRow(db.ledger, row, entry);
    IdemAfterPut(db.reservations, id, r);
    HeldAfterPut(db.keys, db.keys, db.reservations, id, r);
  }

  // Key changes that keep owners and held counters keep everything else.
  lemma KeysValid(db: Db, keys: Keys)
    requires Valid(db) && db.keys.Keys <= keys.Keys && KeysFit(keys)
    requires forall k | k in db.keys :: keys[k].caller == db.keys[k].caller && keys[k].held == db.keys[k].held
    requires forall k | k in keys && k !in db.keys :: keys[k].held == 0
    ensures Valid(db.(keys := keys))
  {
    forall k | k in keys ensures keys[k].held == SumMap(db.reservations, HeldBy(k)) {
      if k !in db.keys {
        forall id | id in db.reservations ensures HeldBy(k)(id, db.reservations[id]) == 0 {
          assert ReservationFits(db.keys, db.reservations[id]);
        }
        AllZero(db.reservations, HeldBy(k));
      }
    }
    assert ReservationsFit(keys, db.reservations) by {
      forall id | id in db.reservations ensures ReservationFits(keys, db.reservations[id]) {
        assert ReservationFits(db.keys, db.reservations[id]);
      }
    }
  }
}

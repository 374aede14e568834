/** The tables in place, and the statements of app/infra/db/queries.py that read and write them.
    A statement is atomic; the services string statements together inside a transaction and
    call `Rollback` with the tables they began with when an exception leaves the block. */
module Statements {
  import opened Domain
  import opened Tables
  import opened Transactions
  import opened Invariants

  class Database {
    var seats: map<SeatKey, SeatRow>
    var orders: map<int, OrderRow>
    var items: map<SeatKey, ItemRow>
    var keys: map<string, int>
    var payments: seq<PaymentRow>
    var outbox: seq<OutboxRow>

    function State(): Db
      reads this
    {
      Db(seats, orders, items, keys, payments, outbox)
    }

    ghost predicate Valid()
      reads this
    {
      DbInv(State())
    }

    constructor (stock: map<SeatKey, nat>)
      ensures Fresh(State()) && seats.Keys == stock.Keys
      ensures forall k :: k in stock ==> seats[k].price == stock[k]
    {
      seats := map k | k in stock :: SeatRow(Available, None, None, stock[k]);
      orders, items, keys, payments, outbox := map[], map[], map[], [], [];
    }

    method Rollback(saved: Db)
      modifies this
      ensures State() == saved
    {
      seats, orders, items := saved.seats, saved.orders, saved.items;
      keys, payments, outbox := saved.keys, saved.payments, saved.outbox;
    }

    // ---------------------------------------------------------------- seats

    /** hold_seats: the guard of the statement decides, then all rows or none are written. */
    method HoldSeats(schedule: int, user: int, ids: seq<int>, max: int, ttl: int, now: int) returns (rows: set<SeatKey>)
      requires ids != []
      modifies this`seats
      ensures var guard := |Target(old(State()), schedule, ids, now)| == |ids|
                           && |Owned(old(State()), schedule, user, now)| + |ids| <= max;
              && rows == (if guard then Target(old(State()), schedule, ids, now) else {})
              && seats == (if guard then Hold(old(seats), rows, user, now + ttl) else old(seats))
      ensures |rows| == 0 || |rows| == |ids|
    {
      var target := set k | k in Wanted(schedule, ids) && k in seats && Claimable(seats[k], now);
      var owned := |Owned(State(), schedule, user, now)|;
      if |target| == |ids| && owned + |ids| <= max {
        rows := target;
        seats := Hold(seats, target, user, now + ttl);
      } else {
        rows := {};
      }
    }

    method FindUnavailableSeats(schedule: int, ids: seq<int>, now: int) returns (rows: set<SeatKey>)
      ensures rows == Unavailable(State(), schedule, ids, now)
    {
      rows := set k | k in Wanted(schedule, ids) && k in seats && !Claimable(seats[k], now);
    }

    /** release_hold: the caller's own holds among the seats named; no expiry test. */
    method ReleaseHold(schedule: int, user: int, ids: seq<int>) returns (rows: set<SeatKey>)
      modifies this`seats
      ensures rows == HeldSeats(old(State()), schedule, user, ids)
      ensures seats == Put(old(seats), rows, Available)
    {
      rows := set k | k in Wanted(schedule, ids) && k in seats && HeldBy(seats[k], user);
      seats := Put(seats, rows, Available);
    }

    /** sweep_expired_holds: the oldest expired holds nobody has locked, at most `batch` of them. */
    method SweepExpiredHolds(batch: nat, locked: set<SeatKey>, now: int) returns (rows: set<SeatKey>)
      modifies this`seats
      ensures OldestFirst(old(seats), Expired(old(State()), now) - locked, rows, batch)
      ensures State() == SweepTx(old(State()), rows, now).0
      ensures SweepTx(old(State()), rows, now).1 == Freed(rows)
      ensures SweepsOldest(old(seats), rows, locked, batch, now)
      ensures forall k :: k in rows ==>
                k in seats && seats[k] == SeatRow(Available, None, None, old(seats)[k].price)
      ensures seats.Keys == old(seats).Keys && forall k :: k in seats && k !in rows ==> seats[k] == old(seats)[k]
    {
      var due := Expired(State(), now) - locked;
      rows := PickOldest(seats, due, batch);
      SubsetSize(rows, due);
      assert rows * Expired(State(), now) == rows;
      seats := Put(seats, rows, Available);
    }

    // ---------------------------------------------------------------- orders

    /** open_order: one statement. No row means no valid hold or a used key; `ok` is false when the
        row number is taken, which a sequence never lets happen. */
    method OpenOrder(id: int, schedule: int, user: int, ids: seq<int>, key: string, minRemaining: int, now: int)
      returns (ok: bool, sum: Option<nat>)
      modifies this`orders, this`keys
      ensures var hit := |LiveSeats(old(State()), schedule, user, ids, now + minRemaining)| == |ids|
              && key !in old(keys);
              && ok == !(hit && id in old(orders))
              && sum == if hit && ok then Some(SumPrices(seats, schedule, ids)) else None
      ensures sum.Some? ==>
                && orders == old(orders)[id := OrderRow(user, schedule, Pending, ids, sum.value, key, None, now)]
                && keys == old(keys)[key := id]
      ensures sum.None? ==> orders == old(orders) && keys == old(keys)
    {
      var rows := set k | k in Wanted(schedule, ids) && k in seats && LiveHold(seats[k], user, now + minRemaining);
      ok, sum := true, None;
      if |rows| == |ids| && key !in keys {
        ok := id !in orders;
        if ok {
          var total := SumPrices(seats, schedule, ids);
          orders := orders[id := OrderRow(user, schedule, Pending, ids, total, key, None, now)];
          keys := keys[key := id];
          sum := Some(total);
        }
      }
    }

    /** mark_order / mark_order_paid: UPDATE ... WHERE id = :id AND status = :expect. */
    method MarkOrder(order: int, status: OrderStatus, expected: OrderStatus) returns (hit: bool)
      modifies this`orders
      ensures hit == (order in old(orders) && old(orders)[order].status == expected)
      ensures orders == if hit then old(orders)[order := old(orders)[order].(status := status)] else old(orders)
    {
      hit := order in orders && orders[order].status == expected;
      if hit {
        orders := orders[order := orders[order].(status := status)];
      }
    }

    method SetOrderSnapshot(order: int, snapshot: Snapshot)
      requires order in orders
      modifies this`orders
      ensures orders == old(orders)[order := old(orders)[order].(snapshot := Some(snapshot))]
    {
      orders := orders[order := orders[order].(snapshot := Some(snapshot))];
    }

    /** claim_order_items: `None` is the UNIQUE violation on schedule_seat_id. */
    method ClaimOrderItems(order: int, schedule: int, user: int, ids: seq<int>, now: int)
      returns (rows: Option<set<SeatKey>>)
      modifies this`items
      ensures var live := LiveSeats(old(State()), schedule, user, ids, now);
              if live !! old(items).Keys
              then rows == Some(live) && items == old(items) + map k | k in live && k in seats ::
                ItemRow(order, seats[k].price)
              else rows == None && items == old(items)
    {
      var live := set k | k in Wanted(schedule, ids) && k in seats && LiveHold(seats[k], user, now);
      if live !! items.Keys {
        items := items + map k | k in live && k in seats :: ItemRow(order, seats[k].price);
        rows := Some(live);
      } else {
        rows := None;
      }
    }

    /** book_order_seats: the order's items that are still HELD. */
    method BookOrderSeats(order: int) returns (rows: set<SeatKey>)
      modifies this`seats
      ensures rows == set k | k in ItemsOf(old(State()), order) && k in old(seats) && old(seats)[k].status.Held?
      ensures seats == Put(old(seats), rows, Booked)
    {
      rows := set k | k in ItemsOf(State(), order) && k in seats && seats[k].status.Held?;
      seats := Put(seats, rows, Booked);
    }

    /** restore_order_seats: only the status column; the hold columns of a booked row are NULL. */
    method RestoreOrderSeats(order: int) returns (rows: set<SeatKey>)
      requires ShapeInv(seats)
      modifies this`seats
      ensures rows == BookedItems(old(State()), order)
      ensures seats == Put(old(seats), rows, Available)
    {
      rows := set k | k in ItemsOf(State(), order) && k in seats && seats[k].status.Booked?;
      assert forall k :: k in rows ==> HoldShape(seats[k]);
      seats := map k | k in seats :: if k in rows then seats[k].(status := Available) else seats[k];
    }

    // ---------------------------------------------------------------- payments and outbox

    /** insert_payment: false is the UNIQUE violation on pg_tid. */
    method InsertPayment(row: PaymentRow) returns (ok: bool)
      modifies this`payments
      ensures ok == (row.tid.Some? ==> TidFree(old(payments), row.tid.value))
      ensures payments == if ok then old(payments) + [row] else old(payments)
    {
      ok := row.tid.None? || forall i :: 0 <= i < |payments| ==> payments[i].tid != row.tid;
      if ok {
        payments := payments + [row];
      }
    }

    /** promote_payment_to_approved: no row, or the open attempt promoted, or a UNIQUE violation. */
    method PromotePayment(order: int, tid: int) returns (ok: bool, promoted: bool)
      modifies this`payments
      ensures promoted == (Count(old(payments), order, Requested) > 0)
      ensures ok == (promoted ==> TidFree(old(payments), tid))
      ensures payments == if ok && promoted then Settle(old(payments), order, PayStatus.Approved, Some(tid))
              else old(payments)
    {
      promoted := Count(payments, order, Requested) > 0;
      ok := !promoted || forall i :: 0 <= i < |payments| ==> payments[i].tid != Some(tid);
      if ok && promoted {
        payments := Settle(payments, order, PayStatus.Approved, Some(tid));
      }
    }

    method FailPendingPayments(order: int)
      modifies this`payments
      ensures payments == Settle(old(payments), order, PayStatus.Failed, None)
    {
      payments := Settle(payments, order, PayStatus.Failed, None);
    }

    /** approved_payment: the newest APPROVED row of the order. */
    method ApprovedPayment(order: int) returns (row: Option<PaymentRow>)
      ensures row.Some? <==> Count(payments, order, PayStatus.Approved) > 0
      ensures row.Some? ==> row.value in payments && row.value.order == order && row.value.status.Approved?
      ensures ApprovedTid(payments, order) == if row.Some? then row.value.tid else None
    {
      CountBound(payments, order, PayStatus.Approved);
      row := None;
      var i := |payments|;
      assert payments[..i] == payments;
      while i > 0
        invariant 0 <= i <= |payments|
        invariant forall j :: i <= j < |payments| ==> !(payments[j].order == order && payments[j].status.Approved?)
        invariant ApprovedTid(payments, order) == ApprovedTid(payments[..i], order)
      {
        assert payments[..i][..i - 1] == payments[..i - 1];
        i := i - 1;
        if payments[i].order == order && payments[i].status.Approved? {
          return Some(payments[i]);
        }
      }
    }

    /** unresolved_orders: the oldest pending orders nobody has locked, at most `batch` of them. */
    method UnresolvedOrders(cutoff: int, batch: nat, locked: set<int>) returns (ids: seq<int>)
      ensures forall id :: id in ids ==>
                id in orders && orders[id].status.Pending? && orders[id].createdAt < cutoff && id !in locked
      ensures |ids| < batch ==>
                forall id :: id in orders && id !in locked && id !in ids ==>
                  !(orders[id].status.Pending? && orders[id].createdAt < cutoff)
      ensures ScansOldest(orders, cutoff, locked, ids, batch)
    {
      ids := PickOldestOrders(orders, Unresolved(orders, cutoff, locked), batch);
      OldestByColumns(orders, cutoff, locked, ids, batch);
    }

    method InsertOutbox(row: OutboxRow)
      modifies this`outbox
      ensures outbox == old(outbox) + [row]
    {
      outbox := outbox + [row];
    }
  }

  /** `rows` is what ORDER BY hold_expires_at LIMIT batch may leave of `free`. */
  ghost predicate OldestFirst(seats: map<SeatKey, SeatRow>, free: set<SeatKey>, rows: set<SeatKey>, batch: nat) {
    && rows <= free
    && |rows| == (if |free| <= batch then |free| else batch)
    && forall k, j :: k in rows && j in free && j !in rows ==> Deadline(seats, k) <= Deadline(seats, j)
  }

  /** A sweep takes held rows whose deadline has passed and that nobody has locked, oldest first, and a full batch
      or all there are. */
  ghost predicate SweepsOldest(seats: Seats, rows: set<SeatKey>, locked: set<SeatKey>, batch: nat, now: int) {
    && |rows| <= batch
    && (forall k :: k in rows ==>
          k in seats && k !in locked && seats[k].status.Held? && seats[k].expires.Some? && seats[k].expires.value < now)
    && (forall j :: j in seats && j !in locked && seats[j].status.Held? && seats[j].expires.Some?
                    && seats[j].expires.value < now && j !in rows ==>
          && |rows| == batch
          && forall k :: k in rows ==>
             k in seats && seats[k].expires.Some? && seats[k].expires.value <= seats[j].expires.value)
  }

  function Deadline(seats: map<SeatKey, SeatRow>, k: SeatKey): int {
    if k in seats && seats[k].expires.Some? then seats[k].expires.value else 0
  }

  method PickOldest(seats: map<SeatKey, SeatRow>, free: set<SeatKey>, batch: nat) returns (rows: set<SeatKey>)
    ensures OldestFirst(seats, free, rows, batch)
  {
    var left := free;
    rows := {};
    while left != {} && |rows| < batch
      invariant rows !! left && rows + left == free && |rows| + |left| == |free| && |rows| <= batch
      invariant forall k, j :: k in rows && j in left ==> Deadline(seats, k) <= Deadline(seats, j)
      decreases left
    {
      OldestSeatExists(seats, left);
      var k :| k in left && forall j :: j in left ==> Deadline(seats, k) <= Deadline(seats, j);
      rows, left := rows + {k}, left - {k};
    }
  }

  /** Among finitely many things with a date there is an earliest one. */
  lemma {:induction false} EarliestExists<T>(at: T -> int, xs: set<T>)
    requires xs != {}
    ensures exists x :: x in xs && forall y :: y in xs ==> at(x) <= at(y)
  {
    if forall x :: x !in xs { assert false; }
    var x :| x in xs;
    if xs - {x} != {} {
      EarliestExists(at, xs - {x});
      var m :| m in xs - {x} && forall y :: y in xs - {x} ==> at(m) <= at(y);
      var best := if at(x) <= at(m) then x else m;
      assert forall y :: y in xs ==> y == x || y in xs - {x};
      assert best in xs && forall y :: y in xs ==> at(best) <= at(y);
    } else {
      assert xs == {x};
    }
  }

  lemma OldestSeatExists(seats: map<SeatKey, SeatRow>, ks: set<SeatKey>)
    requires ks != {}
    ensures exists k :: k in ks && forall j :: j in ks ==> Deadline(seats, k) <= Deadline(seats, j)
  {
    EarliestExists(k => Deadline(seats, k), ks);
  }

  lemma OldestOrderExists(orders: Orders, ids: set<int>)
    requires ids != {}
    ensures exists id :: id in ids && forall other :: other in ids ==> CreatedAt(orders, id) <= CreatedAt(orders, other)
  {
    EarliestExists(id => CreatedAt(orders, id), ids);
  }

  /** Pending orders created before `cutoff`, except those another worker has locked. */
  function Unresolved(orders: Orders, cutoff: int, locked: set<int>): set<int> {
    set id | id in orders && orders[id].status.Pending? && orders[id].createdAt < cutoff && id !in locked
  }

  /** `ids` is what ORDER BY created_at LIMIT batch may return. */
  ghost predicate OldestOrders(orders: Orders, free: set<int>, ids: seq<int>, batch: nat) {
    && Distinct(ids)
    && |ids| == (if |free| <= batch then |free| else batch)
    && (forall i :: 0 <= i < |ids| ==> ids[i] in free)
    && (forall i, j :: 0 <= i < j < |ids| ==> CreatedAt(orders, ids[i]) <= CreatedAt(orders, ids[j]))
    && (forall i, id :: 0 <= i < |ids| && id in free && id !in ids ==>
        CreatedAt(orders, ids[i]) <= CreatedAt(orders, id))
  }

  /** What a scan may return: distinct pending orders made before `cutoff` that nobody else has locked, oldest
      first, none of those left out older than any of them, and a full batch or all there are. */
  ghost predicate ScansOldest(orders: Orders, cutoff: int, locked: set<int>, ids: seq<int>, batch: nat) {
    && Distinct(ids) && |ids| <= batch
    && (forall id :: id in ids ==>
          id in orders && orders[id].status.Pending? && orders[id].createdAt < cutoff && id !in locked)
    && (forall i, j :: 0 <= i < j < |ids| && ids[i] in orders && ids[j] in orders ==>
          orders[ids[i]].createdAt <= orders[ids[j]].createdAt)
    && (forall id :: id in orders && orders[id].status.Pending? && orders[id].createdAt < cutoff && id !in locked ==>
          id in ids || (|ids| == batch && forall other :: other in ids ==>
                          other in orders && orders[other].createdAt <= orders[id].createdAt))
  }

  lemma OldestByColumns(orders: Orders, cutoff: int, locked: set<int>, ids: seq<int>, batch: nat)
    requires OldestOrders(orders, Unresolved(orders, cutoff, locked), ids, batch)
    ensures ScansOldest(orders, cutoff, locked, ids, batch)
  {
    hide Distinct;
    var due := Unresolved(orders, cutoff, locked);
    MembersSize(ids);
    assert forall id :: id in ids ==> id in due;
    if |ids| < batch {
      SubsetSize(Members(ids), due);
      assert forall id :: id in due ==> id in ids;
    }
    forall id, other | id in due && id !in ids && other in ids
      ensures CreatedAt(orders, other) <= CreatedAt(orders, id)
    {
      var i :| 0 <= i < |ids| && ids[i] == other;
      assert CreatedAt(orders, ids[i]) <= CreatedAt(orders, id);
    }
  }

  function CreatedAt(orders: Orders, id: int): int {
    if id in orders then orders[id].createdAt else 0
  }

  method PickOldestOrders(orders: Orders, free: set<int>, batch: nat) returns (ids: seq<int>)
    ensures OldestOrders(orders, free, ids, batch)
  {
    var left := free;
    ids := [];
    while left != {} && |ids| < batch
      invariant forall id :: id in free <==> id in left || id in ids
      invariant forall id :: id in ids ==> id !in left
      invariant Distinct(ids) && |ids| + |left| == |free| && |ids| <= batch
      invariant forall i, j :: 0 <= i < j < |ids| ==> CreatedAt(orders, ids[i]) <= CreatedAt(orders, ids[j])
      invariant forall i, id :: 0 <= i < |ids| && id in left ==> CreatedAt(orders, ids[i]) <= CreatedAt(orders, id)
      decreases left
    {
      OldestOrderExists(orders, left);
      var id :| id in left && forall other :: other in left ==> CreatedAt(orders, id) <= CreatedAt(orders, other);
      ids, left := ids + [id], left - {id};
    }
  }
}

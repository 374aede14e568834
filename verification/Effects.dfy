/** What each transaction of the saga leaves in the tables, column by column: which seats it frees or
    books, which rows it writes, and that it leaves everything else alone. */
module Effects {
  import opened Domain
  import opened Tables
  import opened Transactions
  import opened Invariants
  import opened History

  // ------------------------------------------------------------------ seats

  /** The named seats that this user held, live or expired, are free now, at their price; no other row changed. */
  ghost predicate HoldsFreed(a: Seats, b: Seats, schedule: int, user: int, ids: seq<int>) {
    && b.Keys == a.Keys
    && (forall s :: s in ids && SeatKey(schedule, s) in a ==>
          var k := SeatKey(schedule, s);
          a[k].status.Held? && a[k].heldBy == Some(user) ==>
            b[k].status.Available? && b[k].heldBy.None? && b[k].expires.None? && b[k].price == a[k].price)
    && (forall k :: k in a && b[k] != a[k] ==>
          k.schedule == schedule && k.seat in ids && a[k].status.Held? && a[k].heldBy == Some(user))
  }

  lemma PutFrees(db: Db, schedule: int, user: int, ids: seq<int>)
    ensures HoldsFreed(db.seats, Put(db.seats, HeldSeats(db, schedule, user, ids), Available), schedule, user, ids)
  {
    var mine := HeldSeats(db, schedule, user, ids);
    forall k | k in db.seats
      ensures k in mine <==> k.schedule == schedule && k.seat in ids && HeldBy(db.seats[k], user)
    {
      assert k.seat in ids && k.schedule == schedule ==> SeatKey(schedule, k.seat) == k;
    }
  }

  /** Freed once, nothing is left to free. */
  lemma NothingLeft(a: Seats, d: Db, schedule: int, user: int, ids: seq<int>)
    requires HoldsFreed(a, d.seats, schedule, user, ids)
    ensures ReleaseTx(d, schedule, user, ids) == (d, Freed({}))
  {
    forall k | k in Wanted(schedule, ids) && k in d.seats
      ensures !HeldBy(d.seats[k], user)
    {
      assert k == SeatKey(schedule, k.seat) && k.seat in ids;
    }
    assert HeldSeats(d, schedule, user, ids) == {};
    assert Put(d.seats, {}, Available) == d.seats;
  }

  /** So anybody else within the quota can take the seats the user held, at once. */
  lemma FreedForOthers(a: Seats, d: Db, schedule: int, user: int, ids: seq<int>, other: int, wish: seq<int>, max: int,
                       ttl: int, now: int)
    requires HoldsFreed(a, d.seats, schedule, user, ids)
    requires wish != [] && Distinct(wish) && |Owned(d, schedule, other, now)| + |wish| <= max
    requires forall s :: s in wish ==>
               s in ids && SeatKey(schedule, s) in a && HeldBy(a[SeatKey(schedule, s)], user)
    ensures AcquireTx(d, schedule, other, wish, max, ttl, now).1.HoldGranted?
  {
    AcquireVerdict(d, schedule, other, wish, max, ttl, now);
    forall s | s in wish
      ensures SeatKey(schedule, s) in d.seats && Claimable(d.seats[SeatKey(schedule, s)], now)
    {}
  }

  // ------------------------------------------------------------------ attempts

  /** The open attempts of one order have failed; every other payment row is as it was. */
  ghost predicate AttemptsFailed(a: seq<PaymentRow>, b: seq<PaymentRow>, order: int) {
    && |b| == |a|
    && forall i :: 0 <= i < |a| ==>
         b[i] == if a[i].order == order && a[i].status.Requested? then a[i].(status := PayStatus.Failed) else a[i]
  }

  lemma SettleFails(ps: seq<PaymentRow>, order: int)
    ensures AttemptsFailed(ps, Settle(ps, order, PayStatus.Failed, None), order)
  {
    CountSettle(ps, order, PayStatus.Failed, None, order, Requested);
  }

  // ------------------------------------------------------------------ closing and refunding

  /** _close_unpaid on a pending order: FAILED after a declined approval, CANCELED after a declined inquiry;
      the buyer's holds on its seats are free and for others to take, its attempt has failed, and
      nothing else changed. */
  lemma ClosingFreesTheSeats(db: Db, id: int, ask: PayAsk, now: int)
    requires DbInv(db) && id in db.orders && db.orders[id].status.Pending?
    ensures var o := db.orders[id];
            var (d, out) := Apply(db, CloseUnpaid(id, ask), now);
            && out.Closed?
            && HoldsFreed(db.seats, d.seats, o.schedule, o.user, o.seatIds)
            && ReleaseTx(d, o.schedule, o.user, o.seatIds) == (d, Freed({}))
            && d.orders == db.orders[id := o.(status := if ask.AskApprove? then OrderStatus.Failed else Canceled)]
            && AttemptsFailed(db.payments, d.payments, id)
            && d.items == db.items && d.keys == db.keys && d.outbox == db.outbox
  {
    var o := db.orders[id];
    var d := Apply(db, CloseUnpaid(id, ask), now).0;
    PutFrees(db, o.schedule, o.user, o.seatIds);
    NothingLeft(db.seats, d, o.schedule, o.user, o.seatIds);
    SettleFails(db.payments, id);
  }

  /** The seats of a closed order are for sale: another user within the quota gets those the buyer held. */
  lemma ClosedSeatsAreForSale(db: Db, id: int, ask: PayAsk, now: int, other: int, wish: seq<int>, max: int, ttl: int,
                              later: int)
    requires DbInv(db) && id in db.orders && db.orders[id].status.Pending?
    requires wish != [] && Distinct(wish)
    requires forall s :: s in wish ==>
               var k := SeatKey(db.orders[id].schedule, s);
               s in db.orders[id].seatIds && k in db.seats && HeldBy(db.seats[k], db.orders[id].user)
    ensures var d := Apply(db, CloseUnpaid(id, ask), now).0;
            var schedule := db.orders[id].schedule;
            |Owned(d, schedule, other, later)| + |wish| <= max ==>
              AcquireTx(d, schedule, other, wish, max, ttl, later).1.HoldGranted?
  {
    var o := db.orders[id];
    var d := Apply(db, CloseUnpaid(id, ask), now).0;
    ClosingFreesTheSeats(db, id, ask, now);
    if |Owned(d, o.schedule, other, later)| + |wish| <= max {
      FreedForOthers(db.seats, d, o.schedule, o.user, o.seatIds, other, wish, max, ttl, later);
    }
  }

  /** The record of _refund_and_fail: one row for the refund with its amount and number, the open attempt failed.
      Only if the refund was approved, the buyer's holds are freed and a pending order is FAILED. */
  lemma RefundLeaves(db: Db, id: int, amount: nat, approved: bool, tid: Option<int>, now: int)
    requires id in db.orders && (tid.Some? ==> TidFree(db.payments, tid.value))
    ensures var o := db.orders[id];
            var (d, out) := Apply(db, RecordRefund(id, amount, approved, tid), now);
            && out.Recorded?
            && |d.payments| == |db.payments| + 1
            && d.payments[|db.payments|]
               == PaymentRow(id, if approved then Refunded else PayStatus.Failed, amount, tid, None)
            && AttemptsFailed(db.payments, d.payments[..|db.payments|], id)
            && (approved ==>
                  && HoldsFreed(db.seats, d.seats, o.schedule, o.user, o.seatIds)
                  && ReleaseTx(d, o.schedule, o.user, o.seatIds) == (d, Freed({})))
            && (!approved ==> d.seats == db.seats)
            && d.orders == (if approved && o.status.Pending? then db.orders[id := o.(status := OrderStatus.Failed)]
                            else db.orders)
            && d.items == db.items && d.keys == db.keys && d.outbox == db.outbox
  {
    hide Settle, Put, TidFree;
    var o := db.orders[id];
    var d := Apply(db, RecordRefund(id, amount, approved, tid), now).0;
    RefundRows(db.payments, PaymentRow(id, if approved then Refunded else PayStatus.Failed, amount, tid, None));
    if approved {
      PutFrees(db, o.schedule, o.user, o.seatIds);
      NothingLeft(db.seats, d, o.schedule, o.user, o.seatIds);
    }
  }

  lemma RefundRows(ps: seq<PaymentRow>, row: PaymentRow)
    requires !row.status.Requested?
    ensures var qs := Settle(ps + [row], row.order, PayStatus.Failed, None);
            |qs| == |ps| + 1 && qs[|ps|] == row && AttemptsFailed(ps, qs[..|ps|], row.order)
  {
    SettleFails(ps + [row], row.order);
  }

  /** After an approved refund, too, others can take the seats the buyer held. */
  lemma RefundedSeatsAreForSale(db: Db, id: int, amount: nat, tid: Option<int>, now: int, other: int, wish: seq<int>,
                                max: int, ttl: int, later: int)
    requires id in db.orders && (tid.Some? ==> TidFree(db.payments, tid.value)) && wish != [] && Distinct(wish)
    requires forall s :: s in wish ==>
               var k := SeatKey(db.orders[id].schedule, s);
               s in db.orders[id].seatIds && k in db.seats && HeldBy(db.seats[k], db.orders[id].user)
    ensures var d := Apply(db, RecordRefund(id, amount, true, tid), now).0;
            var schedule := db.orders[id].schedule;
            |Owned(d, schedule, other, later)| + |wish| <= max ==>
              AcquireTx(d, schedule, other, wish, max, ttl, later).1.HoldGranted?
  {
    var o := db.orders[id];
    var d := Apply(db, RecordRefund(id, amount, true, tid), now).0;
    RefundLeaves(db, id, amount, true, tid, now);
    if |Owned(d, o.schedule, other, later)| + |wish| <= max {
      FreedForOthers(db.seats, d, o.schedule, o.user, o.seatIds, other, wish, max, ttl, later);
    }
  }

  // ------------------------------------------------------------------ opening and confirming

  /** An opened order is the buyer's, for the seats asked for, pending, made now, without a response, and has
      one open attempt for its total; the seats stay as they were. */
  lemma OpeningLeaves(db: Db, id: int, schedule: int, user: int, ids: seq<int>, key: string, margin: int, now: int)
    requires OpenTx(db, id, schedule, user, ids, key, margin, now).1.Opened?
    ensures var (d, out) := OpenTx(db, id, schedule, user, ids, key, margin, now);
            && out.order == id && id !in db.orders && key !in db.keys
            && d.orders.Keys == db.orders.Keys + {id} && (forall p :: p in db.orders ==> d.orders[p] == db.orders[p])
            && d.orders[id].user == user && d.orders[id].schedule == schedule && d.orders[id].seatIds == ids
            && d.orders[id].key == key && d.orders[id].createdAt == now && d.orders[id].snapshot.None?
            && d.orders[id].status.Pending? && d.orders[id].total == out.total
            && d.keys == db.keys[key := id]
            && d.payments == db.payments + [PaymentRow(id, Requested, out.total, None, None)]
            && d.seats == db.seats && d.items == db.items && d.outbox == db.outbox
  {}

  /** A confirmed order: its seats are booked without a hold and carry its items at their price, it is PAID with
      the response naming them, and no other seat, item, order or key changed. */
  lemma ConfirmingLeaves(db: Db, id: int, tid: int, now: int)
    requires DbInv(db) && ConfirmTx(db, id, tid, now).1.Confirmed?
    ensures id in db.orders
    ensures var o := db.orders[id];
            var d := ConfirmTx(db, id, tid, now).0;
            && d.seats.Keys == db.seats.Keys
            && (forall s :: s in o.seatIds ==>
                  var k := SeatKey(o.schedule, s);
                  && k in db.seats && d.seats[k] == SeatRow(Booked, None, None, db.seats[k].price)
                  && k in d.items && d.items[k].order == id && d.items[k].price == db.seats[k].price)
            && (forall k :: k in db.seats && !(k.schedule == o.schedule && k.seat in o.seatIds) ==>
                d.seats[k] == db.seats[k])
            && (forall k :: k in d.items && !(k.schedule == o.schedule && k.seat in o.seatIds) ==>
                  k in db.items && d.items[k] == db.items[k])
            && (forall k :: k in db.items ==> k in d.items && d.items[k] == db.items[k])
            && d.orders.Keys == db.orders.Keys
               && (forall p :: p in db.orders && p != id ==> d.orders[p] == db.orders[p])
            && d.orders[id].status.Paid? && d.orders[id].snapshot.Some? && d.orders[id].snapshot.value.order == id
            && (forall k :: k in d.orders[id].snapshot.value.seats <==> k.schedule == o.schedule && k.seat in o.seatIds)
            && d.keys == db.keys
  {
    var o := db.orders[id];
    ConfirmableFacts(db, id, now);
    forall k: SeatKey
      ensures k in OrderKeys(o) <==> k.schedule == o.schedule && k.seat in o.seatIds
    {
      assert k.schedule == o.schedule && k.seat in o.seatIds ==> k == SeatKey(o.schedule, k.seat);
    }
  }

  /** Its message lists the seats. */
  lemma ConfirmingAnnounces(db: Db, id: int, tid: int, now: int)
    requires ConfirmTx(db, id, tid, now).1.Confirmed?
    ensures id in db.orders
    ensures ConfirmTx(db, id, tid, now).0.outbox == db.outbox + [OrderPaid(id, db.orders[id].seatIds)]
  {
    hide Confirmable, Settle, Put, TidFree;
  }

  /** The payment rows of a confirmation. */
  lemma ConfirmingPays(db: Db, id: int, tid: int, now: int)
    requires DbInv(db) && ConfirmTx(db, id, tid, now).1.Confirmed?
    ensures id in db.orders
    ensures var ps, qs := db.payments, ConfirmTx(db, id, tid, now).0.payments;
            if exists i :: 0 <= i < |ps| && ps[i].order == id && ps[i].status.Requested? then
              && |qs| == |ps|
              && forall i :: 0 <= i < |ps| ==>
                   qs[i] == if ps[i].order == id && ps[i].status.Requested?
                            then ps[i].(status := PayStatus.Approved, tid := Some(tid)) else ps[i]
            else
              qs == ps + [PaymentRow(id, PayStatus.Approved, db.orders[id].total, Some(tid), None)]
  {
    hide ShapeInv, ItemInv, BookedInv, OrderInv, KeyInv, RowsInv, CountInv, OutboxInv, Confirmable, TidFree, Put,
      Count, Settle;
    CountBound(db.payments, id, Requested);
    CountSettle(db.payments, id, PayStatus.Approved, Some(tid), id, Requested);
  }

  // ------------------------------------------------------------------ cancelling

  /** A recorded cancellation: every seat of the order is free without a hold, the order is CANCELED and keeps its
      response and its items, one REFUNDED row carries number, refund and fee, one message both amounts,
      and nothing else changed. */
  lemma CancellingLeaves(db: Db, id: int, fee: FeeSnapshot, tid: Option<int>, now: int)
    requires DbInv(db) && Apply(db, RecordCancel(id, fee, tid), now).1.Closed?
    ensures id in db.orders && db.orders[id].status.Paid?
    ensures var o := db.orders[id];
            var d := Apply(db, RecordCancel(id, fee, tid), now).0;
            && d.seats.Keys == db.seats.Keys
            && (forall s :: s in o.seatIds ==>
                  var k := SeatKey(o.schedule, s);
                  k in db.seats && d.seats[k] == SeatRow(Available, None, None, db.seats[k].price))
            && (forall k :: k in db.seats && !(k.schedule == o.schedule && k.seat in o.seatIds) ==>
                d.seats[k] == db.seats[k])
            && d.orders == db.orders[id := o.(status := Canceled)]
            && d.payments == db.payments + [PaymentRow(id, Refunded, fee.refund, tid, Some(fee))]
            && d.outbox == db.outbox + [OrderCanceled(id, fee.fee, fee.refund)]
            && d.items == db.items && d.keys == db.keys
  {
    hide ShapeInv, RowsInv, CountInv, OutboxInv, KeyInv, SumPrices, TidFree;
    var o := db.orders[id];
    OwnedItems(db, id);
    forall k: SeatKey
      ensures k in OrderKeys(o) <==> k.schedule == o.schedule && k.seat in o.seatIds
    {
      assert k.schedule == o.schedule && k.seat in o.seatIds ==> k == SeatKey(o.schedule, k.seat);
    }
    assert BookedItems(db, id) == OrderKeys(o);
  }

  /** A cancel that finds the order no longer paid writes nothing at all, not even the refund it already made. */
  lemma SecondCancelIsNotRecorded(db: Db, id: int, fee: FeeSnapshot, tid: Option<int>, again: FeeSnapshot,
                                  second: Option<int>, now: int, later: int)
    requires Apply(db, RecordCancel(id, fee, tid), now).1.Closed?
    ensures var d := Apply(db, RecordCancel(id, fee, tid), now).0;
            Apply(d, RecordCancel(id, again, second), later) == (d, AlreadySettled)
  {}

  /** A refund that did not go through leaves one FAILED row with the amount and the fee, without a number. */
  lemma RefusalLeaves(db: Db, id: int, fee: FeeSnapshot, now: int)
    requires id in db.orders
    ensures var d := Apply(db, RecordRefusal(id, fee), now).0;
            && |d.payments| == |db.payments| + 1 && d.payments[..|db.payments|] == db.payments
            && d.payments[|db.payments|].order == id && d.payments[|db.payments|].status.Failed?
            && d.payments[|db.payments|].amount == fee.refund && d.payments[|db.payments|].tid.None?
            && d.payments[|db.payments|].fee == Some(fee)
            && d == db.(payments := d.payments)
  {}

  // ------------------------------------------------------------------ sweeping

  /** A sweep frees exactly the chosen seats whose hold has run out, reports just those, and touches nothing else. */
  lemma SweepFreesWhatItReports(db: Db, chosen: set<SeatKey>, now: int)
    ensures var (d, out) := Apply(db, Sweep(chosen), now);
            && out.Freed?
            && (forall k :: k in out.seats <==>
                  k in chosen && k in db.seats && db.seats[k].status.Held? && db.seats[k].expires.Some?
                  && db.seats[k].expires.value < now)
            && d == db.(seats := d.seats) && d.seats.Keys == db.seats.Keys
            && (forall k :: k in db.seats ==>
                  d.seats[k] == if k in out.seats then SeatRow(Available, None, None, db.seats[k].price)
                    else db.seats[k])
  {}
}

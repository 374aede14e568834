/** The transactions of app/service/order_service.py, statement by statement over the tables in
    place. Each is proved to do in one go what its specification in Transactions.dfy says: the
    same tables and the same outcome, with every exception rolling everything back. */
module OrderTransactions {
  import opened Domain
  import opened Tables
  import opened Transactions
  import opened Invariants
  import opened Statements

  /** The three counts confirm_paid makes are one condition. */
  lemma ConfirmableByCounts(db: Db, order: int, now: int)
    requires DbInv(db) && order in db.orders && db.orders[order].status.Pending?
    ensures var o := db.orders[order];
            var live := LiveSeats(db, o.schedule, o.user, o.seatIds, now);
            && o.seatIds != []
            && (Confirmable(db, order, now) <==> live !! db.items.Keys && |live| == |o.seatIds|)
            && (Confirmable(db, order, now) ==> live == OrderKeys(o))
  {
    var o := db.orders[order];
    var live := LiveSeats(db, o.schedule, o.user, o.seatIds, now);
    assert OrderOk(db.seats, db.items, order, o);
    WantedSize(o.schedule, o.seatIds);
    if live !! db.items.Keys && |live| == |o.seatIds| {
      LiveAll(db, o.schedule, o.user, o.seatIds, now);
      forall s | s in o.seatIds
        ensures SeatKey(o.schedule, s) in live
      {
        assert SeatKey(o.schedule, s) in Wanted(o.schedule, o.seatIds);
      }
    }
    if Confirmable(db, order, now) { assert live == Wanted(o.schedule, o.seatIds); }
  }

  /** Every seat claimed is booked: nothing else of the order was there before. */
  lemma ClaimedAreBooked(before: Db, after: Db, order: int, now: int)
    requires DbInv(before) && Confirmable(before, order, now)
    requires after.seats == before.seats && after.items == before.items + NewItems(before, order)
    ensures (set k | k in ItemsOf(after, order) && k in after.seats && after.seats[k].status.Held?)
            == OrderKeys(before.orders[order])
  {
    hide ShapeInv, ItemInv, BookedInv, OrderInv, KeyInv, RowsInv, CountInv, OutboxInv;
    ConfirmableFacts(before, order, now);
    var ks := OrderKeys(before.orders[order]);
    forall k | k in ks
      ensures k in ItemsOf(after, order) && after.seats[k].status.Held?
    {
      assert LiveHold(before.seats[k], before.orders[order].user, now);
    }
  }

  lemma ConfirmedTables(db: Db, order: int, tid: int, now: int)
    requires Confirmable(db, order, now) && TidFree(db.payments, tid)
    ensures ConfirmTx(db, order, tid, now)
            == (Db(Put(db.seats, OrderKeys(db.orders[order]), Booked), db.orders[order := PaidRow(db, order)],
                   db.items + NewItems(db, order), db.keys, Approving(db.payments, order, db.orders[order].total, tid),
                   db.outbox + [OrderPaid(order, db.orders[order].seatIds)]),
                Confirmed)
  {
    assert NewItems(db, order)
      == map k | k in OrderKeys(db.orders[order]) && k in db.seats :: ItemRow(order, db.seats[k].price);
  }

  /** The payment part of confirm_paid: promote the open attempt, or insert an approval. */
  method RecordApproval(db: Database, order: int, total: nat, tid: int) returns (ok: bool)
    modifies db`payments
    ensures ok == TidFree(old(db.payments), tid)
    ensures db.payments == if ok then Approving(old(db.payments), order, total, tid) else old(db.payments)
  {
    var promoted;
    ok, promoted := db.PromotePayment(order, tid);
    if ok && !promoted {
      ok := db.InsertPayment(PaymentRow(order, PayStatus.Approved, total, Some(tid), None));
    }
  }

  /** The seat part of confirm_paid, once the order is marked: claim the seats for the order, book
      them, count both times. `None` is the exception. */
  method ClaimAndBook(db: Database, order: int, o: OrderRow, ghost saved: Db, now: int)
    returns (items: Option<set<SeatKey>>)
    requires DbInv(saved) && order in saved.orders && saved.orders[order] == o && o.status.Pending?
    requires db.State() == saved.(orders := db.orders)
    modifies db`items, db`seats
    ensures items == if Confirmable(saved, order, now) then Some(OrderKeys(o)) else None
    ensures items.Some? ==>
            db.seats == Put(saved.seats, OrderKeys(o), Booked) && db.items == saved.items + NewItems(saved, order)
  {
    ConfirmableByCounts(saved, order, now);
    if o.seatIds == [] {
      assert false;
    }
    items := db.ClaimOrderItems(order, o.schedule, o.user, o.seatIds, now);
    if items.None? {
      return None;
    }
    if |items.value| != |o.seatIds| {
      return None;
    }
    assert db.items == saved.items + NewItems(saved, order);
    ClaimedAreBooked(saved, db.State(), order, now);
    var booked := db.BookOrderSeats(order);
    if |booked| != |o.seatIds| {
      assert false;
    }
  }

  /** confirm_paid. */
  method ConfirmPaid(db: Database, order: int, tid: int, now: int) returns (out: Outcome)
    requires db.Valid()
    modifies db
    ensures (db.State(), out) == ConfirmTx(old(db.State()), order, tid, now)
  {
    hide ShapeInv, ItemInv, BookedInv, OrderInv, KeyInv, RowsInv;
    hide CountInv, OutboxInv, Put, Approving, NewItems, TidFree;
    var saved := db.State();
    if order !in db.orders {
      return NoSuchOrder;
    }
    var o := db.orders[order];
    var claimed := db.MarkOrder(order, Paid, Pending);
    if !claimed {
      return AlreadySettled;
    }
    var items := ClaimAndBook(db, order, o, saved, now);
    if items.None? {
      db.Rollback(saved);
      return HoldExpired;
    }
    var ok := RecordApproval(db, order, o.total, tid);
    if !ok {
      db.Rollback(saved);
      return Aborted;
    }
    db.InsertOutbox(OrderPaid(order, o.seatIds));
    db.SetOrderSnapshot(order, Snapshot(order, items.value));
    ConfirmedTables(saved, order, tid, now);
    assert db.orders == saved.orders[order := PaidRow(saved, order)];
    out := Confirmed;
  }

  /** The first transaction of place, after its check for an empty list. */
  method OpenPending(db: Database, id: int, schedule: int, user: int, ids: seq<int>, key: string, minRemaining: int,
                     now: int)
    returns (out: Outcome)
    requires ids != []
    modifies db
    ensures (db.State(), out) == OpenTx(old(db.State()), id, schedule, user, ids, key, minRemaining, now)
  {
    var ok, total := db.OpenOrder(id, schedule, user, ids, key, minRemaining, now);
    if !ok {
      return Aborted;
    }
    if total.None? {
      if key in db.keys {
        return Duplicate(db.keys[key]);
      }
      return HoldExpired;
    }
    var inserted := db.InsertPayment(PaymentRow(id, Requested, total.value, None, None));
    out := Opened(id, total.value);
  }

  /** _close_unpaid. */
  method CloseOrder(db: Database, order: int, status: OrderStatus) returns (out: Outcome)
    modifies db
    ensures (db.State(), out) == CloseTx(old(db.State()), order, status)
  {
    if order !in db.orders {
      return NoSuchOrder;
    }
    var o := db.orders[order];
    var closed := db.MarkOrder(order, status, Pending);
    if !closed {
      return AlreadySettled;
    }
    db.FailPendingPayments(order);
    var released := db.ReleaseHold(o.schedule, o.user, o.seatIds);
    out := Closed;
  }

  /** The transaction of _refund_and_fail, once the gateway has answered. */
  method RecordRefundOutcome(db: Database, order: int, amount: nat, approved: bool, tid: Option<int>)
    returns (out: Outcome)
    modifies db
    ensures (db.State(), out) == RefundTx(old(db.State()), order, amount, approved, tid)
  {
    if order !in db.orders {
      return Aborted;
    }
    var o := db.orders[order];
    var ok := db.InsertPayment(PaymentRow(order, if approved then Refunded else PayStatus.Failed, amount, tid, None));
    if !ok {
      return Aborted;
    }
    db.FailPendingPayments(order);
    if approved {
      var marked := db.MarkOrder(order, OrderStatus.Failed, Pending);
      var released := db.ReleaseHold(o.schedule, o.user, o.seatIds);
    }
    out := Recorded;
  }

  /** The transaction of cancel after an approved refund. */
  method RecordCancellation(db: Database, order: int, fee: FeeSnapshot, tid: Option<int>) returns (out: Outcome)
    requires ShapeInv(db.seats)
    modifies db
    ensures (db.State(), out) == CancelTx(old(db.State()), order, fee, tid)
  {
    var saved := db.State();
    var closed := db.MarkOrder(order, Canceled, Paid);
    if !closed {
      return AlreadySettled;
    }
    var ok := db.InsertPayment(PaymentRow(order, Refunded, fee.refund, tid, Some(fee)));
    if !ok {
      db.Rollback(saved);
      return Aborted;
    }
    var restored := db.RestoreOrderSeats(order);
    db.InsertOutbox(OrderCanceled(order, fee.fee, fee.refund));
    out := Closed;
  }

  /** The transaction of cancel after a refund that did not go through. */
  method RecordRefusedRefund(db: Database, order: int, fee: FeeSnapshot) returns (out: Outcome)
    modifies db
    ensures (db.State(), out) == CancelRefusedTx(old(db.State()), order, fee)
  {
    if order !in db.orders {
      return Aborted;
    }
    var ok := db.InsertPayment(PaymentRow(order, PayStatus.Failed, fee.refund, None, Some(fee)));
    out := Recorded;
  }
}

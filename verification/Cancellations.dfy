/** What a cancellation leaves behind: one order.canceled message and one REFUNDED row with the fee
    snapshot, both with the same fee and refund, and in the saga the fee of the policy for the
    days the cancel worked with. Nothing here assumes anything about who interleaves or stops. */
module Cancellations {
  import opened Domain
  import opened Tables
  import opened Transactions
  import opened Invariants
  import opened History
  import opened Saga
  import opened SagaSafety

  // ------------------------------------------------------------------ messages and rows

  /** Number of order.canceled messages of an order. */
  function CancelMessages(box: seq<OutboxRow>, id: int): nat {
    if box == [] then 0
    else
      var m := box[|box| - 1];
      CancelMessages(box[..|box| - 1], id) + if m.OrderCanceled? && m.order == id then 1 else 0
  }

  /** Fee and refund of the newest of them. */
  function CancelledFor(box: seq<OutboxRow>, id: int): Option<FeeSnapshot> {
    if box == [] then None
    else
      var m := box[|box| - 1];
      if m.OrderCanceled? && m.order == id
        then Some(FeeSnapshot(m.fee, m.refund)) else CancelledFor(box[..|box| - 1], id)
  }

  predicate IsFeeRow(p: PaymentRow, id: int) {
    p.order == id && p.status.Refunded? && p.fee.Some?
  }

  /** Number of REFUNDED rows of an order that carry a fee snapshot. */
  function FeeRows(ps: seq<PaymentRow>, id: int): nat {
    if ps == [] then 0
    else FeeRows(ps[..|ps| - 1], id) + if IsFeeRow(ps[|ps| - 1], id) then 1 else 0
  }

  /** The snapshot and the amount of the newest of them. */
  function RefundedFor(ps: seq<PaymentRow>, id: int): Option<(FeeSnapshot, nat)> {
    if ps == [] then None
    else
      var p := ps[|ps| - 1];
      if IsFeeRow(p, id) then Some((p.fee.value, p.amount)) else RefundedFor(ps[..|ps| - 1], id)
  }

  /** Cancelled after it was paid. */
  predicate Refundable(o: OrderRow) {
    o.status.Canceled? && EverPaid(o)
  }

  /** One message and one row exactly for the orders cancelled after they were paid, saying the same. */
  ghost predicate CancelOk(db: Db, id: int) {
    id in db.orders ==>
      var done := Refundable(db.orders[id]);
      var said := CancelledFor(db.outbox, id);
      && CancelMessages(db.outbox, id) == FeeRows(db.payments, id) == (if done then 1 else 0)
      && (said.Some? <==> done)
      && (done ==> RefundedFor(db.payments, id) == Some((said.value, said.value.refund)))
  }

  lemma MessageAppend(box: seq<OutboxRow>, m: OutboxRow, id: int)
    ensures CancelMessages(box + [m], id) == CancelMessages(box, id)
            + if m.OrderCanceled? && m.order == id then 1 else 0
    ensures CancelledFor(box + [m], id)
            == if m.OrderCanceled? && m.order == id then Some(FeeSnapshot(m.fee, m.refund)) else CancelledFor(box, id)
  {
    assert (box + [m])[..|box + [m]| - 1] == box;
  }

  lemma RowAppend(ps: seq<PaymentRow>, p: PaymentRow, id: int)
    ensures FeeRows(ps + [p], id) == FeeRows(ps, id) + if IsFeeRow(p, id) then 1 else 0
    ensures RefundedFor(ps + [p], id) == if IsFeeRow(p, id) then Some((p.fee.value, p.amount)) else RefundedFor(ps, id)
  {
    assert (ps + [p])[..|ps + [p]| - 1] == ps;
  }

  /** Settling attempts touches no refund. */
  lemma {:induction false} RowsSettle(ps: seq<PaymentRow>, order: int, st: PayStatus, tid: Option<int>, id: int)
    requires st.Approved? || st.Failed?
    ensures FeeRows(Settle(ps, order, st, tid), id) == FeeRows(ps, id)
    ensures RefundedFor(Settle(ps, order, st, tid), id) == RefundedFor(ps, id)
  {
    if ps != [] {
      var s := Settle(ps, order, st, tid);
      RowsSettle(ps[..|ps| - 1], order, st, tid, id);
      assert s[..|s| - 1] == Settle(ps[..|ps| - 1], order, st, tid);
    }
  }

  lemma {:induction false} NothingCancelled(box: seq<OutboxRow>, ps: seq<PaymentRow>, id: int)
    requires forall i :: 0 <= i < |box| ==> box[i].order != id
    requires forall i :: 0 <= i < |ps| ==> ps[i].order != id
    ensures CancelMessages(box, id) == 0 && CancelledFor(box, id).None? && FeeRows(ps, id) == 0
    decreases |box| + |ps|
  {
    if box != [] {
      NothingCancelled(box[..|box| - 1], ps, id);
    } else if ps != [] {
      NothingCancelled(box, ps[..|ps| - 1], id);
    }
  }

  // ------------------------------------------------------------------ every history

  /** Two databases that agree on what a cancellation leaves behind for one order. */
  ghost predicate SameTraces(a: Db, b: Db, id: int) {
    && CancelMessages(a.outbox, id) == CancelMessages(b.outbox, id)
    && CancelledFor(a.outbox, id) == CancelledFor(b.outbox, id)
    && FeeRows(a.payments, id) == FeeRows(b.payments, id)
    && RefundedFor(a.payments, id) == RefundedFor(b.payments, id)
  }

  lemma ConfirmTraces(db: Db, order: int, tid: int, now: int, id: int)
    ensures SameTraces(db, ConfirmTx(db, order, tid, now).0, id)
  {
    if order in db.orders {
      var o := db.orders[order];
      RowsSettle(db.payments, order, PayStatus.Approved, Some(tid), id);
      RowAppend(db.payments, PaymentRow(order, PayStatus.Approved, o.total, Some(tid), None), id);
      MessageAppend(db.outbox, OrderPaid(order, o.seatIds), id);
    }
  }

  lemma RefundTraces(db: Db, order: int, amount: nat, approved: bool, tid: Option<int>, id: int)
    ensures SameTraces(db, RefundTx(db, order, amount, approved, tid).0, id)
  {
    var row := PaymentRow(order, if approved then Refunded else PayStatus.Failed, amount, tid, None);
    RowsSettle(db.payments + [row], order, PayStatus.Failed, None, id);
    RowAppend(db.payments, row, id);
  }

  lemma OpenTraces(db: Db, op: Op, now: int, id: int)
    requires op.Open?
    ensures SameTraces(db, Apply(db, op, now).0, id)
  {
    var d := Apply(db, op, now).0;
    if d != db { RowAppend(db.payments, PaymentRow(op.id, Requested, d.orders[op.id].total, None, None), id); }
  }

  /** No other transaction adds a cancellation. */
  lemma OtherTraces(db: Db, op: Op, now: int, id: int)
    requires !op.RecordCancel?
    ensures SameTraces(db, Apply(db, op, now).0, id)
  {
    match op
    case Open(_, _, _, _, _, _) => OpenTraces(db, op, now, id);
    case Confirm(order, tid) => ConfirmTraces(db, order, tid, now, id);
    case CloseUnpaid(order, _) => RowsSettle(db.payments, order, PayStatus.Failed, None, id);
    case RecordRefund(order, amount, approved, rtid) => RefundTraces(db, order, amount, approved, rtid, id);
    case RecordRefusal(order, fee) =>
      RowAppend(db.payments, PaymentRow(order, PayStatus.Failed, fee.refund, None, Some(fee)), id);
    case _ =>
  }

  /** Nor does any other transaction cancel a paid order. */
  lemma OtherStatus(db: Db, op: Op, now: int, id: int)
    requires DbInv(db) && !op.RecordCancel? && id in db.orders
    ensures id in Apply(db, op, now).0.orders
            && Refundable(Apply(db, op, now).0.orders[id]) == Refundable(db.orders[id])
  {
    hide ShapeInv, ItemInv, BookedInv, KeyInv, RowsInv, CountInv, OutboxInv, Settle, Put, SumPrices, Wanted;
    assert OrderOk(db.seats, db.items, id, db.orders[id]);
  }

  lemma CancelTraces(db: Db, order: int, fee: FeeSnapshot, tid: Option<int>, id: int)
    requires DbInv(db) && CancelOk(db, id)
    ensures CancelOk(CancelTx(db, order, fee, tid).0, id)
  {
    hide ShapeInv, ItemInv, BookedInv, KeyInv, RowsInv, CountInv;
    hide OutboxInv, Put, CancelMessages, FeeRows, RefundedFor, CancelledFor;
    if CancelTx(db, order, fee, tid).1.Closed? {
      assert OrderOk(db.seats, db.items, order, db.orders[order]);
      RowAppend(db.payments, PaymentRow(order, Refunded, fee.refund, tid, Some(fee)), id);
      MessageAppend(db.outbox, OrderCanceled(order, fee.fee, fee.refund), id);
    }
  }

  lemma NewOrderTraces(db: Db, id: int)
    requires DbInv(db) && id !in db.orders
    ensures CancelMessages(db.outbox, id) == 0 && CancelledFor(db.outbox, id).None? && FeeRows(db.payments, id) == 0
  {
    forall i | 0 <= i < |db.payments|
      ensures db.payments[i].order != id
    {
      assert PaymentOk(db.orders, db.payments[i]);
    }
    NothingCancelled(db.outbox, db.payments, id);
  }

  lemma StepCancels(db: Db, op: Op, now: int, id: int)
    requires DbInv(db) && CancelOk(db, id)
    ensures CancelOk(Apply(db, op, now).0, id)
  {
    if op.RecordCancel? {
      CancelTraces(db, op.order, op.fee, op.rtid, id);
    } else {
      OtherTraces(db, op, now, id);
      if id in db.orders {
        OtherStatus(db, op, now, id);
      } else if id in Apply(db, op, now).0.orders {
        NewOrderTraces(db, id);
        OnlyNamed(db, op, now, id);
      }
    }
  }

  /** In every history: an order has an order.canceled message and a REFUNDED row with a fee snapshot
      exactly if it was cancelled after it was paid, one of each, and they name the same fee and
      the same refund, which is also the amount of the row. */
  lemma {:induction false} CancelledOnce(db: Db, ops: seq<Timed>, id: int)
    requires DbInv(db) && CancelOk(db, id)
    ensures CancelOk(Run(db, ops), id)
    decreases |ops|
  {
    if ops != [] {
      ApplyInv(db, ops[0].op, ops[0].now);
      StepCancels(db, ops[0].op, ops[0].now, id);
      CancelledOnce(Apply(db, ops[0].op, ops[0].now).0, ops[1..], id);
    }
  }

  // ------------------------------------------------------------------ every run of the saga

  /** Every cancellation announced has the price of days on which a cancel read the order. */
  ghost predicate Priced(db: Db, said: set<Said>) {
    forall i :: 0 <= i < |db.outbox| && db.outbox[i].OrderCanceled? ==> PricedMessage(db.orders, said, db.outbox[i])
  }

  ghost predicate PricedMessage(orders: Orders, said: set<Said>, m: OutboxRow)
    requires m.OrderCanceled?
  {
    m.order in orders && FeeRead(said, m.order, orders[m.order].total, FeeSnapshot(m.fee, m.refund))
  }

  lemma PricedLater(a: Db, b: Db, said: set<Said>, more: set<Said>)
    requires Priced(a, said) && b.outbox == a.outbox && said <= more
    requires forall id :: id in a.orders ==> id in b.orders && b.orders[id].total == a.orders[id].total
    ensures Priced(b, more)
  {
    forall i | 0 <= i < |b.outbox| && b.outbox[i].OrderCanceled?
      ensures PricedMessage(b.orders, more, b.outbox[i])
    {
      assert PricedMessage(a.orders, said, a.outbox[i]);
    }
  }

  lemma TotalsStay(db: Db, op: Op, now: int)
    requires DbInv(db)
    ensures var d := Apply(db, op, now).0;
            forall id :: id in db.orders ==> id in d.orders && d.orders[id].total == db.orders[id].total
  {
    StepLater(db, op, now);
  }

  /** The outbox grows, and by a cancellation only when one is recorded. */
  lemma OutboxGrows(db: Db, op: Op, now: int, i: nat)
    requires i < |Apply(db, op, now).0.outbox|
    ensures var m := Apply(db, op, now).0.outbox[i];
            if i < |db.outbox| then m == db.outbox[i]
            else if op.RecordCancel?
              then op.order in db.orders && m == OrderCanceled(op.order, op.fee.fee, op.fee.refund)
            else m.OrderPaid?
  {}

  lemma TransactionPriced(db: Db, said: set<Said>, op: Op, now: int)
    requires DbInv(db) && Priced(db, said)
    requires op.RecordCancel? && op.order in db.orders ==> FeeRead(said, op.order, db.orders[op.order].total, op.fee)
    ensures Priced(Apply(db, op, now).0, said)
  {
    var d := Apply(db, op, now).0;
    TotalsStay(db, op, now);
    forall i | 0 <= i < |d.outbox| && d.outbox[i].OrderCanceled?
      ensures PricedMessage(d.orders, said, d.outbox[i])
    {
      OutboxGrows(db, op, now, i);
      if i < |db.outbox| { assert PricedMessage(db.orders, said, db.outbox[i]); }
    }
  }

  /** What a step commits is priced: the recording driver knows the price it read. */
  lemma CommitPriced(w: World, l: Label, t: Timed)
    requires Inv(w) && Committed(w, l) == [t] && t.op.RecordCancel? && t.op.order in w.db.orders
    ensures FeeRead(w.said, t.op.order, w.db.orders[t.op.order].total, t.op.fee)
  {
    hide Inv;
    assert l.Go? && l.d in w.drivers;
    DriverPriced(w, l.d);
  }

  lemma DriverPriced(w: World, d: int)
    requires Inv(w) && d in w.drivers
    ensures w.drivers[d].CancelAnswered? ==>
              var pc := w.drivers[d];
              pc.order in w.db.orders && FeeRead(w.said, pc.order, w.db.orders[pc.order].total, pc.fee)
  {
    assert PcOk(w, w.drivers[d]);
  }

  lemma SaidGrows(w: World, l: Label)
    ensures w.said <= Step(w, l).said
  {}

  lemma StepPriced(w: World, l: Label)
    requires Inv(w) && Priced(w.db, w.said)
    ensures Priced(Step(w, l).db, Step(w, l).said)
  {
    var v := Step(w, l);
    SaidGrows(w, l);
    StepCommits(w, l);
    if |Committed(w, l)| == 1 {
      var t := Committed(w, l)[0];
      assert [t][1..] == [];
      assert Run(w.db, [t]) == Run(Apply(w.db, t.op, t.now).0, [t][1..]);
      if t.op.RecordCancel? && t.op.order in w.db.orders { CommitPriced(w, l, t); }
      TransactionPriced(w.db, w.said, t.op, t.now);
    }
    PricedLater(v.db, v.db, w.said, v.said);
  }

  lemma {:induction false} ExecPriced(w: World, ls: seq<Label>)
    requires Inv(w) && Priced(w.db, w.said)
    ensures Priced(Exec(w, ls).db, Exec(w, ls).said)
    decreases |ls|
  {
    if ls != [] {
      StepInv(w, ls[0]);
      StepPriced(w, ls[0]);
      ExecPriced(Step(w, ls[0]), ls[1..]);
    }
  }

  lemma {:induction false} AnnouncedIsPriced(db: Db, said: set<Said>, box: seq<OutboxRow>, id: int)
    requires box <= db.outbox && Priced(db, said) && CancelledFor(box, id).Some?
    ensures id in db.orders && FeeRead(said, id, db.orders[id].total, CancelledFor(box, id).value)
  {
    var m := box[|box| - 1];
    if m.OrderCanceled? && m.order == id {
      assert PricedMessage(db.orders, said, db.outbox[|box| - 1]);
    } else {
      AnnouncedIsPriced(db, said, box[..|box| - 1], id);
    }
  }

  /** In every run, whoever interleaves and stops: a paid order that was cancelled has exactly one
      message and one refund row; they agree; fee and refund make up the total; and the fee is the
      policy's for days on which cancel read this order. */
  lemma CancellationIsPriced(w: World, ls: seq<Label>, id: int)
    requires Start(w) && id in Exec(w, ls).db.orders
    ensures var v := Exec(w, ls);
            CancelOk(v.db, id)
            && (Refundable(v.db.orders[id]) ==>
                  FeeRead(v.said, id, v.db.orders[id].total, CancelledFor(v.db.outbox, id).value))
  {
    var v := Exec(w, ls);
    StartInv(w);
    SagaIsAHistory(w, ls);
    FreshInv(w.db);
    CancelledOnce(w.db, CommittedIn(w, ls), id);
    ExecPriced(w, ls);
    if Refundable(v.db.orders[id]) { AnnouncedIsPriced(v.db, v.said, v.db.outbox, id); }
  }
}

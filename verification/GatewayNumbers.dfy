/** Transaction numbers. In every run, with no assumption about interleaving or stops: the gateway
    gives no number twice, a charge is on record only as the approval of its own order, and the
    number of a refund a driver has not recorded yet is on record nowhere. */
module GatewayNumbers {
  import opened Domain
  import opened Tables
  import opened Transactions
  import opened Invariants
  import opened Saga
  import opened SagaSafety

  type Drivers = map<int, Pc>

  /** A driver that was told the number of a refund and has not recorded it yet. */
  predicate HoldsNumber(pc: Pc) {
    (pc.RefundAnswered? || pc.CancelAnswered?) && pc.answer.tid.Some?
  }

  // ------------------------------------------------------------------ the invariant

  /** A number on record was given out; if it is a charge, the row is the approval of that order. */
  ghost predicate RowOk(p: PaymentRow, pg: Books, next: int) {
    p.tid.Some? ==>
      && p.tid.value < next
      && forall o :: Acc(pg, o).tid == p.tid ==> p.status.Approved? && p.order == o
  }

  ghost predicate RowsOk(ps: seq<PaymentRow>, pg: Books, next: int) {
    forall i :: 0 <= i < |ps| ==> RowOk(ps[i], pg, next)
  }

  /** Charges were given out, each to one order. */
  ghost predicate ChargesOk(pg: Books, next: int) {
    forall o :: Acc(pg, o).tid.Some? ==>
      Acc(pg, o).tid.value < next && forall p :: Acc(pg, p).tid == Acc(pg, o).tid ==> p == o
  }

  ghost predicate FreeNumber(ps: seq<PaymentRow>, pg: Books, next: int, n: int) {
    n < next && TidFree(ps, n) && forall o :: Acc(pg, o).tid != Some(n)
  }

  predicate SameNumber(a: Pc, b: Pc) {
    HoldsNumber(a) && HoldsNumber(b) && a.answer.tid == b.answer.tid
  }

  ghost predicate HeldOk(ps: seq<PaymentRow>, pg: Books, next: int, drivers: Drivers) {
    && (forall d :: d in drivers && HoldsNumber(drivers[d]) ==> FreeNumber(ps, pg, next, drivers[d].answer.tid.value))
    && (forall d, e :: d in drivers && e in drivers && SameNumber(drivers[d], drivers[e]) ==> d == e)
  }

  ghost predicate Numbered(ps: seq<PaymentRow>, pg: Books, next: int, drivers: Drivers) {
    RowsOk(ps, pg, next) && ChargesOk(pg, next) && HeldOk(ps, pg, next, drivers)
  }

  ghost predicate NumberedIn(w: World) {
    Numbered(w.db.payments, w.pg, w.nextTid, w.drivers)
  }

  // ------------------------------------------------------------------ effects, one table at a time

  /** Rows whose number is old, or a charge written as its order's approval. */
  ghost predicate RowsFrom(a: seq<PaymentRow>, b: seq<PaymentRow>, pg: Books) {
    forall i :: 0 <= i < |b| && b[i].tid.Some? ==>
      (i < |a| && a[i].tid == b[i].tid && a[i].order == b[i].order && (a[i].status.Approved? ==> b[i].status.Approved?))
      || (b[i].status.Approved? && Acc(pg, b[i].order).tid == b[i].tid)
  }

  lemma RowsNumbered(a: seq<PaymentRow>, b: seq<PaymentRow>, pg: Books, next: int, drivers: Drivers)
    requires Numbered(a, pg, next, drivers) && RowsFrom(a, b, pg)
    ensures Numbered(b, pg, next, drivers)
  {
    forall i | 0 <= i < |b|
      ensures RowOk(b[i], pg, next)
    {
      if b[i].tid.Some? && i < |a| { assert RowOk(a[i], pg, next); }
    }
    forall d | d in drivers && HoldsNumber(drivers[d])
      ensures FreeNumber(b, pg, next, drivers[d].answer.tid.value)
    {
      assert FreeNumber(a, pg, next, drivers[d].answer.tid.value);
    }
  }

  /** A driver that moves to a place without a number. */
  lemma MoveNumbered(ps: seq<PaymentRow>, pg: Books, next: int, drivers: Drivers, d: int, pc: Pc)
    requires Numbered(ps, pg, next, drivers) && !HoldsNumber(pc)
    ensures Numbered(ps, pg, next, drivers[d := pc])
  {}

  /** Books that changed no charge. */
  lemma BooksNumbered(ps: seq<PaymentRow>, a: Books, b: Books, next: int, drivers: Drivers)
    requires Numbered(ps, a, next, drivers) && forall o :: Acc(b, o).tid == Acc(a, o).tid
    ensures Numbered(ps, b, next, drivers)
  {
    forall i | 0 <= i < |ps|
      ensures RowOk(ps[i], b, next)
    {
      assert RowOk(ps[i], a, next);
    }
    forall d | d in drivers && HoldsNumber(drivers[d])
      ensures FreeNumber(ps, b, next, drivers[d].answer.tid.value)
    {
      assert FreeNumber(ps, a, next, drivers[d].answer.tid.value);
    }
  }

  /** The next number is given to a charge. */
  lemma ChargeNumbered(ps: seq<PaymentRow>, a: Books, b: Books, next: int, drivers: Drivers, order: int)
    requires Numbered(ps, a, next, drivers) && Acc(a, order).tid.None? && Acc(b, order).tid == Some(next)
    requires forall o :: o != order ==> Acc(b, o).tid == Acc(a, o).tid
    ensures Numbered(ps, b, next + 1, drivers)
  {
    forall i | 0 <= i < |ps|
      ensures RowOk(ps[i], b, next + 1)
    {
      assert RowOk(ps[i], a, next);
    }
    forall d | d in drivers && HoldsNumber(drivers[d])
      ensures FreeNumber(ps, b, next + 1, drivers[d].answer.tid.value)
    {
      assert FreeNumber(ps, a, next, drivers[d].answer.tid.value);
    }
  }

  /** The next number is given to a refund, and the driver that asked for it holds it. */
  lemma RefundNumbered(ps: seq<PaymentRow>, pg: Books, next: int, drivers: Drivers, d: int, pc: Pc)
    requires Numbered(ps, pg, next, drivers) && HoldsNumber(pc) && pc.answer.tid == Some(next)
    ensures Numbered(ps, pg, next + 1, drivers[d := pc])
  {
    var after := drivers[d := pc];
    forall i | 0 <= i < |ps|
      ensures RowOk(ps[i], pg, next + 1) && ps[i].tid != Some(next)
    {
      assert RowOk(ps[i], pg, next);
    }
    forall e | e in after && HoldsNumber(after[e])
      ensures FreeNumber(ps, pg, next + 1, after[e].answer.tid.value)
    {
      if e != d { assert FreeNumber(ps, pg, next, drivers[e].answer.tid.value); }
    }
    forall e, f | e in after && f in after && SameNumber(after[e], after[f])
      ensures e == f
    {
      if e != d { assert FreeNumber(ps, pg, next, drivers[e].answer.tid.value); }
      if f != d { assert FreeNumber(ps, pg, next, drivers[f].answer.tid.value); }
    }
  }

  /** Rows that are old or carry the number in this driver's hand. */
  ghost predicate RowsRecord(a: seq<PaymentRow>, b: seq<PaymentRow>, tid: Option<int>) {
    forall i :: 0 <= i < |b| && b[i].tid.Some? ==>
      b[i].tid == tid
      || (i < |a| && a[i].tid == b[i].tid && a[i].order == b[i].order
          && (a[i].status.Approved? ==> b[i].status.Approved?))
  }

  /** Recording a number puts it on record and out of the driver's hand. */
  lemma RecordNumbered(a: seq<PaymentRow>, b: seq<PaymentRow>, pg: Books, next: int, drivers: Drivers, d: int)
    requires Numbered(a, pg, next, drivers) && d in drivers
             && (drivers[d].RefundAnswered? || drivers[d].CancelAnswered?)
    requires RowsRecord(a, b, drivers[d].answer.tid)
    ensures Numbered(b, pg, next, drivers[d := Done])
  {
    var after := drivers[d := Done];
    if HoldsNumber(drivers[d]) { assert FreeNumber(a, pg, next, drivers[d].answer.tid.value); }
    forall i | 0 <= i < |b|
      ensures RowOk(b[i], pg, next)
    {
      if i < |a| { assert RowOk(a[i], pg, next); }
    }
    forall e | e in after && HoldsNumber(after[e])
      ensures FreeNumber(b, pg, next, after[e].answer.tid.value)
    {
      assert drivers[e] == after[e] && FreeNumber(a, pg, next, drivers[e].answer.tid.value);
    }
  }

  // ------------------------------------------------------------------ what transactions write

  lemma ApprovingRows(ps: seq<PaymentRow>, order: int, total: nat, tid: int, pg: Books)
    requires Acc(pg, order).tid == Some(tid)
    ensures RowsFrom(ps, Approving(ps, order, total, tid), pg)
  {
    CountSettle(ps, order, PayStatus.Approved, Some(tid), order, Requested);
  }

  lemma ConfirmRows(db: Db, order: int, tid: int, now: int, pg: Books)
    requires Acc(pg, order).tid == Some(tid)
    ensures RowsFrom(db.payments, ConfirmTx(db, order, tid, now).0.payments, pg)
  {
    if order in db.orders { ApprovingRows(db.payments, order, db.orders[order].total, tid, pg); }
  }

  lemma CloseRows(db: Db, order: int, status: OrderStatus, pg: Books)
    ensures RowsFrom(db.payments, CloseTx(db, order, status).0.payments, pg)
  {
    CountSettle(db.payments, order, PayStatus.Failed, None, order, Requested);
  }

  /** A transaction that records no refund writes no number but the charge it confirms. */
  lemma QuietRows(db: Db, op: Op, now: int, pg: Books)
    requires !op.RecordRefund? && !op.RecordCancel? && ConfirmsCharge(op, pg)
    ensures RowsFrom(db.payments, Apply(db, op, now).0.payments, pg)
  {
    if op.Confirm? { ConfirmRows(db, op.order, op.tid, now, pg); }
    else if op.CloseUnpaid? { CloseRows(db, op.order, ClosingStatus(op.declinedBy), pg); }
    else { PlainRows(db, op, now, pg); }
  }

  lemma PlainRows(db: Db, op: Op, now: int, pg: Books)
    requires HoldOp(op) || op.Open? || op.RecordRefusal?
    ensures RowsFrom(db.payments, Apply(db, op, now).0.payments, pg)
  {}

  lemma RefundRows(db: Db, order: int, amount: nat, approved: bool, tid: Option<int>)
    ensures RowsRecord(db.payments, RefundTx(db, order, amount, approved, tid).0.payments, tid)
  {
    var row := PaymentRow(order, if approved then Refunded else PayStatus.Failed, amount, tid, None);
    CountSettle(db.payments + [row], order, PayStatus.Failed, None, order, Requested);
  }

  lemma RecordRows(db: Db, pc: Pc, now: int)
    requires pc.RefundAnswered? || pc.CancelAnswered?
    ensures RowsRecord(db.payments, Apply(db, RecordOp(pc), now).0.payments, pc.answer.tid)
  {
    if pc.RefundAnswered? {
      RefundRows(db, pc.order, pc.amount, pc.answer.result.Approved?, pc.answer.tid);
    }
  }

  // ------------------------------------------------------------------ every step

  /** A quiet transaction, and then perhaps a move of one driver. */
  lemma QuietNumbered(w: World, op: Op, now: int, drivers: Drivers)
    requires Numbered(w.db.payments, w.pg, w.nextTid, drivers)
    requires !op.RecordRefund? && !op.RecordCancel? && ConfirmsCharge(op, w.pg)
    ensures Numbered(Apply(w.db, op, now).0.payments, w.pg, w.nextTid, drivers)
  {
    hide Numbered, Apply;
    QuietRows(w.db, op, now, w.pg);
    RowsNumbered(w.db.payments, Apply(w.db, op, now).0.payments, w.pg, w.nextTid, drivers);
  }

  lemma DecideNumbered(w: World, order: int, yes: bool)
    requires Inv(w) && NumberedIn(w)
    ensures NumberedIn(DecideStep(w, order, yes))
  {
    hide Numbered, DbInv;
    var v := DecideStep(w, order, yes);
    if v != w {
      assert AccountOk(w.pg[order], w.db.orders[order].total);
      if yes {
        ChargeNumbered(w.db.payments, w.pg, v.pg, w.nextTid, w.drivers, order);
      } else {
        BooksNumbered(w.db.payments, w.pg, v.pg, w.nextTid, w.drivers);
      }
    }
  }

  lemma RepaidBooks(w: World, order: int, tid: int, amount: nat, c: Choice)
    ensures var v := Repaid(w, order, tid, amount, c);
            && (forall o :: Acc(v.pg, o).tid == Acc(w.pg, o).tid) && v.db == w.db && v.drivers == w.drivers
            && v.nextTid == w.nextTid + (if c.moves && Acc(w.pg, order).tid == Some(tid) then 1 else 0)
  {}

  /** The refund step of either kind of driver. */
  lemma HeldNumbered(w: World, d: int, order: int, tid: int, amount: nat, c: Choice, pc: Pc)
    requires NumberedIn(w) && (pc.RefundAnswered? || pc.CancelAnswered?) && pc.answer == RefundAnswer(w, order, tid, c)
    requires d in w.drivers && !HoldsNumber(w.drivers[d])
    ensures NumberedIn(Moved(Repaid(w, order, tid, amount, c), d, pc))
  {
    hide Numbered, Repaid;
    var v := Repaid(w, order, tid, amount, c);
    RepaidBooks(w, order, tid, amount, c);
    if HoldsNumber(pc) {
      RefundNumbered(w.db.payments, w.pg, w.nextTid, w.drivers, d, pc);
    } else {
      MoveNumbered(w.db.payments, w.pg, w.nextTid, w.drivers, d, pc);
      if v.nextTid > w.nextTid { SkipNumber(w.db.payments, w.pg, w.nextTid, w.drivers[d := pc]); }
    }
    BooksNumbered(w.db.payments, w.pg, v.pg, v.nextTid, w.drivers[d := pc]);
  }

  /** A number whose reply is lost is given to nobody. */
  lemma SkipNumber(ps: seq<PaymentRow>, pg: Books, next: int, drivers: Drivers)
    requires Numbered(ps, pg, next, drivers)
    ensures Numbered(ps, pg, next + 1, drivers)
  {
    forall i | 0 <= i < |ps|
      ensures RowOk(ps[i], pg, next + 1)
    {
      assert RowOk(ps[i], pg, next);
    }
    forall d | d in drivers && HoldsNumber(drivers[d])
      ensures FreeNumber(ps, pg, next + 1, drivers[d].answer.tid.value)
    {
      assert FreeNumber(ps, pg, next, drivers[d].answer.tid.value);
    }
  }

  lemma RecordStepNumbered(w: World, d: int, c: Choice)
    requires NumberedIn(w) && d in w.drivers && (w.drivers[d].RefundAnswered? || w.drivers[d].CancelAnswered?)
    ensures NumberedIn(RecordStep(w, d, w.drivers[d], c))
  {
    hide Numbered, Apply;
    if c.aborts {
      MoveNumbered(w.db.payments, w.pg, w.nextTid, w.drivers, d, Done);
    } else {
      RecordRows(w.db, w.drivers[d], w.clock);
      var ps := Apply(w.db, RecordOp(w.drivers[d]), w.clock).0.payments;
      RecordNumbered(w.db.payments, ps, w.pg, w.nextTid, w.drivers, d);
    }
  }

  /** A step of a driver that neither asks for money nor records a refund: a quiet transaction or none,
      and a move. */
  lemma PlainStepNumbered(w: World, d: int, c: Choice)
    requires Inv(w) && NumberedIn(w) && d in w.drivers
    requires var pc := w.drivers[d];
             pc.Opening? || pc.Waiting? || pc.Inquiring? || pc.Judged? || pc.Replaying? || pc.CancelReading? || pc.Done?
    ensures NumberedIn(Advance(w, d, w.drivers[d], c))
  {
    var pc := w.drivers[d];
    var v := Advance(w, d, pc, c);
    assert PcOk(w, pc);
    PlainShape(w, d, c);
    hide *;
    if CommittedBy(pc, c, w.clock) != [] {
      var t := CommittedBy(pc, c, w.clock)[0];
      QuietNumbered(w, t.op, t.now, w.drivers);
    }
    MoveOnly(w, v, d);
  }

  lemma MoveOnly(w: World, v: World, d: int)
    requires Numbered(v.db.payments, w.pg, w.nextTid, w.drivers) && v.pg == w.pg && v.nextTid == w.nextTid
    requires d in v.drivers && v.drivers == w.drivers[d := v.drivers[d]] && !HoldsNumber(v.drivers[d])
    ensures NumberedIn(v)
  {
    hide Numbered;
    MoveNumbered(v.db.payments, w.pg, w.nextTid, w.drivers, d, v.drivers[d]);
  }

  lemma PlainShape(w: World, d: int, c: Choice)
    requires d in w.drivers && PcOk(w, w.drivers[d])
    requires var pc := w.drivers[d];
             pc.Opening? || pc.Waiting? || pc.Inquiring? || pc.Judged? || pc.Replaying? || pc.CancelReading? || pc.Done?
    ensures var v := Advance(w, d, w.drivers[d], c);
            var ts := CommittedBy(w.drivers[d], c, w.clock);
            && v.pg == w.pg && v.nextTid == w.nextTid
            && d in v.drivers && v.drivers == w.drivers[d := v.drivers[d]] && !HoldsNumber(v.drivers[d])
            && (if ts == [] then v.db == w.db
                else v.db == Apply(w.db, ts[0].op, ts[0].now).0
                     && !ts[0].op.RecordRefund? && !ts[0].op.RecordCancel? && ConfirmsCharge(ts[0].op, w.pg))
  {}

  lemma GoNumbered(w: World, d: int, c: Choice)
    requires Inv(w) && NumberedIn(w) && d in w.drivers
    ensures NumberedIn(Advance(w, d, w.drivers[d], c))
  {
    hide Inv, Numbered;
    var pc := w.drivers[d];
    if pc.Sending? {
      SendNumbered(w, d);
    } else if pc.Refunding? {
      var next := RefundAnswered(pc.order, pc.amount, RefundAnswer(w, pc.order, pc.tid, c));
      HeldNumbered(w, d, pc.order, pc.tid, pc.amount, c, next);
    } else if pc.CancelRefunding? {
      var next := CancelAnswered(pc.order, pc.fee, RefundAnswer(w, pc.order, pc.tid, c));
      HeldNumbered(w, d, pc.order, pc.tid, pc.fee.refund, c, next);
    } else if pc.RefundAnswered? || pc.CancelAnswered? {
      RecordStepNumbered(w, d, c);
    } else {
      PlainStepNumbered(w, d, c);
    }
  }

  lemma SendNumbered(w: World, d: int)
    requires NumberedIn(w) && d in w.drivers && w.drivers[d].Sending?
    ensures NumberedIn(SendStep(w, d, w.drivers[d]))
  {
    hide Numbered;
    var v := SendStep(w, d, w.drivers[d]);
    MoveNumbered(w.db.payments, w.pg, w.nextTid, w.drivers, d, v.drivers[d]);
    BooksNumbered(w.db.payments, w.pg, v.pg, w.nextTid, v.drivers);
  }

  /** Every step of anybody keeps the numbers apart. */
  lemma StepNumbered(w: World, l: Label)
    requires Inv(w) && NumberedIn(w)
    ensures NumberedIn(Step(w, l))
  {
    hide Inv, Numbered, Apply, Advance, DecideStep;
    match l
    case Tick(_) =>
    case Outside(op, now) => if HoldOp(op) { QuietNumbered(w, op, now, w.drivers); }
    case Hook(order, tid) =>
      if Acc(w.pg, order).tid == Some(tid) { QuietNumbered(w, Confirm(order, tid), w.clock, w.drivers); }
    case Decide(order, yes) => DecideNumbered(w, order, yes);
    case Go(d, c) => if d in w.drivers { GoNumbered(w, d, c); }
    case StartPlace(d, _, _, _, _, _) => StartNumbered(w, l, d);
    case StartReconcile(d, _) => StartNumbered(w, l, d);
    case StartCancel(d, _, _, _) => StartNumbered(w, l, d);
    case Stop(d) => MoveNumbered(w.db.payments, w.pg, w.nextTid, w.drivers, d, Done);
  }

  lemma StartNumbered(w: World, l: Label, d: int)
    requires NumberedIn(w) && (l.StartPlace? || l.StartReconcile? || l.StartCancel?) && l.d == d
    ensures NumberedIn(Step(w, l))
  {
    hide Numbered;
    var v := Step(w, l);
    if v != w { MoveNumbered(w.db.payments, w.pg, w.nextTid, w.drivers, d, v.drivers[d]); }
  }

  lemma {:induction false} ExecNumbered(w: World, ls: seq<Label>)
    requires Inv(w) && NumberedIn(w)
    ensures NumberedIn(Exec(w, ls))
    decreases |ls|
  {
    hide Inv, Numbered, Step;
    if ls != [] {
      StepInv(w, ls[0]);
      StepNumbered(w, ls[0]);
      ExecNumbered(Step(w, ls[0]), ls[1..]);
    }
  }

  /** In every run: a number the gateway gave to one order's approval belongs to no other order and
      no refund, and until the order is paid it is on no row, so confirming never trips over it. */
  lemma ChargesAreUnused(w: World, ls: seq<Label>, id: int)
    requires Start(w) && id in Exec(w, ls).db.orders && !EverPaid(Exec(w, ls).db.orders[id])
    requires Acc(Exec(w, ls).pg, id).tid.Some?
    ensures var v := Exec(w, ls);
            var tid := Acc(v.pg, id).tid.value;
            && tid < v.nextTid && TidFree(v.db.payments, tid)
            && (forall o :: Acc(v.pg, o).tid == Some(tid) ==> o == id)
            && (forall d :: d in v.drivers && HoldsNumber(v.drivers[d]) ==> v.drivers[d].answer.tid != Some(tid))
  {
    StartInv(w);
    ExecInv(w, ls);
    ExecNumbered(w, ls);
    ChargeIsUnused(Exec(w, ls), id);
  }

  lemma ChargeIsUnused(v: World, id: int)
    requires Inv(v) && NumberedIn(v) && id in v.db.orders && !EverPaid(v.db.orders[id]) && Acc(v.pg, id).tid.Some?
    ensures var tid := Acc(v.pg, id).tid.value;
            && tid < v.nextTid && TidFree(v.db.payments, tid)
            && (forall o :: Acc(v.pg, o).tid == Some(tid) ==> o == id)
            && (forall d :: d in v.drivers && HoldsNumber(v.drivers[d]) ==> v.drivers[d].answer.tid != Some(tid))
  {
    var ps := v.db.payments;
    assert CountOk(ps, id, v.db.orders[id]);
    CountBound(ps, id, PayStatus.Approved);
    forall i | 0 <= i < |ps|
      ensures ps[i].tid != Acc(v.pg, id).tid
    {
      assert RowOk(ps[i], v.pg, v.nextTid);
    }
  }
}

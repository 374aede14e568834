/** Where the money is. With one driver of money per order at a time, no inquiry while an approval is
    on its way, no webhook between a failed confirmation and the record of its refund, no refund
    that moves money silently and no stop or abort between an approved refund and its record, the
    gateway's books and the order statuses agree in every reachable world. SagaLimits shows for
    each assumption a run that breaks it and loses money. */
module SagaMoney {
  import opened Domain
  import opened Tables
  import opened Transactions
  import opened Invariants
  import opened Saga
  import opened SagaSafety
  import opened Cancellations
  import opened GatewayNumbers

  // ------------------------------------------------------------------ refunds on record

  /** What the payments table says was given back for an order. */
  function OnRecord(ps: seq<PaymentRow>, order: int): nat {
    if ps == [] then 0
    else
      var p := ps[|ps| - 1];
      OnRecord(ps[..|ps| - 1], order) + if p.order == order && p.status.Refunded? then p.amount else 0
  }

  lemma RecordedAppend(ps: seq<PaymentRow>, p: PaymentRow, order: int)
    ensures OnRecord(ps + [p], order)
            == OnRecord(ps, order) + if p.order == order && p.status.Refunded? then p.amount else 0
  {
    assert (ps + [p])[..|ps + [p]| - 1] == ps;
  }

  lemma {:induction false} RecordedSettle(ps: seq<PaymentRow>, id: int, st: PayStatus, tid: Option<int>, order: int)
    requires st.Approved? || st.Failed?
    ensures OnRecord(Settle(ps, id, st, tid), order) == OnRecord(ps, order)
  {
    if ps != [] {
      var s := Settle(ps, id, st, tid);
      RecordedSettle(ps[..|ps| - 1], id, st, tid, order);
      assert s[..|s| - 1] == Settle(ps[..|ps| - 1], id, st, tid);
    }
  }

  lemma {:induction false} NoRecord(ps: seq<PaymentRow>, id: int)
    requires forall i :: 0 <= i < |ps| ==> ps[i].order != id
    ensures OnRecord(ps, id) == 0
  {
    if ps != [] { NoRecord(ps[..|ps| - 1], id); }
  }

  // ------------------------------------------------------------------ discipline

  /** The order a driver is working on; replays only read. */
  function Busy(pc: Pc): Option<int> {
    match pc
    case Sending(o, _, _) => Some(o)
    case Waiting(o, _, _) => Some(o)
    case Inquiring(o) => Some(o)
    case Judged(o, _, _, _, _) => Some(o)
    case Refunding(o, _, _) => Some(o)
    case RefundAnswered(o, _, _) => Some(o)
    case CancelReading(o, _, _) => Some(o)
    case CancelRefunding(o, _, _) => Some(o)
    case CancelAnswered(o, _, _) => Some(o)
    case Opening(_, _, _, _, _) => None
    case Replaying(_, _, _) => None
    case Done => None
  }

  predicate Idle(w: World, order: int) {
    forall d :: d in w.drivers ==> Busy(w.drivers[d]) != Some(order)
  }

  /** Between the confirmation that found no hold and the record of the refund that makes up for it. */
  predicate GivingBack(pc: Pc, order: int) {
    (pc.Refunding? || pc.RefundAnswered?) && pc.order == order
  }

  /** Money the gateway gave back that the database does not know of yet, in this driver's hand. */
  function InHand(pc: Pc): nat {
    match pc
    case RefundAnswered(_, amount, answer) => if answer.result.Approved? then amount else 0
    case CancelAnswered(_, fee, answer) => if answer.result.Approved? then fee.refund else 0
    case _ => 0
  }

  predicate HoldsRefund(pc: Pc) {
    (pc.RefundAnswered? || pc.CancelAnswered?) && pc.answer.result.Approved?
  }

  /** The assumptions, step by step. A webhook may come at any time but while money is given back. */
  predicate Disciplined(w: World, l: Label) {
    match l
    case StartReconcile(d, order) => Idle(w, order)
    case StartCancel(d, order, _, _) => Idle(w, order)
    case Hook(order, _) => forall d :: d in w.drivers ==> !GivingBack(w.drivers[d], order)
    case Stop(d) => d in w.drivers ==> !HoldsRefund(w.drivers[d])
    case Go(d, c) => d in w.drivers ==> DisciplinedGo(w, w.drivers[d], c)
    case _ => true
  }

  predicate DisciplinedGo(w: World, pc: Pc, c: Choice) {
    && (pc.Inquiring? ==> Acc(w.pg, pc.order).inflight.None?)
    && (pc.Refunding? || pc.CancelRefunding? ==> (c.moves ==> c.heard))
    && (HoldsRefund(pc) ==> !c.aborts)
  }

  predicate DisciplinedRun(w: World, ls: seq<Label>)
    decreases |ls|
  {
    ls != [] ==> Disciplined(w, ls[0]) && DisciplinedRun(Step(w, ls[0]), ls[1..])
  }

  // ------------------------------------------------------------------ what is kept

  /** What the database's record of an order says about the gateway's books, refunds aside. */
  ghost predicate Fits(o: OrderRow, a: Account, recorded: nat, cancelled: Option<FeeSnapshot>) {
    match o.status
    case Pending => recorded == 0
    case Paid => recorded == 0 && a.tid.Some? && a.inflight.None?
    case Failed => recorded == a.charged && a.inflight.None?
    case Canceled =>
      && a.inflight.None?
      && (if EverPaid(o) then a.tid.Some? && cancelled.Some? && recorded == cancelled.value.refund
          else a.tid.None? && recorded == 0)
  }

  ghost predicate FitsIn(db: Db, a: Account, id: int) {
    id in db.orders && Fits(db.orders[id], a, OnRecord(db.payments, id), CancelledFor(db.outbox, id))
  }

  ghost predicate Ledger(db: Db, pg: Books) {
    forall id :: id in db.orders ==> FitsIn(db, Acc(pg, id), id)
  }

  /** What a disciplined driver may rely on. */
  ghost predicate Relies(orders: Orders, pg: Books, pc: Pc) {
    match pc
    case Sending(o, _, _) => o in orders && orders[o].status.Pending?
    case Judged(o, _, answer, _, _) =>
      o in orders && (answer.result.Declined? ==> Acc(pg, o).tid.None? && Acc(pg, o).inflight.None?)
    case Refunding(o, _, _) => o in orders && orders[o].status.Pending? && Acc(pg, o).tid.Some?
    case RefundAnswered(o, _, _) => o in orders && orders[o].status.Pending? && Acc(pg, o).tid.Some?
    case CancelRefunding(o, _, _) => o in orders && orders[o].status.Paid?
    case CancelAnswered(o, _, _) => o in orders && orders[o].status.Paid?
    case _ => true
  }

  ghost predicate Reliance(orders: Orders, pg: Books, drivers: Drivers) {
    forall d :: d in drivers ==> Relies(orders, pg, drivers[d])
  }

  /** At most one driver per order. */
  ghost predicate Alone(drivers: Drivers) {
    forall d, e :: d in drivers && e in drivers && Busy(drivers[d]).Some? && Busy(drivers[d]) == Busy(drivers[e]) ==>
      d == e
  }

  predicate Holds(pc: Pc, id: int) {
    HoldsRefund(pc) && pc.order == id
  }

  /** Refunds the gateway made are recorded, or in the hand of the order's one driver. */
  ghost predicate RefundOf(ps: seq<PaymentRow>, pg: Books, drivers: Drivers, id: int) {
    && ((forall d :: d in drivers ==> !Holds(drivers[d], id)) ==> Acc(pg, id).refunded == OnRecord(ps, id))
    && (forall d :: d in drivers && Holds(drivers[d], id) ==>
          Acc(pg, id).refunded == OnRecord(ps, id) + InHand(drivers[d]))
  }

  ghost predicate Refunds(ps: seq<PaymentRow>, pg: Books, drivers: Drivers) {
    forall id :: RefundOf(ps, pg, drivers, id)
  }

  ghost predicate Parts(db: Db, pg: Books, drivers: Drivers) {
    && Ledger(db, pg)
    && Reliance(db.orders, pg, drivers)
    && Alone(drivers)
    && Refunds(db.payments, pg, drivers)
  }

  ghost predicate Money(w: World) {
    Inv(w) && NumberedIn(w) && Parts(w.db, w.pg, w.drivers)
  }

  /** The gateway's account of any order is sound. */
  lemma AccountSound(w: World, id: int)
    requires Inv(w) && id in w.db.orders
    ensures AccountOk(Acc(w.pg, id), w.db.orders[id].total)
  {}

  // ------------------------------------------------------------------ transactions that record no refund

  predicate Quiet(op: Op) {
    HoldOp(op) || op.Open? || op.Confirm? || op.CloseUnpaid?
  }

  lemma RecordedQuiet(db: Db, op: Op, now: int, id: int)
    requires Quiet(op)
    ensures OnRecord(Apply(db, op, now).0.payments, id) == OnRecord(db.payments, id)
  {
    hide OnRecord;
    match op
    case Open(oid, schedule, user, ids, key, minRemaining) =>
      var d := Apply(db, op, now).0;
      if d != db { RecordedAppend(db.payments, d.payments[|d.payments| - 1], id); }
    case Confirm(o, tid) =>
      if o in db.orders {
        RecordedSettle(db.payments, o, PayStatus.Approved, Some(tid), id);
        RecordedAppend(db.payments, PaymentRow(o, PayStatus.Approved, db.orders[o].total, Some(tid), None), id);
      }
    case CloseUnpaid(o, _) => RecordedSettle(db.payments, o, PayStatus.Failed, None, id);
    case _ =>
  }

  /** The status a quiet transaction gives its order fits the books. */
  ghost predicate OpFits(op: Op, pg: Books) {
    match op
    case Confirm(o, tid) => Acc(pg, o).tid == Some(tid)
    case CloseUnpaid(o, ask) => Acc(pg, o).tid.None? && Acc(pg, o).inflight.None?
    case _ => true
  }

  /** The named order after a confirmation or a closing. */
  lemma NamedFits(db: Db, op: Op, now: int, pg: Books, recorded: nat, cancelled: Option<FeeSnapshot>)
    requires DbInv(db) && (op.Confirm? || op.CloseUnpaid?) && OpFits(op, pg) && op.order in db.orders
    requires AccountOk(Acc(pg, op.order), db.orders[op.order].total)
    requires Fits(db.orders[op.order], Acc(pg, op.order), recorded, cancelled)
    ensures op.order in Apply(db, op, now).0.orders
    ensures Fits(Apply(db, op, now).0.orders[op.order], Acc(pg, op.order), recorded, cancelled)
  {
    assert OrderOk(db.seats, db.items, op.order, db.orders[op.order]);
  }

  lemma QuietFits(db: Db, op: Op, now: int, pg: Books, id: int)
    requires DbInv(db) && Quiet(op) && OpFits(op, pg) && FitsIn(db, Acc(pg, id), id)
    requires AccountOk(Acc(pg, id), db.orders[id].total)
    ensures FitsIn(Apply(db, op, now).0, Acc(pg, id), id)
  {
    hide DbInv, Apply, Fits;
    RecordedQuiet(db, op, now, id);
    OtherTraces(db, op, now, id);
    if (op.Confirm? || op.CloseUnpaid?) && op.order == id {
      NamedFits(db, op, now, pg, OnRecord(db.payments, id), CancelledFor(db.outbox, id));
    } else {
      OthersKept(db, op, now, id);
    }
  }

  lemma NewFits(db: Db, op: Op, now: int, pg: Books, id: int)
    requires DbInv(db) && Quiet(op) && id !in db.orders && id in Apply(db, op, now).0.orders
    ensures FitsIn(Apply(db, op, now).0, Acc(pg, id), id)
  {
    RecordedQuiet(db, op, now, id);
    OnlyNamed(db, op, now, id);
    forall i | 0 <= i < |db.payments|
      ensures db.payments[i].order != id
    {
      assert PaymentOk(db.orders, db.payments[i]);
    }
    NoRecord(db.payments, id);
  }

  lemma QuietLedger(db: Db, op: Op, now: int, pg: Books)
    requires DbInv(db) && BooksOk(pg, db.orders) && Ledger(db, pg) && Quiet(op) && OpFits(op, pg)
    ensures Ledger(Apply(db, op, now).0, pg)
  {
    hide DbInv, Apply, OpFits, FitsIn;
    forall id | id in Apply(db, op, now).0.orders
      ensures FitsIn(Apply(db, op, now).0, Acc(pg, id), id)
    {
      if id in db.orders { QuietFits(db, op, now, pg, id); } else { NewFits(db, op, now, pg, id); }
    }
  }

  /** A driver that relies on the status of its order. */
  predicate StatusBound(pc: Pc) {
    pc.Sending? || pc.Refunding? || pc.RefundAnswered? || pc.CancelRefunding? || pc.CancelAnswered?
  }

  /** The transaction changes no order whose status somebody relies on. */
  ghost predicate Considerate(db: Db, op: Op, now: int, drivers: Drivers) {
    forall d :: d in drivers && StatusBound(drivers[d]) && drivers[d].order in db.orders ==>
      var o := drivers[d].order;
      o in Apply(db, op, now).0.orders && Apply(db, op, now).0.orders[o] == db.orders[o]
  }

  lemma OrdersStay(db: Db, op: Op, now: int)
    ensures db.orders.Keys <= Apply(db, op, now).0.orders.Keys
  {}

  lemma QuietRelies(db: Db, op: Op, now: int, pg: Books, drivers: Drivers)
    requires Reliance(db.orders, pg, drivers) && Considerate(db, op, now, drivers)
    ensures Reliance(Apply(db, op, now).0.orders, pg, drivers)
  {
    hide Apply;
    OrdersStay(db, op, now);
    forall d | d in drivers
      ensures Relies(Apply(db, op, now).0.orders, pg, drivers[d])
    {
      assert Relies(db.orders, pg, drivers[d]);
    }
  }

  lemma SameRefunds(a: seq<PaymentRow>, b: seq<PaymentRow>, pg: Books, drivers: Drivers)
    requires Refunds(a, pg, drivers) && forall id :: OnRecord(b, id) == OnRecord(a, id)
    ensures Refunds(b, pg, drivers)
  {
    forall id
      ensures RefundOf(b, pg, drivers, id)
    {
      assert RefundOf(a, pg, drivers, id);
    }
  }

  lemma QuietParts(db: Db, op: Op, now: int, pg: Books, drivers: Drivers)
    requires DbInv(db) && BooksOk(pg, db.orders) && Parts(db, pg, drivers)
    requires Quiet(op) && OpFits(op, pg) && Considerate(db, op, now, drivers)
    ensures Parts(Apply(db, op, now).0, pg, drivers)
  {
    hide DbInv, BooksOk, Apply, OpFits, Considerate, Ledger, Reliance, Alone, Refunds, Quiet;
    QuietLedger(db, op, now, pg);
    QuietRelies(db, op, now, pg, drivers);
    forall id { RecordedQuiet(db, op, now, id); }
    SameRefunds(db.payments, Apply(db, op, now).0.payments, pg, drivers);
  }

  // ------------------------------------------------------------------ a driver moves on

  /** Nobody else is on the order of `pc`. */
  ghost predicate OnlyOne(drivers: Drivers, d: int, pc: Pc) {
    Busy(pc).Some? ==> forall e :: e in drivers && e != d ==> Busy(drivers[e]) != Busy(pc)
  }

  /** A driver that keeps its order, or gives it up, is still the only one on it. */
  lemma StaysAlone(drivers: Drivers, d: int, pc: Pc)
    requires Alone(drivers) && d in drivers && (Busy(pc).None? || Busy(pc) == Busy(drivers[d]))
    ensures OnlyOne(drivers, d, pc)
  {}

  lemma MovedAlone(drivers: Drivers, d: int, pc: Pc)
    requires Alone(drivers) && OnlyOne(drivers, d, pc)
    ensures Alone(drivers[d := pc])
  {}

  lemma MovedRelies(orders: Orders, pg: Books, drivers: Drivers, d: int, pc: Pc)
    requires Reliance(orders, pg, drivers) && Relies(orders, pg, pc)
    ensures Reliance(orders, pg, drivers[d := pc])
  {}

  lemma MovedRefunds(ps: seq<PaymentRow>, pg: Books, drivers: Drivers, d: int, pc: Pc)
    requires Refunds(ps, pg, drivers) && !HoldsRefund(pc) && (d in drivers ==> !HoldsRefund(drivers[d]))
    ensures Refunds(ps, pg, drivers[d := pc])
  {
    var after := drivers[d := pc];
    forall id
      ensures RefundOf(ps, pg, after, id)
    {
      assert RefundOf(ps, pg, drivers, id);
      if forall e :: e in after ==> !Holds(after[e], id) {
        forall e | e in drivers
          ensures !Holds(drivers[e], id)
        {
          if e != d { assert after[e] == drivers[e]; }
        }
      }
    }
  }

  /** No refund changes hands when a driver without one moves to a place without one. */
  lemma MovedParts(db: Db, pg: Books, drivers: Drivers, d: int, pc: Pc)
    requires Parts(db, pg, drivers) && Relies(db.orders, pg, pc) && OnlyOne(drivers, d, pc)
    requires !HoldsRefund(pc) && (d in drivers ==> !HoldsRefund(drivers[d]))
    ensures Parts(db, pg, drivers[d := pc])
  {
    hide Ledger, Reliance, Alone, Refunds, Relies, OnlyOne;
    MovedRelies(db.orders, pg, drivers, d, pc);
    MovedAlone(drivers, d, pc);
    MovedRefunds(db.payments, pg, drivers, d, pc);
  }

  // ------------------------------------------------------------------ the gateway's books

  /** Books that differ in one account, by an approval sent or decided. */
  ghost predicate Approval(a: Books, b: Books, order: int) {
    && (forall o :: o != order ==> Acc(b, o) == Acc(a, o))
    && Acc(b, order).refunded == Acc(a, order).refunded
    && (Acc(a, order).tid.Some? ==> Acc(b, order).tid.Some?)
  }

  lemma ApprovalLedger(db: Db, a: Books, b: Books, order: int)
    requires Ledger(db, a) && order in db.orders && db.orders[order].status.Pending? && Approval(a, b, order)
    ensures Ledger(db, b)
  {
    forall id | id in db.orders
      ensures FitsIn(db, Acc(b, id), id)
    {
      assert FitsIn(db, Acc(a, id), id);
    }
  }

  lemma ApprovalRelies(orders: Orders, a: Books, b: Books, drivers: Drivers, order: int)
    requires Reliance(orders, a, drivers) && Approval(a, b, order)
    requires forall d :: d in drivers && drivers[d].Judged? && drivers[d].order == order ==>
               !drivers[d].answer.result.Declined?
    ensures Reliance(orders, b, drivers)
  {
    forall d | d in drivers
      ensures Relies(orders, b, drivers[d])
    {
      assert Relies(orders, a, drivers[d]);
    }
  }

  lemma BooksRefunds(ps: seq<PaymentRow>, a: Books, b: Books, drivers: Drivers)
    requires Refunds(ps, a, drivers) && forall o :: Acc(b, o).refunded == Acc(a, o).refunded
    ensures Refunds(ps, b, drivers)
  {
    forall id
      ensures RefundOf(ps, b, drivers, id)
    {
      assert RefundOf(ps, a, drivers, id);
    }
  }

  lemma ApprovalParts(db: Db, a: Books, b: Books, drivers: Drivers, order: int)
    requires Parts(db, a, drivers) && order in db.orders && db.orders[order].status.Pending? && Approval(a, b, order)
    requires forall d :: d in drivers && drivers[d].Judged? && drivers[d].order == order ==>
               !drivers[d].answer.result.Declined?
    ensures Parts(db, b, drivers)
  {
    hide Ledger, Reliance, Alone, Refunds;
    ApprovalLedger(db, a, b, order);
    ApprovalRelies(db.orders, a, b, drivers, order);
    BooksRefunds(db.payments, a, b, drivers);
  }

  lemma DecideParts(w: World, order: int, yes: bool)
    requires Money(w)
    ensures var v := DecideStep(w, order, yes); Parts(v.db, v.pg, v.drivers)
  {
    hide DbInv, PcsOk, SendOk, EvidenceOk, ReturnsOk, ApprovalsOk, NumberedIn;
    var v := DecideStep(w, order, yes);
    if Acc(w.pg, order).inflight.Some? {
      AccountSound(w, order);
      assert FitsIn(w.db, Acc(w.pg, order), order);
      forall d | d in w.drivers && w.drivers[d].Judged? && w.drivers[d].order == order
        ensures !w.drivers[d].answer.result.Declined?
      {
        assert Relies(w.db.orders, w.pg, w.drivers[d]);
      }
      hide Money, Parts;
      ApprovalParts(w.db, w.pg, v.pg, w.drivers, order);
    }
  }

  lemma SendApproval(w: World, d: int)
    requires Money(w) && d in w.drivers && w.drivers[d].Sending?
    ensures var order := w.drivers[d].order;
            var v := SendStep(w, d, w.drivers[d]);
            && order in w.db.orders && w.db.orders[order].status.Pending?
            && Approval(w.pg, v.pg, order)
            && v.db == w.db && v.drivers == w.drivers[d := v.drivers[d]] && v.drivers[d].Waiting?
            && Busy(v.drivers[d]) == Busy(w.drivers[d])
  {
    assert Relies(w.db.orders, w.pg, w.drivers[d]);
  }

  lemma SendParts(w: World, d: int)
    requires Money(w) && d in w.drivers && w.drivers[d].Sending?
    ensures var v := SendStep(w, d, w.drivers[d]); Parts(v.db, v.pg, v.drivers)
  {
    SendApproval(w, d);
    var v := SendStep(w, d, w.drivers[d]);
    var order := w.drivers[d].order;
    hide Inv, NumberedIn, Ledger, Reliance, Refunds, SendStep, Approval;
    StaysAlone(w.drivers, d, v.drivers[d]);
    MovedParts(w.db, w.pg, w.drivers, d, v.drivers[d]);
    forall e | e in v.drivers && v.drivers[e].Judged?
      ensures v.drivers[e].order != order
    {
      assert Busy(w.drivers[e]) == Busy(w.drivers[d]) ==> e == d;
    }
    ApprovalParts(w.db, w.pg, v.pg, v.drivers, order);
  }

  // ------------------------------------------------------------------ steps without money

  /** Nobody works on an order that does not exist. */
  lemma NobodyOn(w: World, id: int)
    requires PcsOk(w) && id !in w.db.orders
    ensures Idle(w, id)
  {
    forall e | e in w.drivers
      ensures Busy(w.drivers[e]) != Some(id)
    {
      assert PcOk(w, w.drivers[e]);
    }
  }

  predicate PlainPc(pc: Pc) {
    pc.Opening? || pc.Waiting? || pc.Inquiring? || pc.Judged? || pc.Replaying? || pc.CancelReading? || pc.Done?
  }

  /** Where a driver may be next: without a refund, able to rely on what it needs, on its own order or
      on one that did not exist. */
  ghost predicate SoundNext(w: World, pc: Pc, v: World, next: Pc) {
    && !HoldsRefund(next) && Relies(v.db.orders, w.pg, next)
    && (Busy(next).None? || Busy(next) == Busy(pc) || Busy(next).value !in w.db.orders)
  }

  lemma OpeningNext(w: World, d: int, c: Choice)
    requires d in w.drivers && w.drivers[d].Opening?
    ensures var v := OpenStep(w, d, w.drivers[d], c);
            d in v.drivers && SoundNext(w, w.drivers[d], v, v.drivers[d])
  {}

  lemma AskingNext(w: World, d: int, c: Choice)
    requires Inv(w) && d in w.drivers && DisciplinedGo(w, w.drivers[d], c)
    requires w.drivers[d].Waiting? || w.drivers[d].Inquiring?
    ensures var v := Advance(w, d, w.drivers[d], c);
            d in v.drivers && SoundNext(w, w.drivers[d], v, v.drivers[d])
  {
    hide DbInv, BooksOk, SendOk, EvidenceOk, ReturnsOk, ApprovalsOk;
    assert PcOk(w, w.drivers[d]);
  }

  lemma ReadingNext(w: World, d: int, c: Choice)
    requires d in w.drivers && (w.drivers[d].Replaying? || w.drivers[d].CancelReading? || w.drivers[d].Done?)
    ensures var v := Advance(w, d, w.drivers[d], c);
            d in v.drivers && SoundNext(w, w.drivers[d], v, v.drivers[d])
  {}

  lemma PlainNext(w: World, d: int, c: Choice)
    requires Inv(w) && d in w.drivers && PlainPc(w.drivers[d]) && DisciplinedGo(w, w.drivers[d], c)
    ensures var v := Advance(w, d, w.drivers[d], c);
            d in v.drivers && SoundNext(w, w.drivers[d], v, v.drivers[d])
  {
    hide Inv, SoundNext, DisciplinedGo, OpenStep;
    var pc := w.drivers[d];
    if pc.Opening? {
      assert Advance(w, d, pc, c) == OpenStep(w, d, pc, c);
      OpeningNext(w, d, c);
    } else if pc.Waiting? || pc.Inquiring? {
      AskingNext(w, d, c);
    } else if pc.Judged? {
      JudgedNext(w, d, c);
    } else {
      ReadingNext(w, d, c);
    }
  }

  lemma JudgedNext(w: World, d: int, c: Choice)
    requires Inv(w) && d in w.drivers && w.drivers[d].Judged?
    ensures var v := Advance(w, d, w.drivers[d], c);
            d in v.drivers && SoundNext(w, w.drivers[d], v, v.drivers[d])
  {
    hide DbInv, BooksOk, SendOk, EvidenceOk, ReturnsOk, ApprovalsOk, Settle, Put;
    assert PcOk(w, w.drivers[d]);
    hide Inv, PcOk, DbInv;
  }

  /** What a plain driver commits fits the books and disturbs nobody. */
  lemma PlainCommit(w: World, d: int, c: Choice)
    requires Inv(w) && d in w.drivers && PlainPc(w.drivers[d]) && CommittedBy(w.drivers[d], c, w.clock) != []
    requires Relies(w.db.orders, w.pg, w.drivers[d]) && Alone(w.drivers)
    ensures var t := CommittedBy(w.drivers[d], c, w.clock)[0];
            Quiet(t.op) && OpFits(t.op, w.pg) && Considerate(w.db, t.op, t.now, w.drivers)
  {
    hide DbInv, BooksOk, SendOk, EvidenceOk, ReturnsOk, ApprovalsOk, Apply;
    var pc := w.drivers[d];
    assert PcOk(w, pc);
    var t := CommittedBy(pc, c, w.clock)[0];
    hide Inv, Apply;
    forall e | e in w.drivers && StatusBound(w.drivers[e]) && w.drivers[e].order in w.db.orders
      ensures var o := w.drivers[e].order;
              o in Apply(w.db, t.op, t.now).0.orders && Apply(w.db, t.op, t.now).0.orders[o] == w.db.orders[o]
    {
      assert Busy(w.drivers[e]) == Some(w.drivers[e].order);
      assert pc.Judged? ==> Busy(w.drivers[e]) != Busy(pc);
      OthersKept(w.db, t.op, t.now, w.drivers[e].order);
    }
  }

  lemma NextIsAlone(w: World, d: int, pc: Pc)
    requires PcsOk(w) && Alone(w.drivers) && d in w.drivers
    requires Busy(pc).None? || Busy(pc) == Busy(w.drivers[d]) || Busy(pc).value !in w.db.orders
    ensures OnlyOne(w.drivers, d, pc)
  {
    if Busy(pc).Some? && Busy(pc).value !in w.db.orders { NobodyOn(w, Busy(pc).value); }
  }

  lemma PlainParts(w: World, d: int, c: Choice)
    requires Money(w) && d in w.drivers && PlainPc(w.drivers[d]) && DisciplinedGo(w, w.drivers[d], c)
    ensures var v := Advance(w, d, w.drivers[d], c); Parts(v.db, v.pg, v.drivers)
  {
    var pc := w.drivers[d];
    assert PcOk(w, pc) && Relies(w.db.orders, w.pg, pc);
    hide DbInv, BooksOk, PcOk, Ledger, Reliance, Refunds, Relies, Advance, CommittedBy, DisciplinedGo;
    hide Quiet, OpFits, Considerate, Apply, Alone, OnlyOne, NumberedIn;
    PlainShape(w, d, c);
    PlainNext(w, d, c);
    var v := Advance(w, d, pc, c);
    if CommittedBy(pc, c, w.clock) != [] {
      PlainCommit(w, d, c);
      var t := CommittedBy(pc, c, w.clock)[0];
      QuietParts(w.db, t.op, t.now, w.pg, w.drivers);
    }
    NextIsAlone(w, d, v.drivers[d]);
    MovedParts(v.db, w.pg, w.drivers, d, v.drivers[d]);
  }

  // ------------------------------------------------------------------ a refund, made

  /** What a refund that moves money changes in the books. */
  ghost predicate RepaidTo(a: Books, b: Books, order: int, amount: nat) {
    forall id :: Acc(b, id) == var x := Acc(a, id); x.(refunded := x.refunded + if id == order then amount else 0)
  }

  lemma RepaidLedger(db: Db, a: Books, b: Books, order: int, amount: nat)
    requires Ledger(db, a) && RepaidTo(a, b, order, amount)
    ensures Ledger(db, b)
  {
    forall id | id in db.orders
      ensures FitsIn(db, Acc(b, id), id)
    {
      assert FitsIn(db, Acc(a, id), id);
    }
  }

  lemma RepaidRelies(orders: Orders, a: Books, b: Books, drivers: Drivers, order: int, amount: nat)
    requires Reliance(orders, a, drivers) && RepaidTo(a, b, order, amount)
    ensures Reliance(orders, b, drivers)
  {
    forall d | d in drivers
      ensures Relies(orders, b, drivers[d])
    {
      assert Relies(orders, a, drivers[d]);
    }
  }

  /** The refund moves `amount` back; the driver now holds it, and nobody else is on the order. */
  lemma RepaidRefunds(ps: seq<PaymentRow>, a: Books, b: Books, drivers: Drivers, d: int, pc: Pc)
    requires Refunds(ps, a, drivers) && Alone(drivers) && d in drivers && !HoldsRefund(drivers[d])
    requires HoldsRefund(pc) && Busy(drivers[d]) == Some(pc.order) && RepaidTo(a, b, pc.order, InHand(pc))
    ensures Refunds(ps, b, drivers[d := pc])
  {
    var after := drivers[d := pc];
    forall id
      ensures RefundOf(ps, b, after, id)
    {
      assert RefundOf(ps, a, drivers, id);
      forall e | e in drivers
        ensures !Holds(drivers[e], pc.order)
      {
        assert HoldsRefund(drivers[e]) ==> Busy(drivers[e]) == Some(drivers[e].order);
      }
      assert after[d] == pc;
      if id != pc.order && forall e :: e in after ==> !Holds(after[e], id) {
        forall e | e in drivers
          ensures !Holds(drivers[e], id)
        {
          if e != d { assert after[e] == drivers[e]; }
        }
      }
    }
  }

  lemma HeldParts(db: Db, a: Books, b: Books, drivers: Drivers, d: int, pc: Pc)
    requires Parts(db, a, drivers) && d in drivers && !HoldsRefund(drivers[d]) && HoldsRefund(pc)
    requires Busy(drivers[d]) == Some(pc.order) && RepaidTo(a, b, pc.order, InHand(pc)) && Relies(db.orders, a, pc)
    ensures Parts(db, b, drivers[d := pc])
  {
    hide Ledger, Reliance, Refunds, Alone, Relies, RepaidTo, OnlyOne;
    StaysAlone(drivers, d, pc);
    RepaidLedger(db, a, b, pc.order, InHand(pc));
    MovedRelies(db.orders, a, drivers, d, pc);
    RepaidRelies(db.orders, a, b, drivers[d := pc], pc.order, InHand(pc));
    MovedAlone(drivers, d, pc);
    RepaidRefunds(db.payments, a, b, drivers, d, pc);
  }

  /** Books after the gateway handled a refund that moved nothing, or moved and said so. */
  lemma RepaidShape(w: World, order: int, tid: int, amount: nat, c: Choice)
    requires Acc(w.pg, order).tid == Some(tid) && (c.moves ==> c.heard)
    ensures var v := Repaid(w, order, tid, amount, c);
            && v.db == w.db && v.drivers == w.drivers
            && (if c.moves then RepaidTo(w.pg, v.pg, order, amount) else v.pg == w.pg)
            && RefundAnswer(w, order, tid, c).result.Approved? == c.moves
  {}

  lemma AnsweredParts(w: World, d: int, order: int, tid: int, amount: nat, c: Choice, pc: Pc)
    requires Parts(w.db, w.pg, w.drivers) && d in w.drivers && Acc(w.pg, order).tid == Some(tid)
             && (c.moves ==> c.heard)
    requires (pc.RefundAnswered? || pc.CancelAnswered?) && pc.order == order
             && pc.answer == RefundAnswer(w, order, tid, c)
    requires InHand(pc) == (if pc.answer.result.Approved? then amount else 0)
    requires !HoldsRefund(w.drivers[d]) && Busy(w.drivers[d]) == Some(order) && Relies(w.db.orders, w.pg, pc)
    ensures var v := Moved(Repaid(w, order, tid, amount, c), d, pc); Parts(v.db, v.pg, v.drivers)
  {
    hide Ledger, Reliance, Refunds, Relies, RepaidTo, Repaid, RefundAnswer, OnlyOne;
    RepaidShape(w, order, tid, amount, c);
    if c.moves {
      HeldParts(w.db, w.pg, Repaid(w, order, tid, amount, c).pg, w.drivers, d, pc);
    } else {
      StaysAlone(w.drivers, d, pc);
      MovedParts(w.db, w.pg, w.drivers, d, pc);
    }
  }

  lemma RefundParts(w: World, d: int, c: Choice)
    requires Money(w) && d in w.drivers && w.drivers[d].Refunding? && DisciplinedGo(w, w.drivers[d], c)
    ensures var v := RefundStep(w, d, w.drivers[d], c); Parts(v.db, v.pg, v.drivers)
  {
    var pc := w.drivers[d];
    assert PcOk(w, pc) && Relies(w.db.orders, w.pg, pc);
    hide Inv, NumberedIn, Parts, Repaid, RefundAnswer;
    var next := RefundAnswered(pc.order, pc.amount, RefundAnswer(w, pc.order, pc.tid, c));
    AnsweredParts(w, d, pc.order, pc.tid, pc.amount, c, next);
  }

  lemma CancelRefundParts(w: World, d: int, c: Choice)
    requires Money(w) && d in w.drivers && w.drivers[d].CancelRefunding? && DisciplinedGo(w, w.drivers[d], c)
    ensures var v := CancelRefundStep(w, d, w.drivers[d], c); Parts(v.db, v.pg, v.drivers)
  {
    hide DbInv, BooksOk, NumberedIn, Repaid, RefundAnswer, SendOk, EvidenceOk, ReturnsOk, ApprovalsOk;
    var pc := w.drivers[d];
    assert PcOk(w, pc) && Relies(w.db.orders, w.pg, pc);
    hide Inv, NumberedIn, Parts, Repaid, RefundAnswer;
    var next := CancelAnswered(pc.order, pc.fee, RefundAnswer(w, pc.order, pc.tid, c));
    AnsweredParts(w, d, pc.order, pc.tid, pc.fee.refund, c, next);
  }

  // ------------------------------------------------------------------ a refund, recorded

  /** What a record needs to find: the order as the driver relies on it, and its number on no row. */
  ghost predicate Recordable(db: Db, pc: Pc) {
    && (pc.RefundAnswered? || pc.CancelAnswered?) && pc.order in db.orders
    && (if pc.RefundAnswered? then db.orders[pc.order].status.Pending? else db.orders[pc.order].status.Paid?)
    && (pc.answer.tid.Some? ==> TidFree(db.payments, pc.answer.tid.value))
    && (pc.answer.tid.Some? <==> pc.answer.result.Approved?)
  }

  lemma HeldIsRecordable(w: World, d: int)
    requires Money(w) && d in w.drivers && (w.drivers[d].RefundAnswered? || w.drivers[d].CancelAnswered?)
    ensures Recordable(w.db, w.drivers[d])
  {
    var pc := w.drivers[d];
    assert PcOk(w, pc) && Relies(w.db.orders, w.pg, pc);
    if HoldsNumber(pc) { assert FreeNumber(w.db.payments, w.pg, w.nextTid, pc.answer.tid.value); }
  }

  lemma RefundPayments(ps: seq<PaymentRow>, row: PaymentRow, id: int)
    ensures OnRecord(Settle(ps + [row], row.order, PayStatus.Failed, None), id)
            == OnRecord(ps, id) + if id == row.order && row.status.Refunded? then row.amount else 0
  {
    RecordedSettle(ps + [row], row.order, PayStatus.Failed, None, id);
    RecordedAppend(ps, row, id);
  }

  lemma RefundRecorded(db: Db, pc: Pc, id: int)
    requires Recordable(db, pc) && pc.RefundAnswered?
    ensures var d := RefundTx(db, pc.order, pc.amount, pc.answer.result.Approved?, pc.answer.tid).0;
            OnRecord(d.payments, id) == OnRecord(db.payments, id) + if id == pc.order then InHand(pc) else 0
  {
    hide OnRecord, Settle;
    var approved := pc.answer.result.Approved?;
    var row := PaymentRow(pc.order, if approved then Refunded else PayStatus.Failed, pc.amount, pc.answer.tid, None);
    RefundPayments(db.payments, row, id);
  }

  lemma CancelRecorded(db: Db, pc: Pc, now: int, id: int)
    requires Recordable(db, pc) && pc.CancelAnswered?
    ensures var d := Apply(db, RecordOp(pc), now).0;
            OnRecord(d.payments, id) == OnRecord(db.payments, id) + if id == pc.order then InHand(pc) else 0
  {
    hide OnRecord;
    if pc.answer.result.Approved? {
      RecordedAppend(db.payments, PaymentRow(pc.order, Refunded, pc.fee.refund, pc.answer.tid, Some(pc.fee)), id);
    } else {
      RecordedAppend(db.payments, PaymentRow(pc.order, PayStatus.Failed, pc.fee.refund, None, Some(pc.fee)), id);
    }
  }

  /** A record writes down what was in hand, in full, and nothing else. */
  lemma RecordedInFull(db: Db, pc: Pc, now: int, id: int)
    requires Recordable(db, pc)
    ensures OnRecord(Apply(db, RecordOp(pc), now).0.payments, id)
            == OnRecord(db.payments, id) + if id == pc.order then InHand(pc) else 0
  {
    hide OnRecord, RefundTx, CancelTx, CancelRefusedTx;
    if pc.RefundAnswered? { RefundRecorded(db, pc, id); } else { CancelRecorded(db, pc, now, id); }
  }

  /** The order of a record, before and after. */
  lemma RecordedOrder(db: Db, pc: Pc, now: int)
    requires DbInv(db) && Recordable(db, pc)
    ensures var d := Apply(db, RecordOp(pc), now).0;
            && pc.order in d.orders
            && d.orders[pc.order].snapshot == db.orders[pc.order].snapshot
            && (d.orders[pc.order].status
                == if !HoldsRefund(pc) then db.orders[pc.order].status
                   else if pc.RefundAnswered? then OrderStatus.Failed else Canceled)
            && (pc.CancelAnswered? && HoldsRefund(pc) ==>
                  d.outbox == db.outbox + [OrderCanceled(pc.order, pc.fee.fee, pc.fee.refund)])
            && (pc.CancelAnswered? ==> EverPaid(db.orders[pc.order]))
  {
    hide ShapeInv, ItemInv, BookedInv, KeyInv, RowsInv, CountInv, OutboxInv, Put, Settle;
    assert OrderOk(db.seats, db.items, pc.order, db.orders[pc.order]);
  }

  lemma RecordFits(db: Db, pc: Pc, now: int, a: Account, total: nat)
    requires DbInv(db) && Recordable(db, pc) && FitsIn(db, a, pc.order) && AccountOk(a, total)
    requires a.tid.Some? && (pc.RefundAnswered? ==> pc.amount == total)
    ensures FitsIn(Apply(db, RecordOp(pc), now).0, a, pc.order)
  {
    hide DbInv, Apply, Recordable;
    RecordablePc(db, pc);
    RecordedOrder(db, pc, now);
    RecordedInFull(db, pc, now, pc.order);
    if pc.CancelAnswered? && HoldsRefund(pc) {
      MessageAppend(db.outbox, OrderCanceled(pc.order, pc.fee.fee, pc.fee.refund), pc.order);
    }
  }

  lemma RecordablePc(db: Db, pc: Pc)
    requires Recordable(db, pc)
    ensures (pc.RefundAnswered? || pc.CancelAnswered?) && pc.order in db.orders
    ensures if pc.RefundAnswered? then db.orders[pc.order].status.Pending? else db.orders[pc.order].status.Paid?
  {}

  /** Other orders are not touched by a record. */
  lemma RecordOthers(db: Db, pc: Pc, now: int, id: int)
    requires Recordable(db, pc) && id != pc.order
    ensures var d := Apply(db, RecordOp(pc), now).0;
            && d.orders.Keys == db.orders.Keys && (id in db.orders ==> d.orders[id] == db.orders[id])
            && CancelledFor(d.outbox, id) == CancelledFor(db.outbox, id)
  {
    if pc.CancelAnswered? && pc.answer.result.Approved? {
      MessageAppend(db.outbox, OrderCanceled(pc.order, pc.fee.fee, pc.fee.refund), id);
    }
  }

  lemma RecordLedger(db: Db, pc: Pc, now: int, pg: Books)
    requires DbInv(db) && Recordable(db, pc) && Ledger(db, pg)
    requires AccountOk(Acc(pg, pc.order), db.orders[pc.order].total) && Acc(pg, pc.order).tid.Some?
    requires pc.RefundAnswered? ==> pc.amount == db.orders[pc.order].total
    ensures Ledger(Apply(db, RecordOp(pc), now).0, pg)
  {
    hide DbInv, Apply, Recordable, Fits;
    RecordablePc(db, pc);
    forall id | id in Apply(db, RecordOp(pc), now).0.orders
      ensures FitsIn(Apply(db, RecordOp(pc), now).0, Acc(pg, id), id)
    {
      if id == pc.order {
        RecordFits(db, pc, now, Acc(pg, id), db.orders[id].total);
      } else {
        RecordOthers(db, pc, now, id);
        RecordedInFull(db, pc, now, id);
        assert FitsIn(db, Acc(pg, id), id);
      }
    }
  }

  lemma RecordRelies(db: Db, pc: Pc, now: int, pg: Books, drivers: Drivers, d: int)
    requires Recordable(db, pc) && Reliance(db.orders, pg, drivers) && Alone(drivers)
    requires d in drivers && drivers[d] == pc
    ensures Reliance(Apply(db, RecordOp(pc), now).0.orders, pg, drivers[d := Done])
  {
    hide Apply, Recordable;
    RecordablePc(db, pc);
    var after := drivers[d := Done];
    var orders := Apply(db, RecordOp(pc), now).0.orders;
    OrdersStay(db, RecordOp(pc), now);
    forall e | e in after
      ensures Relies(orders, pg, after[e])
    {
      if e != d {
        assert Relies(db.orders, pg, drivers[e]);
        if StatusBound(drivers[e]) {
          assert Busy(drivers[e]) == Busy(drivers[d]) ==> e == d;
          RecordOthers(db, pc, now, drivers[e].order);
        }
      }
    }
  }

  /** What is recorded leaves the driver's hand. */
  lemma RecordRefunds(a: seq<PaymentRow>, b: seq<PaymentRow>, pg: Books, drivers: Drivers, d: int)
    requires Refunds(a, pg, drivers) && Alone(drivers) && d in drivers
             && (drivers[d].RefundAnswered? || drivers[d].CancelAnswered?)
    requires forall id :: OnRecord(b, id) == OnRecord(a, id) + if id == drivers[d].order then InHand(drivers[d]) else 0
    ensures Refunds(b, pg, drivers[d := Done])
  {
    var after := drivers[d := Done];
    var order := drivers[d].order;
    forall id
      ensures RefundOf(b, pg, after, id)
    {
      assert RefundOf(a, pg, drivers, id);
      forall e | e in after && Holds(after[e], id)
        ensures id != order && Holds(drivers[e], id)
      {
        assert Busy(drivers[e]) == Some(id);
        assert Busy(drivers[d]) == Some(order);
      }
      if forall e :: e in after ==> !Holds(after[e], id) {
        forall e | e in drivers && e != d
          ensures !Holds(drivers[e], id)
        {
          assert after[e] == drivers[e];
        }
      }
    }
  }

  lemma RecordParts(db: Db, pc: Pc, now: int, pg: Books, drivers: Drivers, d: int)
    requires DbInv(db) && Recordable(db, pc) && Parts(db, pg, drivers) && d in drivers && drivers[d] == pc
    requires AccountOk(Acc(pg, pc.order), db.orders[pc.order].total) && Acc(pg, pc.order).tid.Some?
    requires pc.RefundAnswered? ==> pc.amount == db.orders[pc.order].total
    ensures Parts(Apply(db, RecordOp(pc), now).0, pg, drivers[d := Done])
  {
    hide DbInv, Apply, Ledger, Reliance, Refunds, Alone, AccountOk, OnlyOne;
    RecordLedger(db, pc, now, pg);
    RecordRelies(db, pc, now, pg, drivers, d);
    StaysAlone(drivers, d, Done);
    MovedAlone(drivers, d, Done);
    forall id { RecordedInFull(db, pc, now, id); }
    RecordRefunds(db.payments, Apply(db, RecordOp(pc), now).0.payments, pg, drivers, d);
  }

  /** What a recording driver knows of its order. */
  lemma AnsweredFacts(w: World, d: int)
    requires Money(w) && d in w.drivers && (w.drivers[d].RefundAnswered? || w.drivers[d].CancelAnswered?)
    ensures var pc := w.drivers[d];
            && Recordable(w.db, pc) && AccountOk(Acc(w.pg, pc.order), w.db.orders[pc.order].total)
            && Acc(w.pg, pc.order).tid.Some?
            && (pc.RefundAnswered? ==> pc.amount == w.db.orders[pc.order].total)
  {
    var pc := w.drivers[d];
    HeldIsRecordable(w, d);
    assert PcOk(w, pc) && Relies(w.db.orders, w.pg, pc);
    AccountSound(w, pc.order);
    assert FitsIn(w.db, Acc(w.pg, pc.order), pc.order);
  }

  lemma RecordStepParts(w: World, d: int, c: Choice)
    requires Money(w) && d in w.drivers && (w.drivers[d].RefundAnswered? || w.drivers[d].CancelAnswered?)
    requires DisciplinedGo(w, w.drivers[d], c)
    ensures var v := RecordStep(w, d, w.drivers[d], c); Parts(v.db, v.pg, v.drivers)
  {
    hide DbInv, NumberedIn, Ledger, Reliance, Refunds, Apply, Recordable, AccountOk, OnlyOne;
    AnsweredFacts(w, d);
    if c.aborts {
      StaysAlone(w.drivers, d, Done);
      MovedParts(w.db, w.pg, w.drivers, d, Done);
    } else {
      RecordParts(w.db, w.drivers[d], w.clock, w.pg, w.drivers, d);
    }
  }

  // ------------------------------------------------------------------ every step, every run

  lemma AdvanceParts(w: World, d: int, c: Choice)
    requires Money(w) && d in w.drivers && DisciplinedGo(w, w.drivers[d], c)
    ensures var v := Advance(w, d, w.drivers[d], c); Parts(v.db, v.pg, v.drivers)
  {
    hide Money, Parts, DisciplinedGo, SendStep, RefundStep, CancelRefundStep, RecordStep;
    var pc := w.drivers[d];
    if pc.Sending? { SendParts(w, d); }
    else if pc.Refunding? { RefundParts(w, d, c); }
    else if pc.CancelRefunding? { CancelRefundParts(w, d, c); }
    else if pc.RefundAnswered? || pc.CancelAnswered? { RecordStepParts(w, d, c); }
    else { PlainParts(w, d, c); }
  }

  /** A webhook changes no status anybody relies on: the one that waits to be refunded is excluded, a
      driver about to send has no charge, and a paid order is not confirmed again. */
  lemma PaidStays(db: Db, order: int, tid: int, now: int, o: int)
    requires o in db.orders && (o != order || !db.orders[o].status.Pending?)
    ensures o in Apply(db, Confirm(order, tid), now).0.orders
    ensures Apply(db, Confirm(order, tid), now).0.orders[o] == db.orders[o]
  {}

  /** A driver whose order's status matters is on another order, or its order is not pending. */
  lemma HookMisses(w: World, d: int, order: int, tid: int)
    requires Money(w) && Acc(w.pg, order).tid == Some(tid) && d in w.drivers && !GivingBack(w.drivers[d], order)
    requires StatusBound(w.drivers[d]) && w.drivers[d].order in w.db.orders
    ensures w.drivers[d].order != order || !w.db.orders[order].status.Pending?
  {
    assert Relies(w.db.orders, w.pg, w.drivers[d]);
  }

  lemma HookIsConsiderate(w: World, order: int, tid: int)
    requires Money(w) && Acc(w.pg, order).tid == Some(tid)
    requires forall d :: d in w.drivers ==> !GivingBack(w.drivers[d], order)
    ensures Considerate(w.db, Confirm(order, tid), w.clock, w.drivers)
  {
    hide Money, Apply;
    forall d | d in w.drivers && StatusBound(w.drivers[d]) && w.drivers[d].order in w.db.orders
      ensures var o := w.drivers[d].order;
              o in Apply(w.db, Confirm(order, tid), w.clock).0.orders
              && Apply(w.db, Confirm(order, tid), w.clock).0.orders[o] == w.db.orders[o]
    {
      HookMisses(w, d, order, tid);
      PaidStays(w.db, order, tid, w.clock, w.drivers[d].order);
    }
  }

  lemma HookParts(w: World, order: int, tid: int)
    requires Money(w) && Acc(w.pg, order).tid == Some(tid)
    requires forall d :: d in w.drivers ==> !GivingBack(w.drivers[d], order)
    ensures Parts(Apply(w.db, Confirm(order, tid), w.clock).0, w.pg, w.drivers)
  {
    hide Parts, Considerate, DbInv, BooksOk, NumberedIn, Apply;
    HookIsConsiderate(w, order, tid);
    QuietParts(w.db, Confirm(order, tid), w.clock, w.pg, w.drivers);
  }

  lemma OutsideParts(w: World, op: Op, now: int)
    requires Money(w) && HoldOp(op)
    ensures Parts(Apply(w.db, op, now).0, w.pg, w.drivers)
  {
    forall d | d in w.drivers && StatusBound(w.drivers[d]) && w.drivers[d].order in w.db.orders
    {
      OthersKept(w.db, op, now, w.drivers[d].order);
    }
    hide Parts, DbInv, BooksOk, NumberedIn, Apply;
    QuietParts(w.db, op, now, w.pg, w.drivers);
  }

  lemma StartParts(w: World, d: int, pc: Pc)
    requires Parts(w.db, w.pg, w.drivers) && Unused(w, d)
    requires pc.Opening? || ((pc.Inquiring? || pc.CancelReading?) && Idle(w, pc.order))
    ensures Parts(w.db, w.pg, w.drivers[d := pc])
  {
    hide Parts;
    MovedParts(w.db, w.pg, w.drivers, d, pc);
  }

  lemma StartsParts(w: World, l: Label)
    requires Money(w) && Disciplined(w, l) && (l.StartPlace? || l.StartReconcile? || l.StartCancel?)
    ensures var v := Step(w, l); Parts(v.db, v.pg, v.drivers)
  {
    hide Parts, Inv, NumberedIn;
    var v := Step(w, l);
    if v != w { StartParts(w, l.d, v.drivers[l.d]); }
  }

  lemma StopParts(w: World, d: int)
    requires Money(w) && d in w.drivers && !HoldsRefund(w.drivers[d])
    ensures Parts(w.db, w.pg, w.drivers[d := Done])
  {
    hide Ledger, Reliance, Refunds, Inv, NumberedIn, OnlyOne;
    StaysAlone(w.drivers, d, Done);
    MovedParts(w.db, w.pg, w.drivers, d, Done);
  }

  lemma StepParts(w: World, l: Label)
    requires Money(w) && Disciplined(w, l)
    ensures var v := Step(w, l); Parts(v.db, v.pg, v.drivers)
  {
    hide Parts, Inv, NumberedIn, Apply, Advance, DecideStep, DisciplinedGo;
    match l
    case Tick(_) =>
    case Outside(op, now) => if HoldOp(op) { OutsideParts(w, op, now); }
    case Hook(order, tid) => if Acc(w.pg, order).tid == Some(tid) { HookParts(w, order, tid); }
    case Decide(order, yes) => DecideParts(w, order, yes);
    case StartPlace(_, _, _, _, _, _) => StartsParts(w, l);
    case StartReconcile(_, _) => StartsParts(w, l);
    case StartCancel(_, _, _, _) => StartsParts(w, l);
    case Go(d, c) => if d in w.drivers { AdvanceParts(w, d, c); }
    case Stop(d) => if d in w.drivers { StopParts(w, d); }
  }

  /** Every disciplined step keeps the money where the database says it is. */
  lemma StepMoney(w: World, l: Label)
    requires Money(w) && Disciplined(w, l)
    ensures Money(Step(w, l))
  {
    hide Inv, NumberedIn, Parts, Step, Disciplined;
    StepInv(w, l);
    StepNumbered(w, l);
    StepParts(w, l);
  }

  lemma {:induction false} RunMoney(w: World, ls: seq<Label>)
    requires Money(w) && DisciplinedRun(w, ls)
    ensures Money(Exec(w, ls))
    decreases |ls|
  {
    hide Money, Step, Disciplined;
    if ls != [] {
      StepMoney(w, ls[0]);
      RunMoney(Step(w, ls[0]), ls[1..]);
    }
  }

  // ------------------------------------------------------------------ conservation

  /** What the gateway keeps of the money it took for an order. */
  function Net(w: World, id: int): int {
    Acc(w.pg, id).charged - Acc(w.pg, id).refunded
  }

  /** The fee of the order's one order.canceled message, which its one REFUNDED row with a snapshot
      repeats, and which the policy gives for days on which a cancel read the order. */
  ghost predicate KeepsTheFee(v: World, id: int)
    requires id in v.db.orders
  {
    var announced := CancelledFor(v.db.outbox, id);
    && announced.Some? && CancelMessages(v.db.outbox, id) == 1
    && RefundedFor(v.db.payments, id) == Some((announced.value, announced.value.refund))
    && FeeRows(v.db.payments, id) == 1
    && FeeRead(v.said, id, v.db.orders[id].total, announced.value)
    && Net(v, id) == announced.value.fee
  }

  /** What the order's status says about the money, once no refund of it is waiting to be recorded. */
  ghost predicate Settled(v: World, id: int)
    requires id in v.db.orders
  {
    var o := v.db.orders[id];
    match o.status
    case Paid => Net(v, id) == o.total
    case Failed => Net(v, id) == 0
    case Pending => Net(v, id) == 0 || Net(v, id) == o.total
    case Canceled => if EverPaid(o) then KeepsTheFee(v, id) else Net(v, id) == 0
  }

  predicate Unrecorded(w: World, id: int) {
    exists d :: d in w.drivers && HoldsRefund(w.drivers[d]) && w.drivers[d].order == id
  }

  /** Never less than nothing and never more than the total; and settled, unless a refund of the order
      waits in a driver's hand to be recorded. */
  ghost predicate Conserved(v: World, id: int)
    requires id in v.db.orders
  {
    0 <= Net(v, id) <= v.db.orders[id].total && (!Unrecorded(v, id) ==> Settled(v, id))
  }

  lemma SettledWhenRecorded(v: World, id: int)
    requires Money(v) && id in v.db.orders && !Unrecorded(v, id)
    requires Refundable(v.db.orders[id]) ==>
               CancelOk(v.db, id) && FeeRead(v.said, id, v.db.orders[id].total, CancelledFor(v.db.outbox, id).value)
    ensures Settled(v, id)
    ensures 0 <= Net(v, id) <= v.db.orders[id].total
  {
    assert FitsIn(v.db, Acc(v.pg, id), id);
    assert RefundOf(v.db.payments, v.pg, v.drivers, id);
    AccountSound(v, id);
  }

  lemma BoundedWhenHeld(v: World, d: int)
    requires Money(v) && d in v.drivers && HoldsRefund(v.drivers[d])
    ensures var id := v.drivers[d].order;
            id in v.db.orders && 0 <= Net(v, id) <= v.db.orders[id].total
  {
    var id := v.drivers[d].order;
    assert Relies(v.db.orders, v.pg, v.drivers[d]) && PcOk(v, v.drivers[d]);
    assert FitsIn(v.db, Acc(v.pg, id), id);
    assert RefundOf(v.db.payments, v.pg, v.drivers, id);
    AccountSound(v, id);
  }

  lemma StartMoney(w: World)
    requires Start(w)
    ensures Money(w)
  {
    StartInv(w);
  }

  /** Money conservation. In every world a disciplined run reaches, for every order whose driver is
      not between a refund and its record: paid means the gateway keeps the total; failed, nothing;
      cancelled without ever being paid, nothing; cancelled after it was paid, exactly the fee that
      was announced and recorded, which is the policy's for the days cancel worked with; pending,
      nothing or the total. No order is ever given back more than it was charged. */
  lemma MoneyIsConserved(w: World, ls: seq<Label>, id: int)
    requires Start(w) && DisciplinedRun(w, ls)
    requires id in Exec(w, ls).db.orders
    ensures Conserved(Exec(w, ls), id)
  {
    hide Money, Settled, Start, DisciplinedRun;
    var v := Exec(w, ls);
    StartMoney(w);
    RunMoney(w, ls);
    CancellationIsPriced(w, ls, id);
    if Unrecorded(v, id) {
      var d :| d in v.drivers && HoldsRefund(v.drivers[d]) && v.drivers[d].order == id;
      BoundedWhenHeld(v, d);
    } else {
      SettledWhenRecorded(v, id);
    }
  }
}

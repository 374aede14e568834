/** Each assumption behind money conservation is needed, on its own: for each there is a run from the
    start, of any inventory with a seat that costs something, in which that assumption is broken
    once, every other step is disciplined, and the money does not add up. The lemmas before the runs
    say the same of any world in which the assumption is about to be broken. */
module SagaLimits {
  import opened Domain
  import opened Transactions
  import opened Invariants
  import opened Saga
  import opened SagaSafety
  import opened GatewayNumbers
  import opened SagaMoney

  const HEARD: Choice := Choice(0, false, true, true)
  const LOST: Choice := Choice(0, false, false, true)
  const ABORTED: Choice := Choice(0, true, true, true)

  // ------------------------------------------------------------------ the assumptions, one by one

  datatype Assumption =
    | ReconcileAlone            // no reconcile of an order somebody works on
    | CancelAlone               // no cancel of an order somebody works on
    | NoHookWhileGivingBack     // no webhook between a failed confirmation and the record of its refund
    | NoEarlyInquiry            // no inquiry while the approval is undecided
    | NoSilentRefund            // no refund that moves money with its reply lost
    | NoStopBeforeRecord        // no stop between an approved refund and its record
    | NoAbortOfRecord           // no abort of that record

  predicate Breaks(w: World, l: Label, a: Assumption) {
    match a
    case ReconcileAlone => l.StartReconcile? && !Idle(w, l.order)
    case CancelAlone => l.StartCancel? && !Idle(w, l.order)
    case NoHookWhileGivingBack => l.Hook? && exists d :: d in w.drivers && GivingBack(w.drivers[d], l.order)
    case NoStopBeforeRecord => l.Stop? && l.d in w.drivers && HoldsRefund(w.drivers[l.d])
    case NoEarlyInquiry =>
      l.Go? && l.d in w.drivers && w.drivers[l.d].Inquiring? && Acc(w.pg, w.drivers[l.d].order).inflight.Some?
    case NoSilentRefund =>
      && l.Go? && l.d in w.drivers && (w.drivers[l.d].Refunding? || w.drivers[l.d].CancelRefunding?)
      && l.c.moves && !l.c.heard
    case NoAbortOfRecord => l.Go? && l.d in w.drivers && HoldsRefund(w.drivers[l.d]) && l.c.aborts
  }

  /** Together they are the discipline. */
  lemma DisciplineIsAll(w: World, l: Label)
    ensures Disciplined(w, l) <==> forall a :: !Breaks(w, l, a)
  {
    if !Disciplined(w, l) {
      var a := match l
        case StartReconcile(_, _) => ReconcileAlone
        case StartCancel(_, _, _, _) => CancelAlone
        case Hook(_, _) => NoHookWhileGivingBack
        case Stop(_) => NoStopBeforeRecord
        case Go(d, _) =>
          if d in w.drivers && w.drivers[d].Inquiring? then NoEarlyInquiry
          else if d in w.drivers && HoldsRefund(w.drivers[d]) then NoAbortOfRecord else NoSilentRefund
        case _ => ReconcileAlone;
      assert Breaks(w, l, a);
    }
  }

  /** A step breaks at most one of them. */
  lemma BreaksOnlyOne(w: World, l: Label, a: Assumption)
    requires Breaks(w, l, a)
    ensures forall b :: Breaks(w, l, b) ==> b == a
  {}

  // ------------------------------------------------------------------ from any world

  lemma ChargedAtMost(w: World, o: int)
    requires Inv(w) && o in w.db.orders
    ensures Acc(w.pg, o).charged <= w.db.orders[o].total
  {
    AccountSound(w, o);
  }

  /** The reconciler asks while the approval is still on its way: it hears DECLINED, cancels, and
      then the gateway charges. Cancelled, no seat, and the whole total is gone. */
  lemma InquiringTooEarly(w: World, d: int, o: int)
    requires Inv(w) && d in w.drivers && w.drivers[d] == Inquiring(o) && !Unrecorded(w, o)
    requires o in w.db.orders && w.db.orders[o].status.Pending? && Acc(w.pg, o).inflight.Some?
    ensures var v := Step(Step(Step(w, Go(d, HEARD)), Go(d, HEARD)), Decide(o, true));
            && o in v.db.orders && v.db.orders[o].status.Canceled? && !EverPaid(v.db.orders[o])
            && Net(v, o) == v.db.orders[o].total == w.db.orders[o].total
            && (v.db.orders[o].total > 0 ==> !Conserved(v, o))
  {
    hide BooksOk, PcsOk, SendOk, EvidenceOk, ReturnsOk, ApprovalsOk, Settle;
    hide Put, ShapeInv, ItemInv, BookedInv, KeyInv, RowsInv, CountInv, OutboxInv;
    AccountSound(w, o);
    assert OrderOk(w.db.seats, w.db.items, o, w.db.orders[o]);
    hide Inv;
    var asked := Step(w, Go(d, HEARD));
    assert asked.drivers[d] == Judged(o, AskInquire, Attempt(Declined, None), w.db.orders[o].total, "");
    var closed := Step(asked, Go(d, HEARD));
    assert closed.db == CloseTx(w.db, o, Canceled).0 && closed.pg == w.pg && closed.drivers == w.drivers[d := Done];
    var v := Step(closed, Decide(o, true));
    assert v.drivers == w.drivers[d := Done];
  }

  /** The amount a driver is about to ask back. */
  function Asks(pc: Pc): nat
    requires pc.Refunding? || pc.CancelRefunding?
  {
    if pc.Refunding? then pc.amount else pc.fee.refund
  }

  /** It is more than half of the charge, and the charge is the order's. */
  lemma AsksMost(w: World, d: int)
    requires Inv(w) && d in w.drivers && (w.drivers[d].Refunding? || w.drivers[d].CancelRefunding?)
    ensures var pc := w.drivers[d];
            && pc.order in w.db.orders && Acc(w.pg, pc.order).tid == Some(pc.tid)
            && (w.db.orders[pc.order].total > 0 ==> 2 * Asks(pc) > w.db.orders[pc.order].total)
  {
    var pc := w.drivers[d];
    assert PcOk(w, pc);
    if pc.CancelRefunding? {
      var total := w.db.orders[pc.order].total;
      var today, showDay :|
        CancelRead(pc.order, today, showDay) in w.said && CancelFee(total, today, showDay) == Some(pc.fee.fee);
      FeeBands(total, today, showDay);
    }
  }

  lemma AsksBack(w: World, d: int)
    requires d in w.drivers && (w.drivers[d].Refunding? || w.drivers[d].CancelRefunding?)
    requires Acc(w.pg, w.drivers[d].order).tid == Some(w.drivers[d].tid)
    ensures var pc := w.drivers[d];
            var v := Step(w, Go(d, HEARD));
            && v.db == w.db
               && Acc(v.pg, pc.order) == Acc(w.pg, pc.order).(refunded := Acc(w.pg, pc.order).refunded + Asks(pc))
            && (forall e :: e in w.drivers && e != d ==> e in v.drivers && v.drivers[e] == w.drivers[e])
  {}

  /** Two drivers of one order, both about to refund, two cancels or a place and a reconcile: both
      refund before either records it, and the gateway has given back more than it took. */
  lemma RefundingTwice(w: World, d: int, e: int)
    requires Inv(w) && d in w.drivers && e in w.drivers && d != e
    requires w.drivers[d].Refunding? || w.drivers[d].CancelRefunding?
    requires w.drivers[e].Refunding? || w.drivers[e].CancelRefunding?
    requires w.drivers[d].order == w.drivers[e].order
    ensures var o := w.drivers[d].order;
            var v := Step(Step(w, Go(d, HEARD)), Go(e, HEARD));
            && o in v.db.orders && v.db == w.db
            && (v.db.orders[o].total > 0 ==> Net(v, o) < 0 && !Conserved(v, o))
  {
    AsksMost(w, d);
    AsksMost(w, e);
    ChargedAtMost(w, w.drivers[d].order);
    hide Inv, Step, Settled;
    AsksBack(w, d);
    AsksBack(Step(w, Go(d, HEARD)), e);
  }

  // ------------------------------------------------------------------ from any disciplined world

  /** What the books say of an order with a driver that is about to ask money back, or was given it. */
  ghost predicate OneRefund(w: World, d: int)
    requires d in w.drivers
  {
    var pc := w.drivers[d];
    && (pc.Refunding? || pc.RefundAnswered? || pc.CancelRefunding? || pc.CancelAnswered?)
    && pc.order in w.db.orders
    && w.db.orders[pc.order].status == (if pc.Refunding? || pc.RefundAnswered? then Pending else Paid)
    && Acc(w.pg, pc.order).charged == w.db.orders[pc.order].total
    && Acc(w.pg, pc.order).refunded == InHand(pc)
    && (forall e :: e in w.drivers && e != d ==> !Holds(w.drivers[e], pc.order))
  }

  lemma KnownRefund(w: World, d: int)
    requires Money(w) && d in w.drivers
    requires var pc := w.drivers[d]; pc.Refunding? || pc.RefundAnswered? || pc.CancelRefunding? || pc.CancelAnswered?
    ensures OneRefund(w, d) && PcOk(w, w.drivers[d])
  {
    hide Inv, NumberedIn, Ledger, Reliance, PcOk, OnRecord;
    KnownStatus(w, d);
    hide Inv, NumberedIn, Ledger, Reliance;
    var o := w.drivers[d].order;
    assert RefundOf(w.db.payments, w.pg, w.drivers, o);
    forall e | e in w.drivers && e != d
      ensures !Holds(w.drivers[e], o)
    {
      assert Busy(w.drivers[e]) == Busy(w.drivers[d]) ==> e == d;
    }
  }

  lemma KnownStatus(w: World, d: int)
    requires Money(w) && d in w.drivers
    requires var pc := w.drivers[d]; pc.Refunding? || pc.RefundAnswered? || pc.CancelRefunding? || pc.CancelAnswered?
    ensures var pc := w.drivers[d];
            && PcOk(w, pc) && pc.order in w.db.orders
            && w.db.orders[pc.order].status == (if pc.Refunding? || pc.RefundAnswered? then Pending else Paid)
            && OnRecord(w.db.payments, pc.order) == 0
            && Acc(w.pg, pc.order).charged == w.db.orders[pc.order].total
            && (pc.RefundAnswered? ==> pc.amount == w.db.orders[pc.order].total)
  {
    var o := w.drivers[d].order;
    assert PcOk(w, w.drivers[d]) && Relies(w.db.orders, w.pg, w.drivers[d]);
    AccountSound(w, o);
    assert FitsIn(w.db, Acc(w.pg, o), o);
  }

  /** The fee of a cancel is less than the total, unless that is nothing. */
  lemma FeeIsLess(w: World, d: int)
    requires d in w.drivers && (w.drivers[d].CancelRefunding? || w.drivers[d].CancelAnswered?) && PcOk(w, w.drivers[d])
    ensures var total, fee := w.db.orders[w.drivers[d].order].total, w.drivers[d].fee;
            fee.fee + fee.refund == total && (total > 0 ==> fee.fee < total)
  {
    var pc := w.drivers[d];
    var total := w.db.orders[pc.order].total;
    var today, showDay :|
      CancelRead(pc.order, today, showDay) in w.said && CancelFee(total, today, showDay) == Some(pc.fee.fee);
    FeeBands(total, today, showDay);
  }

  /** Nobody has a refund of this order in hand once its one driver is done. */
  lemma NothingInHand(drivers: Drivers, d: int, v: World, o: int)
    requires forall e :: e in drivers && e != d ==> !Holds(drivers[e], o)
    requires v.drivers == drivers[d := Done]
    ensures !Unrecorded(v, o)
  {}

  /** A cancel that stops after its refund, or whose record aborts: paid, and the money is back. */
  lemma LosingTheRecord(w: World, d: int, l: Label)
    requires Money(w) && d in w.drivers && w.drivers[d].CancelAnswered? && HoldsRefund(w.drivers[d])
    requires l == Stop(d) || (l.Go? && l.d == d && l.c.aborts)
    ensures var o := w.drivers[d].order;
            var v := Step(w, l);
            && o in v.db.orders && v.db.orders[o].status.Paid? && Net(v, o) == w.drivers[d].fee.fee
            && (v.db.orders[o].total > 0 ==> !Conserved(v, o))
  {
    hide Inv, NumberedIn, Parts, KeepsTheFee;
    KnownRefund(w, d);
    FeeIsLess(w, d);
    hide Money, PcOk;
    var v := Step(w, l);
    assert v == Moved(w, d, Done);
    NothingInHand(w.drivers, d, v, w.drivers[d].order);
  }

  /** A refund whose reply is lost: the order stays paid with its seats and the money is back. */
  lemma LosingARefundReply(w: World, d: int)
    requires Money(w) && d in w.drivers && w.drivers[d].CancelRefunding?
    ensures var o := w.drivers[d].order;
            var v := Step(Step(w, Go(d, LOST)), Go(d, HEARD));
            && v.db.orders == w.db.orders && v.db.seats == w.db.seats
            && o in v.db.orders && v.db.orders[o].status.Paid? && Net(v, o) == w.drivers[d].fee.fee
            && (v.db.orders[o].total > 0 ==> !Conserved(v, o))
  {
    hide Inv, NumberedIn, Parts;
    KnownRefund(w, d);
    FeeIsLess(w, d);
    assert PcOk(w, w.drivers[d]);
    var pc := w.drivers[d];
    assert Acc(w.pg, pc.order).tid == Some(pc.tid);
    hide Money, PcOk, Step;
    CancelRefundGo(w, d, LOST);
    var lost := Step(w, Go(d, LOST));
    assert lost.db == w.db && lost.drivers == w.drivers[d := CancelAnswered(pc.order, pc.fee, SILENCE)];
    CancelRecordGo(lost, d, HEARD);
    var v := Step(lost, Go(d, HEARD));
    assert v.db.orders == w.db.orders;
    NothingInHand(w.drivers, d, v, pc.order);
  }

  /** A webhook between the failed confirmation and the refund, on a seat its buyer has taken again:
      the order becomes paid, and the whole total is given back. */
  lemma HookWhileGivingBack(w: World, d: int)
    requires Money(w) && d in w.drivers && w.drivers[d].Refunding?
    requires Confirmable(w.db, w.drivers[d].order, w.clock)
    ensures var o := w.drivers[d].order;
            var v := Step(Step(Step(w, Hook(o, w.drivers[d].tid)), Go(d, HEARD)), Go(d, HEARD));
            && o in v.db.orders && v.db.orders[o].status.Paid? && Net(v, o) == 0
            && v.db.orders[o].total == w.db.orders[o].total
            && (v.db.orders[o].total > 0 ==> !Conserved(v, o))
  {
    hide Inv, NumberedIn, Parts, KeepsTheFee;
    HookPays(w, d);
    var o := w.drivers[d].order;
    var paid := Step(w, Hook(o, w.drivers[d].tid));
    PaidGivenBack(paid, d);
    NothingInHand(w.drivers, d, Step(Step(paid, Go(d, HEARD)), Go(d, HEARD)), o);
  }

  /** Refunding an order that became paid meanwhile leaves it paid. */
  lemma PaidGivenBack(w: World, d: int)
    requires Inv(w) && NumberedIn(w) && d in w.drivers && w.drivers[d].Refunding?
    requires var pc := w.drivers[d];
             && pc.order in w.db.orders && w.db.orders[pc.order].status.Paid? && Acc(w.pg, pc.order).tid == Some(pc.tid)
    ensures var pc := w.drivers[d];
            var v := Step(Step(w, Go(d, HEARD)), Go(d, HEARD));
            && v.db.orders == w.db.orders && v.drivers == w.drivers[d := Done]
            && Acc(v.pg, pc.order) == Acc(w.pg, pc.order).(refunded := Acc(w.pg, pc.order).refunded + pc.amount)
  {
    hide Inv, Confirmable, Settle;
    RefundGo(w, d, HEARD);
    var given := Step(w, Go(d, HEARD));
    StepInv(w, Go(d, HEARD));
    StepNumbered(w, Go(d, HEARD));
    assert FreeNumber(given.db.payments, given.pg, given.nextTid, given.drivers[d].answer.tid.value);
    hide Inv, NumberedIn, Step;
    RefundRecordGo(given, d, HEARD);
  }

  lemma HookPays(w: World, d: int)
    requires Money(w) && d in w.drivers && w.drivers[d].Refunding?
    requires Confirmable(w.db, w.drivers[d].order, w.clock)
    ensures var pc := w.drivers[d];
            var v := Step(w, Hook(pc.order, pc.tid));
            && Inv(v) && NumberedIn(v) && v.pg == w.pg && v.drivers == w.drivers
            && pc.order in v.db.orders && v.db.orders[pc.order].status.Paid?
            && Acc(v.pg, pc.order).tid == Some(pc.tid)
            && pc.order in w.db.orders && v.db.orders[pc.order].total == w.db.orders[pc.order].total == pc.amount
            && OneRefund(w, d)
  {
    hide BooksOk, PcsOk, SendOk, EvidenceOk, ReturnsOk, ApprovalsOk, NumberedIn, Settle, Put;
    var pc := w.drivers[d];
    KnownRefund(w, d);
    StepInv(w, Hook(pc.order, pc.tid));
    StepNumbered(w, Hook(pc.order, pc.tid));
    assert OrderOk(w.db.seats, w.db.items, pc.order, w.db.orders[pc.order]);
    ChargeIsUnused(w, pc.order);
  }

  /** A driver stops after the refund was made and before it was recorded, or the record aborts. The
      order is still pending, so the reconciler finds the charge, cannot confirm, and refunds again. */
  lemma RefundingOnceMore(w: World, d: int, l: Label, e: int)
    requires Money(w) && d in w.drivers && w.drivers[d].RefundAnswered? && HoldsRefund(w.drivers[d])
    requires l == Stop(d) || (l.Go? && l.d == d && l.c.aborts)
    requires Unused(w, e) && !Confirmable(w.db, w.drivers[d].order, w.clock)
    ensures var o := w.drivers[d].order;
            var asked := Step(Step(Step(w, l), StartReconcile(e, o)), Go(e, HEARD));
            var v := Step(Step(asked, Go(e, HEARD)), Go(e, HEARD));
            && o in v.db.orders
            && (v.db.orders[o].total > 0 ==> Net(v, o) < 0 && !Conserved(v, o))
  {
    KnownRefund(w, d);
    AnsweredFacts(w, d);
    hide Money, PcOk, Settled;
    var pc := w.drivers[d];
    var o := pc.order;
    var stopped := Step(w, l);
    assert stopped == Moved(w, d, Done);
    RefusedConfirmation(stopped, e, o);
    var refused := Step(Step(Step(stopped, StartReconcile(e, o)), Go(e, HEARD)), Go(e, HEARD));
    AsksBack(refused, e);
  }

  /** The reconciler on an order that was charged and cannot be confirmed: it asks, hears APPROVED,
      and goes on to refund. */
  lemma RefusedConfirmation(w: World, e: int, o: int)
    requires Unused(w, e) && o in w.db.orders && w.db.orders[o].status.Pending?
    requires !Confirmable(w.db, o, w.clock) && Acc(w.pg, o).tid.Some?
    ensures var asked := Step(Step(w, StartReconcile(e, o)), Go(e, HEARD));
            var refused := Step(asked, Go(e, HEARD));
            && refused.pg == w.pg && refused.db == w.db
            && refused.drivers == w.drivers[e := Refunding(o, Acc(w.pg, o).tid.value, w.db.orders[o].total)]
  {
    var tid := Acc(w.pg, o).tid.value;
    var started := Step(w, StartReconcile(e, o));
    var asked := Step(started, Go(e, HEARD));
    assert asked.drivers[e] == Judged(o, AskInquire, Attempt(PayResult.Approved, Some(tid)), w.db.orders[o].total, "");
    ApprovedGo(asked, e, HEARD);
    var refused := Step(asked, Go(e, HEARD));
    assert refused.drivers == w.drivers[e := Refunding(o, tid, w.db.orders[o].total)];
  }
}

/** What holds in every run of the saga, with no assumption about who stops or interleaves:
    conclusions rest on an answer of the gateway, an approval is asked for at most once per
    order, and every response to one idempotency key is the same. */
module SagaSafety {
  import opened Domain
  import opened Tables
  import opened Transactions
  import opened Invariants
  import opened History
  import opened Saga

  // ------------------------------------------------------------------ invariants

  /** The gateway's books of one order: asked at most once, charged at most once, for the total. */
  ghost predicate AccountOk(a: Account, total: nat) {
    && a.calls <= 1
    && (a.calls == 0 ==> a == NOTHING)
    && (a.inflight.Some? ==> a.inflight.value == total && a.tid.None?)
    && a.charged == (if a.tid.Some? then total else 0)
    && (a.tid.None? ==> a.refunded == 0)
  }

  ghost predicate BooksOk(pg: Books, orders: Orders) {
    forall o :: o in pg ==> o in orders && AccountOk(pg[o], orders[o].total)
  }

  /** The fee of the policy for days on which a cancel read this order, and the rest as refund. */
  ghost predicate FeeRead(said: set<Said>, order: int, total: nat, fee: FeeSnapshot) {
    && fee.fee + fee.refund == total
    && exists today, showDay ::
         CancelRead(order, today, showDay) in said && CancelFee(total, today, showDay) == Some(fee.fee)
  }

  ghost predicate AnswerOk(w: World, order: int, answer: Attempt) {
    answer.result.Approved? ==> answer.tid.Some? && Acc(w.pg, order).tid == answer.tid
  }

  /** What a driver knows. */
  ghost predicate PcOk(w: World, pc: Pc) {
    match pc
    case Sending(o, total, key) => o in w.db.orders && w.db.orders[o].total == total && KeyOf(w, key, o)
    case Waiting(o, total, key) => o in w.db.orders && w.db.orders[o].total == total && KeyOf(w, key, o)
    case Judged(o, ask, answer, total, key) =>
      && o in w.db.orders && w.db.orders[o].total == total
      && AnswerOk(w, o, answer)
      && (if ask.AskApprove? then KeyOf(w, key, o) && ApproveSaid(o, answer.result) in w.said
          else InquireSaid(o, answer.result) in w.said)
    case Refunding(o, tid, amount) =>
      o in w.db.orders && w.db.orders[o].total == amount && Acc(w.pg, o).tid == Some(tid)
    case RefundAnswered(o, amount, answer) =>
      && o in w.db.orders && w.db.orders[o].total == amount
      && RefundSaid(o, answer.result) in w.said
      && (answer.result.Approved? <==> answer.tid.Some?)
    case Replaying(o, key, _) => KeyOf(w, key, o)
    case CancelRefunding(o, tid, fee) =>
      && o in w.db.orders && EverPaid(w.db.orders[o]) && FeeRead(w.said, o, w.db.orders[o].total, fee)
      && Acc(w.pg, o).tid == Some(tid)
    case CancelAnswered(o, fee, answer) =>
      && o in w.db.orders && EverPaid(w.db.orders[o]) && FeeRead(w.said, o, w.db.orders[o].total, fee)
      && RefundSaid(o, answer.result) in w.said
      && (answer.result.Approved? <==> answer.tid.Some?)
    case Inquiring(o) => o in w.db.orders
    case CancelReading(o, _, _) => o in w.db.orders
    case Opening(_, _, _, _, _) => true
    case Done => true
  }

  predicate KeyOf(w: World, key: string, order: int) {
    key in w.db.keys && w.db.keys[key] == order
  }

  /** Only the driver that opened an order asks for its approval, and has not asked yet. */
  ghost predicate SendOk(w: World) {
    forall d :: d in w.drivers && w.drivers[d].Sending? ==>
      && Acc(w.pg, w.drivers[d].order) == NOTHING
      && forall e :: e in w.drivers && w.drivers[e].Sending? && w.drivers[e].order == w.drivers[d].order ==> e == d
  }

  /** The answers a status rests on. */
  ghost predicate Evidence(id: int, o: OrderRow, said: set<Said>) {
    && (EverPaid(o) ==>
          ApproveSaid(id, PayResult.Approved) in said || InquireSaid(id, PayResult.Approved) in said
            || HookSaid(id) in said)
    && (o.status.Failed? ==> ApproveSaid(id, Declined) in said || RefundSaid(id, PayResult.Approved) in said)
    && (o.status.Canceled? && !EverPaid(o) ==> InquireSaid(id, Declined) in said)
    && (o.status.Canceled? && EverPaid(o) ==> RefundSaid(id, PayResult.Approved) in said)
  }

  ghost predicate EvidenceOk(orders: Orders, said: set<Said>) {
    forall id :: id in orders ==> Evidence(id, orders[id], said)
  }

  /** The approval on record is the charge in the gateway's books. */
  ghost predicate ApprovalsOk(ps: seq<PaymentRow>, pg: Books) {
    forall i :: 0 <= i < |ps| && ps[i].status.Approved? ==> ps[i].tid == Acc(pg, ps[i].order).tid
  }

  ghost predicate ReturnsOk(w: World) {
    forall r :: r in w.returned ==>
      KeyOf(w, r.key, r.order) && r.order in w.db.orders && w.db.orders[r.order].snapshot == Some(r.snapshot)
  }

  ghost predicate PcsOk(w: World) {
    forall d :: d in w.drivers ==> PcOk(w, w.drivers[d])
  }

  ghost predicate Inv(w: World) {
    && DbInv(w.db)
    && BooksOk(w.pg, w.db.orders)
    && PcsOk(w)
    && SendOk(w)
    && EvidenceOk(w.db.orders, w.said)
    && ApprovalsOk(w.db.payments, w.pg)
    && ReturnsOk(w)
  }

  // ------------------------------------------------------------------ what every step keeps

  ghost predicate AccountLater(a: Account, b: Account) {
    && a.calls <= b.calls
    && (a.tid.Some? ==> b.tid == a.tid && b.charged == a.charged)
    && a.refunded <= b.refunded
  }

  ghost predicate Grows(w: World, v: World) {
    && Later(w.db, v.db)
    && (forall o :: AccountLater(Acc(w.pg, o), Acc(v.pg, o)))
    && w.said <= v.said
  }

  /** What a driver knows stays true whatever others do. */
  lemma PcStable(w: World, v: World, pc: Pc)
    requires PcOk(w, pc) && Grows(w, v)
    ensures PcOk(v, pc)
  {
    match pc
    case Judged(o, ask, answer, total, key) =>
      assert AccountLater(Acc(w.pg, o), Acc(v.pg, o));
    case Refunding(o, tid, amount) =>
      assert AccountLater(Acc(w.pg, o), Acc(v.pg, o));
    case CancelRefunding(o, tid, fee) =>
      assert AccountLater(Acc(w.pg, o), Acc(v.pg, o));
    case _ =>
  }

  lemma ReturnsStable(w: World, v: World)
    requires ReturnsOk(w) && Grows(w, v) && v.returned == w.returned
    ensures ReturnsOk(v)
  {}

  lemma TablesAreSound(w: World)
    requires Inv(w)
    ensures DbInv(w.db) && ShapeInv(w.db.seats)
  {}

  lemma DriverKnows(w: World, d: int)
    requires Inv(w) && d in w.drivers
    ensures PcOk(w, w.drivers[d])
  {}

  lemma LaterItself(db: Db)
    ensures Later(db, db)
  {}

  // ---- effect of a transaction on the orders and their evidence

  /** A transaction touches at most the order it names. */
  function Names(op: Op): int {
    match op
    case Open(id, _, _, _, _, _) => id
    case Confirm(order, _) => order
    case CloseUnpaid(order, _) => order
    case RecordRefund(order, _, _, _) => order
    case RecordCancel(order, _, _) => order
    case RecordRefusal(order, _) => order
    case Acquire(_, _, _, _, _) => 0
    case Release(_, _, _) => 0
    case Sweep(_) => 0
  }

  lemma OthersKept(db: Db, op: Op, now: int, id: int)
    requires id in db.orders && (id != Names(op) || HoldOp(op) || op.Open?)
    ensures id in Apply(db, op, now).0.orders && Apply(db, op, now).0.orders[id] == db.orders[id]
  {}

  lemma OnlyNamed(db: Db, op: Op, now: int, id: int)
    requires id in Apply(db, op, now).0.orders && id !in db.orders
    ensures op.Open? && op.id == id
    ensures Apply(db, op, now).0.orders[id].status.Pending? && !EverPaid(Apply(db, op, now).0.orders[id])
  {}

  /** Which answer a transaction must be able to point at. */
  ghost predicate Founded(op: Op, said: set<Said>) {
    match op
    case Confirm(o, _) =>
      ApproveSaid(o, PayResult.Approved) in said || InquireSaid(o, PayResult.Approved) in said || HookSaid(o) in said
    case CloseUnpaid(o, ask) =>
      if ask.AskApprove? then ApproveSaid(o, Declined) in said else InquireSaid(o, Declined) in said
    case RecordRefund(o, _, approved, _) => approved ==> RefundSaid(o, PayResult.Approved) in said
    case RecordCancel(o, _, _) => RefundSaid(o, PayResult.Approved) in said
    case _ => true
  }

  lemma NamedEvidence(db: Db, op: Op, now: int, said: set<Said>)
    requires DbInv(db) && !HoldOp(op) && !op.Open? && Names(op) in db.orders
    requires Evidence(Names(op), db.orders[Names(op)], said) && Founded(op, said)
    ensures Evidence(Names(op), Apply(db, op, now).0.orders[Names(op)], said)
  {
    hide ShapeInv, ItemInv, BookedInv, KeyInv, RowsInv, CountInv, OutboxInv, Settle, Put, SumPrices;
    assert OrderOk(db.seats, db.items, Names(op), db.orders[Names(op)]);
  }

  lemma EvidenceKept(db: Db, op: Op, now: int, said: set<Said>)
    requires DbInv(db) && EvidenceOk(db.orders, said) && Founded(op, said)
    ensures EvidenceOk(Apply(db, op, now).0.orders, said)
  {
    var d := Apply(db, op, now).0;
    forall id | id in d.orders
      ensures Evidence(id, d.orders[id], said)
    {
      if id !in db.orders { OnlyNamed(db, op, now, id); }
      else if id != Names(op) || HoldOp(op) || op.Open? { OthersKept(db, op, now, id); }
      else { NamedEvidence(db, op, now, said); }
    }
  }

  // ---- effect of a transaction on the approvals on record

  ghost predicate ConfirmsCharge(op: Op, pg: Books) {
    op.Confirm? ==> Acc(pg, op.order).tid == Some(op.tid)
  }

  lemma ApprovingApprovals(ps: seq<PaymentRow>, order: int, total: nat, tid: int, pg: Books)
    requires ApprovalsOk(ps, pg) && Acc(pg, order).tid == Some(tid)
    ensures ApprovalsOk(Approving(ps, order, total, tid), pg)
  {
    CountSettle(ps, order, PayStatus.Approved, Some(tid), order, Requested);
  }

  lemma SettledApprovals(ps: seq<PaymentRow>, order: int, pg: Books)
    requires ApprovalsOk(ps, pg)
    ensures ApprovalsOk(Settle(ps, order, PayStatus.Failed, None), pg)
  {
    CountSettle(ps, order, PayStatus.Failed, None, order, Requested);
  }

  lemma ApprovalsKept(db: Db, op: Op, now: int, pg: Books)
    requires ApprovalsOk(db.payments, pg) && ConfirmsCharge(op, pg)
    ensures ApprovalsOk(Apply(db, op, now).0.payments, pg)
  {
    match op
    case Confirm(o, tid) =>
      if o in db.orders { ApprovingApprovals(db.payments, o, db.orders[o].total, tid, pg); }
    case CloseUnpaid(o, _) => SettledApprovals(db.payments, o, pg);
    case RecordRefund(o, amount, approved, tid) =>
      SettledApprovals(db.payments
                       + [PaymentRow(o, if approved then Refunded else PayStatus.Failed, amount, tid, None)], o, pg);
    case _ =>
  }

  // ------------------------------------------------------------------ a transaction, as part of a step

  lemma BooksStable(pg: Books, a: Db, b: Db)
    requires BooksOk(pg, a.orders) && Later(a, b)
    ensures BooksOk(pg, b.orders)
  {}

  /** World `v` is `w` after a founded transaction, before its driver moves on. */
  lemma TransactionInv(w: World, v: World, op: Op, now: int)
    requires Inv(w) && v == w.(db := Apply(w.db, op, now).0)
    requires Founded(op, w.said) && ConfirmsCharge(op, w.pg)
    ensures Inv(v) && Grows(w, v)
  {
    ApplyInv(w.db, op, now);
    StepLater(w.db, op, now);
    EvidenceKept(w.db, op, now, w.said);
    ApprovalsKept(w.db, op, now, w.pg);
    BooksStable(w.pg, w.db, v.db);
    forall d | d in v.drivers
      ensures PcOk(v, v.drivers[d])
    {
      PcStable(w, v, w.drivers[d]);
    }
    ReturnsStable(w, v);
  }

  /** A driver that moves to a place it may be in, and does not start to send. */
  lemma MovedInv(w: World, d: int, pc: Pc)
    requires Inv(w) && PcOk(w, pc) && !pc.Sending?
    ensures Inv(Moved(w, d, pc))
  {
    var v := Moved(w, d, pc);
    forall e | e in v.drivers
      ensures PcOk(v, v.drivers[e])
    {
      PcStable(w, v, if e == d then pc else w.drivers[e]);
    }
  }

  lemma HeardInv(w: World, s: Said)
    requires Inv(w)
    ensures Inv(Heard(w, s))
  {
    var v := Heard(w, s);
    LaterItself(w.db);
    forall e | e in v.drivers
      ensures PcOk(v, v.drivers[e])
    {
      PcStable(w, v, w.drivers[e]);
    }
  }

  /** New books for one order that nobody is about to ask about. */
  lemma AccountInv(w: World, order: int, a: Account, tid: int)
    requires Inv(w) && order in w.db.orders && AccountOk(a, w.db.orders[order].total)
    requires AccountLater(Acc(w.pg, order), a)
    requires Acc(w.pg, order).tid.None? ==>
             forall i :: 0 <= i < |w.db.payments| && w.db.payments[i].status.Approved? ==>
               w.db.payments[i].order != order
    requires forall d :: d in w.drivers && w.drivers[d].Sending? ==> w.drivers[d].order != order
    ensures Inv(WithAccount(w, order, a).(nextTid := tid))
  {
    hide DbInv, EvidenceOk;
    var v := WithAccount(w, order, a).(nextTid := tid);
    LaterItself(w.db);
    forall e | e in v.drivers
      ensures PcOk(v, v.drivers[e])
    {
      PcStable(w, v, w.drivers[e]);
    }
    assert ReturnsOk(v);
  }

  /** An approval on record means a charge in the books. */
  lemma NoChargeNoApproval(w: World, order: int, i: int)
    requires Inv(w) && Acc(w.pg, order).tid.None? && 0 <= i < |w.db.payments| && w.db.payments[i].status.Approved?
    ensures w.db.payments[i].order != order
  {
    assert PaymentOk(w.db.orders, w.db.payments[i]);
  }

  /** A driver's order nobody else is about to ask about: it was asked already. */
  lemma NobodySends(w: World, order: int)
    requires Inv(w) && Acc(w.pg, order) != NOTHING
    ensures forall d :: d in w.drivers && w.drivers[d].Sending? ==> w.drivers[d].order != order
  {}

  // ------------------------------------------------------------------ each step

  lemma OpenStepInv(w: World, d: int, pc: Pc, c: Choice)
    requires Inv(w) && pc.Opening?
    ensures Inv(OpenStep(w, d, pc, c))
  {
    hide Inv, SumPrices, Wanted;
    var op := Open(c.freshId, pc.schedule, pc.user, pc.ids, pc.key, pc.minRemaining);
    var (db, out) := Apply(w.db, op, w.clock);
    var v := w.(db := db);
    if c.aborts {
      MovedInv(w, d, Done);
    } else {
      TransactionInv(w, v, op, w.clock);
      if out.Opened? {
        assert c.freshId !in w.db.orders;
        NewOrderIsSilent(w, v, d, Sending(out.order, out.total, pc.key));
      } else if out.Duplicate? {
        MovedInv(v, d, Replaying(out.order, pc.key, REPLAY_ATTEMPTS));
      } else {
        MovedInv(v, d, Done);
      }
    }
  }

  /** Nobody has asked about an order that did not exist. */
  lemma NewOrderIsSilent(w: World, v: World, d: int, pc: Pc)
    requires Inv(w) && Inv(v) && v == w.(db := v.db) && pc.Sending? && PcOk(v, pc)
    requires pc.order !in w.db.orders
    ensures Inv(Moved(v, d, pc))
  {
    hide DbInv, EvidenceOk, ApprovalsOk;
    var u := Moved(v, d, pc);
    assert Acc(w.pg, pc.order) == NOTHING;
    forall e | e in w.drivers && w.drivers[e].Sending?
      ensures w.drivers[e].order != pc.order
    {
      assert PcOk(w, w.drivers[e]);
    }
    LaterItself(v.db);
    forall e | e in u.drivers
      ensures PcOk(u, u.drivers[e])
    {
      PcStable(v, u, if e == d then pc else v.drivers[e]);
    }
  }

  lemma SendStepInv(w: World, d: int, pc: Pc)
    requires Inv(w) && d in w.drivers && w.drivers[d] == pc && pc.Sending?
    ensures Inv(SendStep(w, d, pc))
  {
    var next := Waiting(pc.order, pc.total, pc.key);
    var v := Moved(w, d, next);
    assert PcOk(w, pc);
    MovedInv(w, d, next);
    var a := Acc(w.pg, pc.order).(calls := 1, inflight := Some(pc.total));
    forall i | 0 <= i < |v.db.payments| && v.db.payments[i].status.Approved?
      ensures v.db.payments[i].order != pc.order
    {
      NoChargeNoApproval(v, pc.order, i);
    }
    AccountInv(v, pc.order, a, v.nextTid);
    assert SendStep(w, d, pc) == WithAccount(v, pc.order, a).(nextTid := v.nextTid);
  }

  lemma AwaitStepInv(w: World, d: int, pc: Pc, c: Choice)
    requires Inv(w) && PcOk(w, pc) && pc.Waiting?
    ensures Inv(AwaitStep(w, d, pc, c))
  {
    if !(c.heard && Acc(w.pg, pc.order).inflight.Some?) {
      var answer := if c.heard then Truth(Acc(w.pg, pc.order)) else SILENCE;
      var v := Heard(w, ApproveSaid(pc.order, answer.result));
      HeardInv(w, ApproveSaid(pc.order, answer.result));
      MovedInv(v, d, Judged(pc.order, AskApprove, answer, pc.total, pc.key));
    }
  }

  lemma InquireStepInv(w: World, d: int, pc: Pc, c: Choice)
    requires Inv(w) && pc.Inquiring?
    ensures Inv(InquireStep(w, d, pc, c))
  {
    if pc.order !in w.db.orders {
      MovedInv(w, d, Done);
    } else {
      var answer := if c.heard then Truth(Acc(w.pg, pc.order)) else SILENCE;
      var v := Heard(w, InquireSaid(pc.order, answer.result));
      HeardInv(w, InquireSaid(pc.order, answer.result));
      MovedInv(v, d, Judged(pc.order, AskInquire, answer, w.db.orders[pc.order].total, ""));
    }
  }

  lemma JudgeStepInv(w: World, d: int, pc: Pc, c: Choice)
    requires Inv(w) && PcOk(w, pc) && pc.Judged?
    ensures Inv(JudgeStep(w, d, pc, c))
  {
    if pc.answer.result.Unknown? || c.aborts {
      MovedInv(w, d, Done);
    } else if pc.answer.result.Declined? {
      var op := CloseUnpaid(pc.order, pc.ask);
      var v := w.(db := Apply(w.db, op, w.clock).0);
      TransactionInv(w, v, op, w.clock);
      MovedInv(v, d, Done);
    } else {
      var op := Confirm(pc.order, pc.answer.tid.value);
      var (db, out) := Apply(w.db, op, w.clock);
      var v := w.(db := db);
      TransactionInv(w, v, op, w.clock);
      PcStable(w, v, pc);
      if out.HoldExpired? {
        MovedInv(v, d, Refunding(pc.order, pc.answer.tid.value, pc.total));
      } else if (out.Confirmed? || out.AlreadySettled?) && pc.ask.AskApprove? {
        MovedInv(v, d, Replaying(pc.order, pc.key, REPLAY_ATTEMPTS));
      } else {
        MovedInv(v, d, Done);
      }
    }
  }

  lemma RepaidAccountInv(w: World, order: int, a: Account)
    requires Inv(w) && order in w.db.orders && Acc(w.pg, order).tid.Some?
    requires a == Acc(w.pg, order).(refunded := a.refunded) && a.refunded >= Acc(w.pg, order).refunded
    ensures Inv(WithAccount(w, order, a).(nextTid := w.nextTid + 1))
  {
    NobodySends(w, order);
    assert AccountOk(Acc(w.pg, order), w.db.orders[order].total);
    AccountInv(w, order, a, w.nextTid + 1);
  }

  lemma RepaidInv(w: World, order: int, tid: int, amount: nat, c: Choice)
    requires Inv(w) && order in w.db.orders
    ensures Inv(Repaid(w, order, tid, amount, c))
  {
    var a := Acc(w.pg, order);
    var s := RefundSaid(order, RefundAnswer(w, order, tid, c).result);
    if c.moves && a.tid == Some(tid) {
      var b := a.(refunded := a.refunded + amount);
      var m := WithAccount(w, order, b).(nextTid := w.nextTid + 1);
      assert Repaid(w, order, tid, amount, c) == Heard(m, s);
      RepaidAccountInv(w, order, b);
      HeardInv(m, s);
    } else {
      HeardInv(w, s);
    }
  }

  lemma RefundStepInv(w: World, d: int, pc: Pc, c: Choice)
    requires Inv(w) && PcOk(w, pc) && pc.Refunding?
    ensures Inv(RefundStep(w, d, pc, c))
  {
    RepaidInv(w, pc.order, pc.tid, pc.amount, c);
    MovedInv(Repaid(w, pc.order, pc.tid, pc.amount, c), d,
             RefundAnswered(pc.order, pc.amount, RefundAnswer(w, pc.order, pc.tid, c)));
  }

  lemma CancelRefundStepInv(w: World, d: int, pc: Pc, c: Choice)
    requires Inv(w) && PcOk(w, pc) && pc.CancelRefunding?
    ensures Inv(CancelRefundStep(w, d, pc, c))
  {
    RepaidInv(w, pc.order, pc.tid, pc.fee.refund, c);
    MovedInv(Repaid(w, pc.order, pc.tid, pc.fee.refund, c), d,
             CancelAnswered(pc.order, pc.fee, RefundAnswer(w, pc.order, pc.tid, c)));
  }

  lemma RecordStepInv(w: World, d: int, pc: Pc, c: Choice)
    requires Inv(w) && PcOk(w, pc) && (pc.RefundAnswered? || pc.CancelAnswered?)
    ensures Inv(RecordStep(w, d, pc, c))
  {
    if c.aborts {
      MovedInv(w, d, Done);
    } else {
      var v := w.(db := Apply(w.db, RecordOp(pc), w.clock).0);
      TransactionInv(w, v, RecordOp(pc), w.clock);
      MovedInv(v, d, Done);
    }
  }

  lemma ReturnedInv(w: World, r: Return)
    requires Inv(w) && KeyOf(w, r.key, r.order)
    requires r.order in w.db.orders && w.db.orders[r.order].snapshot == Some(r.snapshot)
    ensures Inv(w.(returned := w.returned + {r}))
  {
    hide DbInv, BooksOk, EvidenceOk, ApprovalsOk;
    var v := w.(returned := w.returned + {r});
    LaterItself(w.db);
    forall e | e in v.drivers
      ensures PcOk(v, v.drivers[e])
    {
      PcStable(w, v, w.drivers[e]);
    }
  }

  lemma ReplayStepInv(w: World, d: int, pc: Pc, c: Choice)
    requires Inv(w) && PcOk(w, pc) && pc.Replaying?
    ensures Inv(ReplayStep(w, d, pc, c))
  {
    if c.heard && pc.order in w.db.orders && w.db.orders[pc.order].snapshot.Some? {
      var r := Return(pc.key, pc.order, w.db.orders[pc.order].snapshot.value);
      ReturnedInv(w, r);
      MovedInv(w.(returned := w.returned + {r}), d, Done);
    } else {
      MovedInv(w, d, ReplayStep(w, d, pc, c).drivers[d]);
    }
  }

  lemma {:induction false} ApprovedTidFound(ps: seq<PaymentRow>, order: int)
    ensures ApprovedTid(ps, order).Some? ==>
              exists i :: 0 <= i < |ps| && ps[i].order == order && ps[i].status.Approved?
                && ps[i].tid == ApprovedTid(ps, order)
  {
    if ps != [] && !(ps[|ps| - 1].order == order && ps[|ps| - 1].status.Approved?) {
      var front := ps[..|ps| - 1];
      ApprovedTidFound(front, order);
      if ApprovedTid(front, order).Some? {
        var i :| 0 <= i < |front| && front[i].order == order && front[i].status.Approved?
          && front[i].tid == ApprovedTid(front, order);
        assert ps[i] == front[i];
      }
    }
  }

  lemma ApprovalIsTheCharge(w: World, order: int)
    requires Inv(w) && ApprovedTid(w.db.payments, order).Some?
    ensures Acc(w.pg, order).tid == ApprovedTid(w.db.payments, order)
  {
    ApprovedTidFound(w.db.payments, order);
  }

  /** The place cancel goes to after its read is one it may be in. */
  lemma ReadIsSound(w: World, order: int, today: int, showDay: int)
    requires Inv(w) && CancelRead(order, today, showDay) in w.said
    ensures PcOk(w, AfterRead(w.db, order, today, showDay))
  {
    var next := AfterRead(w.db, order, today, showDay);
    if next.CancelRefunding? {
      FeeBands(w.db.orders[order].total, today, showDay);
      ApprovalIsTheCharge(w, order);
      assert OrderOk(w.db.seats, w.db.items, order, w.db.orders[order]);
    }
  }

  lemma CancelReadStepInv(w: World, d: int, pc: Pc)
    requires Inv(w) && pc.CancelReading?
    ensures Inv(CancelReadStep(w, d, pc))
  {
    var h := Heard(w, CancelRead(pc.order, pc.today, pc.showDay));
    HeardInv(w, CancelRead(pc.order, pc.today, pc.showDay));
    ReadIsSound(h, pc.order, pc.today, pc.showDay);
    MovedInv(h, d, AfterRead(w.db, pc.order, pc.today, pc.showDay));
  }

  lemma DecideStepInv(w: World, order: int, yes: bool)
    requires Inv(w)
    ensures Inv(DecideStep(w, order, yes))
  {
    hide DbInv, PcsOk, SendOk, EvidenceOk, ReturnsOk, ApprovalsOk;
    var a := Acc(w.pg, order);
    if a.inflight.Some? {
      NobodySends(w, order);
      assert AccountOk(a, w.db.orders[order].total);
      forall i | 0 <= i < |w.db.payments| && w.db.payments[i].status.Approved?
        ensures w.db.payments[i].order != order
      {
        NoChargeNoApproval(w, order, i);
      }
      var b := if yes then a.(inflight := None, tid := Some(w.nextTid), charged := a.charged + a.inflight.value)
        else a.(inflight := None);
      AccountInv(w, order, b, if yes then w.nextTid + 1 else w.nextTid);
    }
  }

  lemma HookStepInv(w: World, order: int, tid: int)
    requires Inv(w)
    ensures Inv(Step(w, Hook(order, tid)))
  {
    hide Inv, Apply;
    if Acc(w.pg, order).tid == Some(tid) {
      var h := Heard(w, HookSaid(order));
      HeardInv(w, HookSaid(order));
      TransactionInv(h, h.(db := Apply(h.db, Confirm(order, tid), h.clock).0), Confirm(order, tid), h.clock);
    }
  }

  lemma AdvanceInv(w: World, d: int, c: Choice)
    requires Inv(w) && d in w.drivers
    ensures Inv(Advance(w, d, w.drivers[d], c))
  {
    var pc := w.drivers[d];
    match pc
    case Opening(_, _, _, _, _) => OpenStepInv(w, d, pc, c);
    case Sending(_, _, _) => SendStepInv(w, d, pc);
    case Waiting(_, _, _) => AwaitStepInv(w, d, pc, c);
    case Inquiring(_) => InquireStepInv(w, d, pc, c);
    case Judged(_, _, _, _, _) => JudgeStepInv(w, d, pc, c);
    case Refunding(_, _, _) => RefundStepInv(w, d, pc, c);
    case RefundAnswered(_, _, _) => RecordStepInv(w, d, pc, c);
    case Replaying(_, _, _) => ReplayStepInv(w, d, pc, c);
    case CancelReading(_, _, _) => CancelReadStepInv(w, d, pc);
    case CancelRefunding(_, _, _) => CancelRefundStepInv(w, d, pc, c);
    case CancelAnswered(_, _, _) => RecordStepInv(w, d, pc, c);
    case Done =>
  }

  lemma TickInv(w: World, seconds: nat)
    requires Inv(w)
    ensures Inv(w.(clock := w.clock + seconds))
  {
    var v := w.(clock := w.clock + seconds);
    LaterItself(w.db);
    forall e | e in v.drivers
      ensures PcOk(v, v.drivers[e])
    {
      PcStable(w, v, w.drivers[e]);
    }
  }

  /** Every step of anybody keeps the invariant. */
  lemma StepInv(w: World, l: Label)
    requires Inv(w)
    ensures Inv(Step(w, l))
  {
    hide Inv, Apply, Advance, DecideStep;
    match l
    case Tick(seconds) => TickInv(w, seconds);
    case Outside(op, now) =>
      if HoldOp(op) { TransactionInv(w, w.(db := Apply(w.db, op, now).0), op, now); }
    case Hook(order, tid) => HookStepInv(w, order, tid);
    case Decide(order, yes) => DecideStepInv(w, order, yes);
    case StartPlace(d, schedule, user, ids, key, minRemaining) =>
      MovedInv(w, d, Opening(schedule, user, ids, key, minRemaining));
    case StartReconcile(d, order) =>
      if order in w.db.orders { MovedInv(w, d, Inquiring(order)); }
    case StartCancel(d, order, today, showDay) =>
      if order in w.db.orders { MovedInv(w, d, CancelReading(order, today, showDay)); }
    case Go(d, c) =>
      if d in w.drivers { AdvanceInv(w, d, c); }
    case Stop(d) => MovedInv(w, d, Done);
  }

  lemma {:induction false} ExecInv(w: World, ls: seq<Label>)
    requires Inv(w)
    ensures Inv(Exec(w, ls))
    decreases |ls|
  {
    if ls != [] {
      StepInv(w, ls[0]);
      ExecInv(Step(w, ls[0]), ls[1..]);
    }
  }

  lemma StartInv(w: World)
    requires Start(w)
    ensures Inv(w)
  {
    FreshInv(w.db);
  }

  // ------------------------------------------------------------------ theorems about every run

  /** No conclusion without evidence: in every reachable world a paid order goes back to an
      APPROVED answer (or a webhook), a failed one to a DECLINED approval or an APPROVED refund,
      a cancelled one to a DECLINED inquiry or, if it had been paid, to an APPROVED refund. */
  lemma ConclusionsNeedEvidence(w: World, ls: seq<Label>, id: int)
    requires Start(w) && id in Exec(w, ls).db.orders
    ensures var v := Exec(w, ls);
            var o := v.db.orders[id];
            && (o.status.Paid? ==> ApproveSaid(id, PayResult.Approved) in v.said
                                   || InquireSaid(id, PayResult.Approved) in v.said || HookSaid(id) in v.said)
            && (o.status.Failed? ==>
                ApproveSaid(id, Declined) in v.said || RefundSaid(id, PayResult.Approved) in v.said)
            && (o.status.Canceled? ==> if EverPaid(o) then RefundSaid(id, PayResult.Approved) in v.said
                                       else InquireSaid(id, Declined) in v.said)
  {
    StartInv(w);
    ExecInv(w, ls);
    assert Evidence(id, Exec(w, ls).db.orders[id], Exec(w, ls).said);
    assert OrderOk(Exec(w, ls).db.seats, Exec(w, ls).db.items, id, Exec(w, ls).db.orders[id]);
  }

  /** One approval per order, whatever is retried; the gateway charges at most once, the total. */
  lemma ApprovedAtMostOnce(w: World, ls: seq<Label>, id: int)
    requires Start(w)
    ensures var v := Exec(w, ls);
            && Acc(v.pg, id).calls <= 1
            && Acc(v.pg, id).charged <= (if id in v.db.orders then v.db.orders[id].total else 0)
  {
    StartInv(w);
    ExecInv(w, ls);
    if id in Exec(w, ls).pg { assert AccountOk(Exec(w, ls).pg[id], Exec(w, ls).db.orders[id].total); }
  }

  /** One key, one order, one response: no two orders share a key, and all calls of place with
      the same key that return at all return the same order with the same snapshot, before or
      after the order is cancelled. */
  lemma OneResponsePerKey(w: World, ls: seq<Label>, a: Return, b: Return)
    requires Start(w) && a in Exec(w, ls).returned && b in Exec(w, ls).returned && a.key == b.key
    ensures a == b
    ensures a.order in Exec(w, ls).db.orders && Exec(w, ls).db.orders[a.order].key == a.key
    ensures forall o :: o in Exec(w, ls).db.orders && Exec(w, ls).db.orders[o].key == a.key ==> o == a.order
  {
    StartInv(w);
    ExecInv(w, ls);
  }

  /** No double sale in any run of the saga, whatever stops, interleaves or is lost: a seat is booked
      exactly when its one order item belongs to a paid order, a paid order has all its seats, an
      order that is pending or failed has none, and a sold row never passes to another order. */
  lemma SagaNeverSellsTwice(w: World, ls: seq<Label>, more: seq<Label>)
    requires Start(w)
    ensures var d, e := Exec(w, ls).db, Exec(Exec(w, ls), more).db;
            && (forall k :: k in d.seats ==> (d.seats[k].status.Booked? <==> SoldTo(d.items, d.orders, k)))
            && (forall id :: id in d.orders && d.orders[id].status.Paid? ==> ItemsOf(d, id) == OrderKeys(d.orders[id]))
            && (forall id :: id in d.orders && (d.orders[id].status.Pending? || d.orders[id].status.Failed?) ==>
                ItemsOf(d, id) == {})
            && (forall k :: k in d.items ==> k in e.items && e.items[k] == d.items[k])
  {
    SagaIsAHistory(w, ls);
    SagaIsAHistory(Exec(w, ls), more);
    NoDoubleSale(w.db, CommittedIn(w, ls), CommittedIn(Exec(w, ls), more));
  }
}

/** What each transaction of the services does to the tables, in one go.

    Every function takes the tables and the transaction's one reading of the clock and
    returns the tables after commit with what the caller sees. An exception is a rollback,
    so it returns the tables it was given. `Op` is one transaction with its arguments and
    `Run` is a history of them; OrderTransactions and HoldService show that the
    statement-by-statement code computes exactly these functions. */
module Transactions {
  import opened Domain
  import opened Tables

  // ------------------------------------------------------------------ rows after a write

  function Hold(seats: map<SeatKey, SeatRow>, ks: set<SeatKey>, user: int, expires: int): map<SeatKey, SeatRow> {
    map k | k in seats ::
      if k in ks then seats[k].(status := Held, heldBy := Some(user), expires := Some(expires)) else seats[k]
  }

  /** Rows set to a status without a hold. */
  function Put(seats: map<SeatKey, SeatRow>, ks: set<SeatKey>, status: SeatStatus): map<SeatKey, SeatRow> {
    map k | k in seats ::
      if k in ks then seats[k].(status := status, heldBy := None, expires := None) else seats[k]
  }

  /** The REQUESTED attempts of an order become `st`; `tid` is written when given. */
  function Settle(ps: seq<PaymentRow>, order: int, st: PayStatus, tid: Option<int>): seq<PaymentRow> {
    if ps == [] then []
    else
      var p := ps[|ps| - 1];
      Settle(ps[..|ps| - 1], order, st, tid) +
      [if p.order == order && p.status.Requested?
       then p.(status := st, tid := if tid.Some? then tid else p.tid) else p]
  }

  /** The seats a hold statement may write: requested, existing, claimable. */
  function Target(db: Db, schedule: int, ids: seq<int>, now: int): set<SeatKey> {
    set k | k in Wanted(schedule, ids) && k in db.seats && Claimable(db.seats[k], now)
  }

  function Unavailable(db: Db, schedule: int, ids: seq<int>, now: int): set<SeatKey> {
    set k | k in Wanted(schedule, ids) && k in db.seats && !Claimable(db.seats[k], now)
  }

  /** The requested seats the user holds beyond the instant `t`. */
  function LiveSeats(db: Db, schedule: int, user: int, ids: seq<int>, t: int): set<SeatKey> {
    set k | k in Wanted(schedule, ids) && k in db.seats && LiveHold(db.seats[k], user, t)
  }

  /** The requested seats the user holds, expired or not. */
  function HeldSeats(db: Db, schedule: int, user: int, ids: seq<int>): set<SeatKey> {
    set k | k in Wanted(schedule, ids) && k in db.seats && HeldBy(db.seats[k], user)
  }

  function ItemsOf(db: Db, order: int): set<SeatKey> {
    set k | k in db.items && db.items[k].order == order
  }

  function BookedItems(db: Db, order: int): set<SeatKey> {
    set k | k in ItemsOf(db, order) && k in db.seats && db.seats[k].status.Booked?
  }

  function Expired(db: Db, now: int): set<SeatKey> {
    set k | k in db.seats && db.seats[k].status.Held? && db.seats[k].expires.Some? && db.seats[k].expires.value < now
  }

  /** The newest approval of an order, as cancel reads it. */
  function ApprovedTid(ps: seq<PaymentRow>, order: int): Option<int> {
    if ps == [] then None
    else
      var p := ps[|ps| - 1];
      if p.order == order && p.status.Approved? then p.tid else ApprovedTid(ps[..|ps| - 1], order)
  }

  // ------------------------------------------------------------------ outcomes

  datatype Outcome =
    | BadRequest                          // ValueError / empty order
    | HoldGranted(seats: set<SeatKey>)
    | SeatTaken(seats: set<SeatKey>)      // HoldRejected
    | QuotaExceeded(ids: seq<int>)
    | Freed(seats: set<SeatKey>)          // rows a release or a sweep returned
    | Opened(order: int, total: nat)
    | Duplicate(order: int)               // the idempotency key is already in use
    | HoldExpired
    | Confirmed
    | AlreadySettled                      // a conditional transition that updated no row
    | Closed
    | Recorded
    | NoSuchOrder
    | Aborted                             // a constraint nobody catches

  // ------------------------------------------------------------------ holding

  /** What acquire checks before it touches the database. */
  predicate WellAsked(ids: seq<int>, max: int) {
    ids != [] && Distinct(ids) && |ids| <= max
  }

  function AcquireTx(db: Db, schedule: int, user: int, ids: seq<int>, max: int, ttl: int, now: int): (Db, Outcome) {
    if ids == [] || !Distinct(ids) then (db, BadRequest)
    else if |ids| > max then (db, QuotaExceeded(ids))
    else if |Target(db, schedule, ids, now)| == |ids| && |Owned(db, schedule, user, now)| + |ids| <= max then
      (db.(seats := Hold(db.seats, Target(db, schedule, ids, now), user, now + ttl)),
       HoldGranted(Target(db, schedule, ids, now)))
    else if Unavailable(db, schedule, ids, now) != {} then (db, SeatTaken(Unavailable(db, schedule, ids, now)))
    else (db, QuotaExceeded([]))
  }

  function ReleaseTx(db: Db, schedule: int, user: int, ids: seq<int>): (Db, Outcome) {
    var mine := HeldSeats(db, schedule, user, ids);
    (db.(seats := Put(db.seats, mine, Available)), Freed(mine))
  }

  /** A sweep takes any part of the expired holds: LIMIT and SKIP LOCKED leave the rest. */
  function SweepTx(db: Db, chosen: set<SeatKey>, now: int): (Db, Outcome) {
    var gone := chosen * Expired(db, now);
    (db.(seats := Put(db.seats, gone, Available)), Freed(gone))
  }

  // ------------------------------------------------------------------ the saga

  /** First transaction of `place`: the order, or the order that already has the key. */
  function OpenTx(db: Db, id: int, schedule: int, user: int, ids: seq<int>, key: string, minRemaining: int,
                  now: int): (Db, Outcome) {
    if ids == [] then (db, BadRequest)
    else if |LiveSeats(db, schedule, user, ids, now + minRemaining)| == |ids| && key !in db.keys then
      if id in db.orders then (db, Aborted)
      else
        var total := SumPrices(db.seats, schedule, ids);
        (db.(orders := db.orders[id := OrderRow(user, schedule, Pending, ids, total, key, None, now)],
             keys := db.keys[key := id],
             payments := db.payments + [PaymentRow(id, Requested, total, None, None)]),
         Opened(id, total))
    else if key in db.keys then (db, Duplicate(db.keys[key]))
    else (db, HoldExpired)
  }

  /** May this order be confirmed now? Pending, every seat of it held by its buyer beyond `now`,
      and none of those seats ever sold before. */
  predicate Confirmable(db: Db, order: int, now: int) {
    && order in db.orders
    && db.orders[order].status.Pending?
    && db.orders[order].seatIds != []
    && (forall s :: s in db.orders[order].seatIds ==>
          var k := SeatKey(db.orders[order].schedule, s);
          k in db.seats && LiveHold(db.seats[k], db.orders[order].user, now) && k !in db.items)
  }

  function ConfirmTx(db: Db, order: int, tid: int, now: int): (Db, Outcome) {
    if order !in db.orders then (db, NoSuchOrder)
    else if !db.orders[order].status.Pending? then (db, AlreadySettled)
    else if !Confirmable(db, order, now) then (db, HoldExpired)
    else if !TidFree(db.payments, tid) then (db, Aborted)
    else
      var o := db.orders[order];
      var ks := OrderKeys(o);
      (Db(Put(db.seats, ks, Booked),
          db.orders[order := o.(status := Paid, snapshot := Some(Snapshot(order, ks)))],
          db.items + map k | k in ks && k in db.seats :: ItemRow(order, db.seats[k].price),
          db.keys,
          if Count(db.payments, order, Requested) > 0 then Settle(db.payments, order, PayStatus.Approved, Some(tid))
          else db.payments + [PaymentRow(order, PayStatus.Approved, o.total, Some(tid), None)],
          db.outbox + [OrderPaid(order, o.seatIds)]),
       Confirmed)
  }

  /** _close_unpaid: PENDING to FAILED or CANCELED, attempts closed, holds let go. */
  function CloseTx(db: Db, order: int, status: OrderStatus): (Db, Outcome) {
    if order !in db.orders then (db, NoSuchOrder)
    else if !db.orders[order].status.Pending? then (db, AlreadySettled)
    else
      var o := db.orders[order];
      (db.(seats := Put(db.seats, HeldSeats(db, o.schedule, o.user, o.seatIds), Available),
           orders := db.orders[order := o.(status := status)],
           payments := Settle(db.payments, order, PayStatus.Failed, None)),
       Closed)
  }

  /** Second half of _refund_and_fail, after the gateway has answered. */
  function RefundTx(db: Db, order: int, amount: nat, approved: bool, tid: Option<int>): (Db, Outcome) {
    if order !in db.orders || (tid.Some? && !TidFree(db.payments, tid.value)) then (db, Aborted)
    else
      var o := db.orders[order];
      var row := PaymentRow(order, if approved then Refunded else PayStatus.Failed, amount, tid, None);
      var noted := db.(payments := Settle(db.payments + [row], order, PayStatus.Failed, None));
      if !approved then (noted, Recorded)
      else
        (noted.(seats := Put(db.seats, HeldSeats(db, o.schedule, o.user, o.seatIds), Available),
                orders := if o.status.Pending? then db.orders[order := o.(status := OrderStatus.Failed)]
                  else db.orders),
         Recorded)
  }

  /** Second half of cancel after an approved refund. */
  function CancelTx(db: Db, order: int, fee: FeeSnapshot, tid: Option<int>): (Db, Outcome) {
    if order !in db.orders || !db.orders[order].status.Paid? then (db, AlreadySettled)
    else if tid.Some? && !TidFree(db.payments, tid.value) then (db, Aborted)
    else
      (db.(seats := Put(db.seats, BookedItems(db, order), Available),
           orders := db.orders[order := db.orders[order].(status := Canceled)],
           payments := db.payments + [PaymentRow(order, Refunded, fee.refund, tid, Some(fee))],
           outbox := db.outbox + [OrderCanceled(order, fee.fee, fee.refund)]),
       Closed)
  }

  /** Second half of cancel after a refund that did not go through. */
  function CancelRefusedTx(db: Db, order: int, fee: FeeSnapshot): (Db, Outcome) {
    if order !in db.orders then (db, Aborted)
    else (db.(payments := db.payments + [PaymentRow(order, PayStatus.Failed, fee.refund, None, Some(fee))]), Recorded)
  }

  // ------------------------------------------------------------------ histories

  datatype Op =
    | Acquire(schedule: int, user: int, ids: seq<int>, max: int, ttl: int)
    | Release(schedule: int, user: int, ids: seq<int>)
    | Sweep(chosen: set<SeatKey>)
    | Open(id: int, schedule: int, user: int, ids: seq<int>, key: string, minRemaining: int)
    | Confirm(order: int, tid: int)
    | CloseUnpaid(order: int, declinedBy: PayAsk)
    | RecordRefund(order: int, amount: nat, approved: bool, rtid: Option<int>)
    | RecordCancel(order: int, fee: FeeSnapshot, rtid: Option<int>)
    | RecordRefusal(order: int, fee: FeeSnapshot)

  /** Which question the gateway answered with DECLINED. */
  datatype PayAsk = AskApprove | AskInquire

  /** A declined approval fails the order, a declined inquiry cancels it. */
  function ClosingStatus(ask: PayAsk): OrderStatus {
    if ask.AskApprove? then OrderStatus.Failed else Canceled
  }

  function Apply(db: Db, op: Op, now: int): (Db, Outcome) {
    match op
    case Acquire(schedule, user, ids, max, ttl) => AcquireTx(db, schedule, user, ids, max, ttl, now)
    case Release(schedule, user, ids) => ReleaseTx(db, schedule, user, ids)
    case Sweep(chosen) => SweepTx(db, chosen, now)
    case Open(id, schedule, user, ids, key, minRemaining) => OpenTx(db, id, schedule, user, ids, key, minRemaining, now)
    case Confirm(order, tid) => ConfirmTx(db, order, tid, now)
    case CloseUnpaid(order, ask) => CloseTx(db, order, ClosingStatus(ask))
    case RecordRefund(order, amount, approved, rtid) => RefundTx(db, order, amount, approved, rtid)
    case RecordCancel(order, fee, rtid) => CancelTx(db, order, fee, rtid)
    case RecordRefusal(order, fee) => CancelRefusedTx(db, order, fee)
  }

  /** One committed transaction and its reading of the clock. */
  datatype Timed = At(op: Op, now: int)

  function Run(db: Db, ops: seq<Timed>): Db
    decreases |ops|
  {
    if ops == [] then db else Run(Apply(db, ops[0].op, ops[0].now).0, ops[1..])
  }

  lemma {:induction false} RunAppend(db: Db, a: seq<Timed>, b: seq<Timed>)
    ensures Run(db, a + b) == Run(Run(db, a), b)
    decreases |a|
  {
    if a == [] {
      assert a + b == b;
    } else {
      assert (a + b)[0] == a[0] && (a + b)[1..] == a[1..] + b;
      RunAppend(Apply(db, a[0].op, a[0].now).0, a[1..], b);
    }
  }
}

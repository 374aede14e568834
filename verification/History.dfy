/** Consequences of the invariant for whole histories: what a step may change, what no
    later step changes again, and what was therefore sold, charged and announced. */
module History {
  import opened Domain
  import opened Tables
  import opened Transactions
  import opened Invariants

  // ------------------------------------------------------------------ one step

  /** The status a seat has for a buyer: an expired hold counts as free. */
  function Seen(r: SeatRow, now: int): SeatStatus {
    if Claimable(r, now) then Available else r.status
  }

  ghost predicate SeatStep(a: SeatRow, b: SeatRow, now: int) {
    && a.price == b.price
    && (Seen(a, now) == Seen(b, now) || Seen(b, now) in SeatAllowed(Seen(a, now)))
  }

  /** An order keeps everything but its status, which moves along the table, and its snapshot,
      which is written once, together with PAID. */
  ghost predicate OrderStep(a: OrderRow, b: OrderRow) {
    && b == a.(status := b.status, snapshot := b.snapshot)
    && (a.status == b.status || b.status in OrderAllowed(a.status))
    && (a.snapshot == b.snapshot || (a.snapshot.None? && a.status.Pending? && b.status.Paid?))
  }

  ghost predicate OrdersStep(a: Orders, b: Orders) {
    && (forall id :: id in a ==> id in b && OrderStep(a[id], b[id]))
    && (forall id :: id in b && id !in a ==> b[id].status.Pending? && b[id].snapshot.None?)
  }

  ghost predicate SeatsStep(a: Seats, b: Seats, now: int) {
    a.Keys == b.Keys && forall k :: k in a ==> SeatStep(a[k], b[k], now)
  }

  ghost predicate ItemsKept(a: Items, b: Items) {
    forall k :: k in a ==> k in b && b[k] == a[k]
  }

  /** Every transaction moves every seat row along the transition table. */
  lemma SeatsRefineTable(db: Db, op: Op, now: int)
    ensures SeatsStep(db.seats, Apply(db, op, now).0.seats, now)
  {
    if op.Confirm? && Apply(db, op, now).1.Confirmed? {
      ConfirmSeatsStep(db, op.order, now);
    } else if op.RecordCancel? {
    } else {
      HoldSeatsStep(db, op, now);
    }
  }

  lemma ConfirmSeatsStep(db: Db, order: int, now: int)
    requires Confirmable(db, order, now)
    ensures SeatsStep(db.seats, Put(db.seats, OrderKeys(db.orders[order]), Booked), now)
  {
    forall k | k in OrderKeys(db.orders[order])
      ensures k in db.seats && Seen(db.seats[k], now).Held?
    {
      assert LiveHold(db.seats[k], db.orders[order].user, now);
    }
  }

  lemma HoldSeatsStep(db: Db, op: Op, now: int)
    requires !op.RecordCancel? && !(op.Confirm? && Apply(db, op, now).1.Confirmed?)
    ensures SeatsStep(db.seats, Apply(db, op, now).0.seats, now)
  {}

  /** Every transaction moves every order along the transition table. */
  lemma OrdersRefineTable(db: Db, op: Op, now: int)
    requires OrderInv(db.seats, db.items, db.orders)
    ensures OrdersStep(db.orders, Apply(db, op, now).0.orders)
  {
    hide Settle;
    if op.Confirm? && Apply(db, op, now).1.Confirmed? {
      assert OrderOk(db.seats, db.items, op.order, db.orders[op.order]);
    } else if op.Open? {
    } else {
      OldOrdersStep(db, op, now);
    }
  }

  lemma OldOrdersStep(db: Db, op: Op, now: int)
    requires !op.Open? && !(op.Confirm? && Apply(db, op, now).1.Confirmed?)
    ensures OrdersStep(db.orders, Apply(db, op, now).0.orders)
  {}

  /** Order items are only ever added, and only by a confirmation. */
  lemma ItemsOnlyGrow(db: Db, op: Op, now: int)
    ensures ItemsKept(db.items, Apply(db, op, now).0.items)
    ensures Apply(db, op, now).0.items != db.items ==> op.Confirm? && Apply(db, op, now).1.Confirmed?
  {
    if op.Confirm? && Apply(db, op, now).1.Confirmed? {
      NewItemsAreNew(db, op.order, now);
    }
  }

  lemma NewItemsAreNew(db: Db, order: int, now: int)
    requires Confirmable(db, order, now)
    ensures ItemsKept(db.items, db.items + NewItems(db, order))
  {
    forall k | k in OrderKeys(db.orders[order])
      ensures k !in db.items
    {}
  }

  // ------------------------------------------------------------------ whole histories

  /** What no later transaction undoes. */
  ghost predicate Later(a: Db, b: Db) {
    && a.seats.Keys == b.seats.Keys
    && (forall k :: k in a.seats ==> a.seats[k].price == b.seats[k].price)
    && ItemsKept(a.items, b.items)
    && (forall id :: id in a.orders ==> id in b.orders && OrderLater(a.orders[id], b.orders[id]))
    && (forall key :: key in a.keys ==> key in b.keys && b.keys[key] == a.keys[key])
  }

  ghost predicate OrderLater(a: OrderRow, b: OrderRow) {
    && b == a.(status := b.status, snapshot := b.snapshot)
    && (IsTerminal(a.status) ==> b.status == a.status)
    && (a.status.Paid? ==> b.status.Paid? || b.status.Canceled?)
    && (a.snapshot.Some? ==> b.snapshot == a.snapshot)
  }

  lemma KeysOnlyGrow(db: Db, op: Op, now: int, key: string)
    requires key in db.keys
    ensures key in Apply(db, op, now).0.keys && Apply(db, op, now).0.keys[key] == db.keys[key]
  {}

  lemma PricesKept(db: Db, op: Op, now: int)
    ensures db.seats.Keys == Apply(db, op, now).0.seats.Keys
    ensures forall k :: k in db.seats ==> Apply(db, op, now).0.seats[k].price == db.seats[k].price
  {
    SeatsRefineTable(db, op, now);
    forall k | k in db.seats
      ensures Apply(db, op, now).0.seats[k].price == db.seats[k].price
    {
      assert SeatStep(db.seats[k], Apply(db, op, now).0.seats[k], now);
    }
  }

  lemma StepLater(db: Db, op: Op, now: int)
    requires DbInv(db)
    ensures Later(db, Apply(db, op, now).0)
  {
    var d := Apply(db, op, now).0;
    PricesKept(db, op, now);
    OrdersRefineTable(db, op, now);
    ItemsOnlyGrow(db, op, now);
    forall key | key in db.keys { KeysOnlyGrow(db, op, now, key); }
    forall id | id in db.orders
      ensures OrderLater(db.orders[id], d.orders[id])
    {
      assert OrderStep(db.orders[id], d.orders[id]);
    }
  }

  lemma LaterTransitive(a: Db, b: Db, c: Db)
    requires Later(a, b) && Later(b, c)
    ensures Later(a, c)
  {}

  /** Over any history: items, snapshots, terminal statuses, keys and prices stay. */
  lemma {:induction false} HistoryKeeps(db: Db, ops: seq<Timed>)
    requires DbInv(db)
    ensures Later(db, Run(db, ops))
    decreases |ops|
  {
    if ops != [] {
      var d := Apply(db, ops[0].op, ops[0].now).0;
      ApplyInv(db, ops[0].op, ops[0].now);
      StepLater(db, ops[0].op, ops[0].now);
      HistoryKeeps(d, ops[1..]);
      LaterTransitive(db, d, Run(d, ops[1..]));
    }
  }

  /** In words: whatever happens later, FAILED stays FAILED, CANCELED stays CANCELED, a paid order is paid or
      cancelled and never anything else, and no order becomes pending again. */
  lemma StatusNeverReturns(db: Db, ops: seq<Timed>, id: int)
    requires DbInv(db) && id in db.orders
    ensures id in Run(db, ops).orders
    ensures var a, b := db.orders[id].status, Run(db, ops).orders[id].status;
            && (a.Failed? ==> b.Failed?) && (a.Canceled? ==> b.Canceled?) && (a.Paid? ==> b.Paid? || b.Canceled?)
            && (!a.Pending? ==> !b.Pending?)
  {
    HistoryKeeps(db, ops);
    assert OrderLater(db.orders[id], Run(db, ops).orders[id]);
  }

  // ------------------------------------------------------------------ no double sale

  /** From a fresh inventory, whatever happens: a seat is booked exactly when its one order item
      belongs to a paid order; a paid order owns exactly the seats it asked for, all booked; an
      order that was never paid owns none; and a row sold once is never sold to anybody else. */
  lemma NoDoubleSale(db: Db, before: seq<Timed>, after: seq<Timed>)
    requires Fresh(db)
    ensures var d := Run(db, before);
            var e := Run(d, after);
            && (forall k :: k in d.seats ==>
                  (d.seats[k].status.Booked? <==> SoldTo(d.items, d.orders, k)))
            && (forall id :: id in d.orders && d.orders[id].status.Paid? ==>
                  ItemsOf(d, id) == OrderKeys(d.orders[id])
                  && forall k :: k in OrderKeys(d.orders[id]) ==> k in d.seats && d.seats[k].status.Booked?)
            && (forall id :: id in d.orders && (d.orders[id].status.Pending? || d.orders[id].status.Failed?) ==>
                ItemsOf(d, id) == {})
            && (forall k :: k in d.items ==> k in e.items && e.items[k] == d.items[k])
  {
    FreshInv(db);
    RunInv(db, before);
    var d := Run(db, before);
    HistoryKeeps(d, after);
    forall k | k in d.seats
      ensures d.seats[k].status.Booked? <==> SoldTo(d.items, d.orders, k)
    {}
    forall id | id in d.orders
      ensures d.orders[id].status.Paid? ==> ItemsOf(d, id) == OrderKeys(d.orders[id])
      ensures d.orders[id].status.Pending? || d.orders[id].status.Failed? ==> ItemsOf(d, id) == {}
      ensures d.orders[id].status.Paid? ==> forall k :: k in OrderKeys(d.orders[id]) ==>
              k in d.seats && d.seats[k].status.Booked?
    {
      OwnedItems(d, id);
    }
  }

  lemma OwnedItems(d: Db, id: int)
    requires DbInv(d) && id in d.orders
    ensures ItemsOf(d, id) == if EverPaid(d.orders[id]) then OrderKeys(d.orders[id]) else {}
    ensures d.orders[id].status.Paid? ==>
              EverPaid(d.orders[id]) && forall k :: k in OrderKeys(d.orders[id]) ==>
                k in d.seats && d.seats[k].status.Booked?
    ensures d.orders[id].status.Pending? || d.orders[id].status.Failed? ==> !EverPaid(d.orders[id])
  {
    assert OrderOk(d.seats, d.items, id, d.orders[id]);
    if d.orders[id].status.Paid? {
      forall k | k in OrderKeys(d.orders[id])
        ensures k in d.seats && d.seats[k].status.Booked?
      {
        assert k in d.items && d.items[k].order == id;
        assert SoldTo(d.items, d.orders, k);
      }
    }
  }

  /** A seat that was sold and given back is free to hold, yet no other order can ever be
      confirmed for it: its order item stays. The buyer is turned away (and refunded). */
  lemma RestoredSeatIsNeverSoldAgain(db: Db, ops: seq<Timed>, k: SeatKey, id: int, tid: int, now: int)
    requires DbInv(db) && k in db.items
    requires var d := Run(db, ops);
             id in d.orders && id != db.items[k].order && k in OrderKeys(d.orders[id])
    ensures !EverPaid(Run(db, ops).orders[id])
    ensures Run(db, ops).orders[id].status.Pending? ==>
              ConfirmTx(Run(db, ops), id, tid, now) == (Run(db, ops), HoldExpired)
  {
    var d := Run(db, ops);
    RunInv(db, ops);
    HistoryKeeps(db, ops);
    assert OrderOk(d.seats, d.items, id, d.orders[id]);
    assert d.items[k].order != id;
    if Confirmable(d, id, now) { ConfirmableFacts(d, id, now); }
  }

  // ------------------------------------------------------------------ exactly once

  function PaidOnce(db: Db, id: int): nat {
    if id in db.orders && EverPaid(db.orders[id]) then 1 else 0
  }

  /** How many transactions of a history confirmed this order. */
  function Confirmations(db: Db, ops: seq<Timed>, id: int): nat
    decreases |ops|
  {
    if ops == [] then 0
    else
      var (d, out) := Apply(db, ops[0].op, ops[0].now);
      Confirmations(d, ops[1..], id) + if ops[0].op.Confirm? && ops[0].op.order == id && out.Confirmed? then 1 else 0
  }

  lemma ConfirmPays(db: Db, order: int, tid: int, now: int, id: int)
    requires DbInv(db) && ConfirmTx(db, order, tid, now).1.Confirmed?
    ensures PaidOnce(ConfirmTx(db, order, tid, now).0, id) == PaidOnce(db, id) + if order == id then 1 else 0
  {
    ConfirmableFacts(db, order, now);
  }

  lemma OthersPayNothing(db: Db, op: Op, now: int, id: int)
    requires !(op.Confirm? && Apply(db, op, now).1.Confirmed?)
    ensures PaidOnce(Apply(db, op, now).0, id) == PaidOnce(db, id)
  {}

  lemma StepConfirms(db: Db, op: Op, now: int, id: int)
    requires DbInv(db)
    ensures PaidOnce(Apply(db, op, now).0, id)
            == PaidOnce(db, id) + if op.Confirm? && op.order == id && Apply(db, op, now).1.Confirmed? then 1 else 0
  {
    if op.Confirm? && Apply(db, op, now).1.Confirmed? {
      ConfirmPays(db, op.order, op.tid, now, id);
    } else {
      OthersPayNothing(db, op, now, id);
    }
  }

  /** Whoever calls, however often and in whatever order: an order is confirmed by at most one
      call, it is paid (or was) exactly when that call happened, and exactly then it has one
      APPROVED payment and one order.paid message. */
  lemma {:induction false} ConfirmedExactlyOnce(db: Db, ops: seq<Timed>, id: int)
    requires DbInv(db)
    ensures PaidOnce(Run(db, ops), id) == PaidOnce(db, id) + Confirmations(db, ops, id)
    ensures id in Run(db, ops).orders ==>
              && PaidOnce(Run(db, ops), id) == Count(Run(db, ops).payments, id, PayStatus.Approved)
              && PaidOnce(Run(db, ops), id) == PaidMessages(Run(db, ops).outbox, id)
    decreases |ops|
  {
    if ops == [] {
      if id in db.orders { assert CountOk(db.payments, id, db.orders[id]); }
    } else {
      ApplyInv(db, ops[0].op, ops[0].now);
      StepConfirms(db, ops[0].op, ops[0].now, id);
      ConfirmedExactlyOnce(Apply(db, ops[0].op, ops[0].now).0, ops[1..], id);
    }
  }

  // ------------------------------------------------------------------ amounts

  function SumItems(items: Items, schedule: int, ids: seq<int>): nat {
    if ids == [] then 0
    else
      var k := SeatKey(schedule, ids[0]);
      (if k in items then items[k].price else 0) + SumItems(items, schedule, ids[1..])
  }

  lemma {:induction false} ItemsCostTheSeats(seats: Seats, items: Items, schedule: int, ids: seq<int>)
    requires forall s :: s in ids ==>
               var k := SeatKey(schedule, s); k in items && k in seats && items[k].price == seats[k].price
    ensures SumItems(items, schedule, ids) == SumPrices(seats, schedule, ids)
  {
    if ids != [] { ItemsCostTheSeats(seats, items, schedule, ids[1..]); }
  }

  /** For every order ever paid, the total is what its items cost and what its approval was for;
      a pending order has at most one open attempt, for the total, and no other order has one. */
  lemma AmountsAgree(db: Db, ops: seq<Timed>, id: int)
    requires Fresh(db) && id in Run(db, ops).orders
    ensures var d := Run(db, ops);
            var o := d.orders[id];
            && (EverPaid(o) ==> SumItems(d.items, o.schedule, o.seatIds) == o.total)
            && (EverPaid(o) <==> Count(d.payments, id, PayStatus.Approved) == 1)
            && Count(d.payments, id, Requested) <= (if o.status.Pending? then 1 else 0)
            && (forall i :: 0 <= i < |d.payments| && d.payments[i].order == id
                            && (d.payments[i].status.Approved? || d.payments[i].status.Requested?) ==>
                  d.payments[i].amount == o.total)
  {
    FreshInv(db);
    RunInv(db, ops);
    var d := Run(db, ops);
    var o := d.orders[id];
    assert OrderOk(d.seats, d.items, id, o);
    assert CountOk(d.payments, id, o);
    forall i | 0 <= i < |d.payments|
      ensures PaymentOk(d.orders, d.payments[i])
    {}
    if EverPaid(o) {
      forall s | s in o.seatIds
        ensures var k := SeatKey(o.schedule, s); k in d.items && k in d.seats && d.items[k].price == d.seats[k].price
      {
        assert SeatKey(o.schedule, s) in OrderKeys(o);
      }
      ItemsCostTheSeats(d.seats, d.items, o.schedule, o.seatIds);
    }
  }

  // ------------------------------------------------------------------ stock

  function InStatus(db: Db, schedule: int, st: SeatStatus): set<SeatKey> {
    set k | k in db.seats && k.schedule == schedule && db.seats[k].status == st
  }

  function StockOf(db: Db, schedule: int): set<SeatKey> {
    set k | k in db.seats && k.schedule == schedule
  }

  lemma StatusesPartition(db: Db, schedule: int)
    ensures |InStatus(db, schedule, Available)| + |InStatus(db, schedule, Held)| + |InStatus(db, schedule, Booked)|
            == |StockOf(db, schedule)|
  {
    var a, h, b := InStatus(db, schedule, Available), InStatus(db, schedule, Held), InStatus(db, schedule, Booked);
    assert a !! h && (a + h) !! b;
    assert a + h + b == StockOf(db, schedule);
  }

  /** AVAILABLE + HELD + BOOKED of a schedule never changes, and no row breaks the hold shape. */
  lemma StockIsConserved(db: Db, ops: seq<Timed>, schedule: int)
    requires DbInv(db)
    ensures var d := Run(db, ops);
            |InStatus(d, schedule, Available)| + |InStatus(d, schedule, Held)| + |InStatus(d, schedule, Booked)|
            == |StockOf(db, schedule)|
    ensures forall k :: k in Run(db, ops).seats ==> HoldShape(Run(db, ops).seats[k])
  {
    RunInv(db, ops);
    HistoryKeeps(db, ops);
    StatusesPartition(Run(db, ops), schedule);
    assert StockOf(Run(db, ops), schedule) == StockOf(db, schedule);
  }

  // ------------------------------------------------------------------ the verdict of acquire

  predicate AllExist(db: Db, schedule: int, ids: seq<int>) {
    Wanted(schedule, ids) <= db.seats.Keys
  }

  predicate AllFree(db: Db, schedule: int, ids: seq<int>, now: int) {
    forall s :: s in ids ==>
      var k := SeatKey(schedule, s);
      && k in db.seats
      && (db.seats[k].status.Available?
          || (db.seats[k].status.Held? && db.seats[k].expires.Some? && db.seats[k].expires.value < now))
  }

  /** All or nothing, and the reason is exact. A grant needs every seat to exist and be claimable
      and the quota to hold, and then exactly those rows become the user's until now + ttl. A
      refusal changes nothing. When the seats exist, SeatTaken names exactly those that cannot
      be claimed, and QuotaExceeded means all could be. */
  lemma AcquireVerdict(db: Db, schedule: int, user: int, ids: seq<int>, max: int, ttl: int, now: int)
    requires ids != [] && Distinct(ids) && |ids| <= max
    ensures var (d, out) := AcquireTx(db, schedule, user, ids, max, ttl, now);
            var fits := |Owned(db, schedule, user, now)| + |ids| <= max;
            && (out.HoldGranted? <==> AllFree(db, schedule, ids, now) && fits)
            && (!out.HoldGranted? ==> d == db)
            && (out.HoldGranted? ==>
                  && out.seats == Wanted(schedule, ids)
                  && d == db.(seats := d.seats) && d.seats.Keys == db.seats.Keys
                  && forall k :: k in d.seats ==>
                       d.seats[k] == if k in Wanted(schedule, ids)
                                     then SeatRow(Held, Some(user), Some(now + ttl), db.seats[k].price)
                                       else db.seats[k])
            && (AllExist(db, schedule, ids) ==>
                  && (out.SeatTaken? <==> !AllFree(db, schedule, ids, now))
                  && (out.QuotaExceeded? <==> AllFree(db, schedule, ids, now) && !fits))
            && (out.SeatTaken? ==> out.seats != {} && forall k :: k in out.seats <==>
                  k in Wanted(schedule, ids) && k in db.seats && !Claimable(db.seats[k], now))
  {
    var target := Target(db, schedule, ids, now);
    WantedSize(schedule, ids);
    SubsetSize(target, Wanted(schedule, ids));
    if AllFree(db, schedule, ids, now) {
      assert target == Wanted(schedule, ids);
      assert Unavailable(db, schedule, ids, now) == {};
    } else {
      var s :| s in ids && !(SeatKey(schedule, s) in db.seats && Claimable(db.seats[SeatKey(schedule, s)], now));
      assert SeatKey(schedule, s) in Wanted(schedule, ids) && SeatKey(schedule, s) !in target;
      if AllExist(db, schedule, ids) { assert SeatKey(schedule, s) in Unavailable(db, schedule, ids, now); }
    }
  }

  /** Asking for a seat that does not exist is answered with the quota verdict, though the quota
      has nothing to do with it: exactly when no existing requested seat is taken. */
  lemma UnknownSeatReadsAsQuota(db: Db, schedule: int, user: int, ids: seq<int>, max: int, ttl: int, now: int)
    requires ids != [] && Distinct(ids) && |ids| <= max && !AllExist(db, schedule, ids)
    ensures AcquireTx(db, schedule, user, ids, max, ttl, now).1 == QuotaExceeded([])
            <==> forall k :: k in Wanted(schedule, ids) && k in db.seats ==> Claimable(db.seats[k], now)
  {
    AcquireVerdict(db, schedule, user, ids, max, ttl, now);
    var missing :| missing in Wanted(schedule, ids) && missing !in db.seats;
    var s :| s in ids && missing == SeatKey(schedule, s);
    var un := Unavailable(db, schedule, ids, now);
    assert AcquireTx(db, schedule, user, ids, max, ttl, now).1 == if un != {} then SeatTaken(un) else QuotaExceeded([]);
    if un != {} {
      var k :| k in un;
    } else {
      forall k | k in Wanted(schedule, ids) && k in db.seats
        ensures Claimable(db.seats[k], now)
      {
        assert k in un <==> !Claimable(db.seats[k], now);
      }
    }
  }

  // ------------------------------------------------------------------ release and open

  /** A release frees what the user holds among the named seats, expired or not, and nothing else: the
      named seats are no longer the user's to hold, everybody else's and every other row is as before,
      and releasing again finds nothing. */
  lemma ReleaseFreesOwnHolds(db: Db, schedule: int, user: int, ids: seq<int>)
    ensures var (d, out) := ReleaseTx(db, schedule, user, ids);
            && d == db.(seats := d.seats) && d.seats.Keys == db.seats.Keys
            && (forall k :: k in d.seats && k.schedule == schedule && k.seat in ids && d.seats[k].status.Held? ==>
                  d.seats[k].heldBy != Some(user))
            && (forall k :: k in d.seats && d.seats[k] != db.seats[k] ==>
                  && k.schedule == schedule && k.seat in ids
                  && db.seats[k].status.Held? && db.seats[k].heldBy == Some(user)
                  && d.seats[k].status.Available? && HoldShape(d.seats[k]))
            && out.Freed? && (forall k :: k in out.seats <==> k in db.seats && d.seats[k] != db.seats[k])
            && ReleaseTx(d, schedule, user, ids) == (d, Freed({}))
  {
    var d := ReleaseTx(db, schedule, user, ids).0;
    forall k: SeatKey
      ensures k in Wanted(schedule, ids) <==> k.schedule == schedule && k.seat in ids
    {
      assert k.schedule == schedule && k.seat in ids ==> k == SeatKey(schedule, k.seat);
    }
    assert HeldSeats(d, schedule, user, ids) == {};
    assert Put(d.seats, {}, Available) == d.seats;
  }

  /** Every seat asked for is held by the user beyond `t`. */
  predicate AllLive(db: Db, schedule: int, user: int, ids: seq<int>, t: int) {
    forall s :: s in ids ==>
      var k := SeatKey(schedule, s);
      && k in db.seats && db.seats[k].status.Held? && db.seats[k].heldBy == Some(user)
      && db.seats[k].expires.Some? && db.seats[k].expires.value > t
  }

  /** The one count of open_order decides seat by seat: an order is opened exactly when the list names
      distinct seats, each held by the user beyond the margin, and the key is new. A used key is always
      answered with its order, so asking twice with one key opens one order. */
  lemma OpenedIffHeld(db: Db, id: int, schedule: int, user: int, ids: seq<int>, key: string, margin: int, now: int)
    requires ids != [] && id !in db.orders
    ensures var (d, out) := OpenTx(db, id, schedule, user, ids, key, margin, now);
            && (out.Opened? <==> key !in db.keys && Distinct(ids) && AllLive(db, schedule, user, ids, now + margin))
            && (key in db.keys ==> out == Duplicate(db.keys[key]))
            && (!out.Opened? ==> d == db && (out.HoldExpired? <==> key !in db.keys))
            && (out.Opened? ==>
                  && OrderKeys(d.orders[id]) == Wanted(schedule, ids) && d.orders[id].status.Pending?
                  && d.orders[id].total == out.total == SumPrices(db.seats, schedule, ids)
                  && forall other, s, u, list, m, t :: list != [] ==>
                       OpenTx(d, other, s, u, list, key, m, t) == (d, Duplicate(id)))
  {
    var live := LiveSeats(db, schedule, user, ids, now + margin);
    WantedSize(schedule, ids);
    SubsetSize(live, Wanted(schedule, ids));
    if AllLive(db, schedule, user, ids, now + margin) {
      assert live == Wanted(schedule, ids);
    } else {
      var s :| s in ids && !(SeatKey(schedule, s) in db.seats
                             && LiveHold(db.seats[SeatKey(schedule, s)], user, now + margin));
      assert SeatKey(schedule, s) in Wanted(schedule, ids) && SeatKey(schedule, s) !in live;
    }
  }

  /** Before its deadline a hold is its holder's, after it the seat is anybody's, and at the very
      instant it is nobody's: both comparisons are strict. */
  lemma NobodysInstant(db: Db, k: SeatKey, now: int, other: int, max: int, ttl: int, id: int, key: string)
    requires k in db.seats && db.seats[k].status.Held? && HoldShape(db.seats[k])
    requires |Owned(db, k.schedule, other, now)| < max && id !in db.orders && key !in db.keys
    ensures var r := db.seats[k];
            && (AcquireTx(db, k.schedule, other, [k.seat], max, ttl, now).1.HoldGranted? <==> r.expires.value < now)
            && (OpenTx(db, id, k.schedule, r.heldBy.value, [k.seat], key, 0, now).1.Opened? <==> now < r.expires.value)
  {
    var r := db.seats[k];
    AcquireVerdict(db, k.schedule, other, [k.seat], max, ttl, now);
    assert k.seat in [k.seat];
    assert AllFree(db, k.schedule, [k.seat], now) <==> Claimable(r, now);
    assert LiveSeats(db, k.schedule, r.heldBy.value, [k.seat], now + 0)
        == if LiveHold(r, r.heldBy.value, now) then {k} else {};
  }
}

/** Selling a seat again. The design document promises that a cancelled seat is back in stock; the
    code lets it be held and ordered, but never confirmed. When exactly a pending order can be
    confirmed is stated over the history of the seats, and a history that disappoints the next
    buyer is given for any fresh inventory with a seat in it. */
module Resale {
  import opened Domain
  import opened Tables
  import opened Transactions
  import opened Invariants
  import opened History

  // ------------------------------------------------------------------ which seats were ever sold

  /** This transaction confirms an order for the seat. */
  predicate Sells(db: Db, t: Timed, k: SeatKey) {
    && t.op.Confirm?
    && Apply(db, t.op, t.now).1.Confirmed?
    && t.op.order in db.orders
    && k in OrderKeys(db.orders[t.op.order])
  }

  /** Some transaction of the history did. */
  predicate SoldIn(db: Db, ops: seq<Timed>, k: SeatKey)
    decreases |ops|
  {
    ops != [] && (Sells(db, ops[0], k) || SoldIn(Apply(db, ops[0].op, ops[0].now).0, ops[1..], k))
  }

  lemma ItemIsASale(db: Db, t: Timed, k: SeatKey)
    ensures k in Apply(db, t.op, t.now).0.items <==> k in db.items || Sells(db, t, k)
  {
    ItemsOnlyGrow(db, t.op, t.now);
  }

  lemma {:induction false} ItemsAreSales(db: Db, ops: seq<Timed>, k: SeatKey)
    ensures k in Run(db, ops).items <==> k in db.items || SoldIn(db, ops, k)
    decreases |ops|
  {
    if ops != [] {
      ItemIsASale(db, ops[0], k);
      ItemsAreSales(Apply(db, ops[0].op, ops[0].now).0, ops[1..], k);
    }
  }

  /** The buyer holds the seat beyond `now`, and no history so far has sold it. */
  ghost predicate StillForSale(db: Db, ops: seq<Timed>, k: SeatKey, user: int, now: int) {
    var d := Run(db, ops);
    && k in d.seats && d.seats[k].status.Held? && d.seats[k].heldBy == Some(user)
    && d.seats[k].expires.Some? && d.seats[k].expires.value > now
    && !SoldIn(db, ops, k)
  }

  /** A pending order is confirmed exactly when each of its seats is held live by its buyer and was
      never sold in the whole history, cancelled since or not, and the number is new; with a seat
      that is not, the answer is an expired hold. */
  lemma ConfirmedIffNeverSold(db: Db, ops: seq<Timed>, order: int, tid: int, now: int)
    requires Fresh(db) && order in Run(db, ops).orders && Run(db, ops).orders[order].status.Pending?
    ensures var d := Run(db, ops);
            var forSale := forall k :: k in OrderKeys(d.orders[order]) ==>
                             StillForSale(db, ops, k, d.orders[order].user, now);
            var out := ConfirmTx(d, order, tid, now).1;
            && (out.Confirmed? <==> forSale && TidFree(d.payments, tid))
            && (out.HoldExpired? <==> !forSale)
  {
    var d := Run(db, ops);
    var o := d.orders[order];
    FreshInv(db);
    RunInv(db, ops);
    assert OrderOk(d.seats, d.items, order, o);
    forall k { ItemsAreSales(db, ops, k); }
    if Confirmable(d, order, now) {
      forall k | k in OrderKeys(o)
        ensures StillForSale(db, ops, k, o.user, now)
      {}
    } else {
      var s :| s in o.seatIds && !(var k := SeatKey(o.schedule, s);
                                   k in d.seats && LiveHold(d.seats[k], o.user, now) && k !in d.items);
      assert SeatKey(o.schedule, s) in OrderKeys(o);
      assert !StillForSale(db, ops, SeatKey(o.schedule, s), o.user, now);
    }
  }

  // ------------------------------------------------------------------ one seat

  lemma HoldOne(db: Db, k: SeatKey, user: int, max: int, ttl: int, now: int)
    requires k in db.seats && Claimable(db.seats[k], now) && max > 0
    requires Owned(db, k.schedule, user, now) == {}
    ensures AcquireTx(db, k.schedule, user, [k.seat], max, ttl, now).0
            == db.(seats := db.seats[k := SeatRow(Held, Some(user), Some(now + ttl), db.seats[k].price)])
  {
    assert Target(db, k.schedule, [k.seat], now) == {k};
    assert Hold(db.seats, {k}, user, now + ttl)
        == db.seats[k := SeatRow(Held, Some(user), Some(now + ttl), db.seats[k].price)];
  }

  /** The order for one seat, as open_order writes it. */
  function OrderFor(db: Db, k: SeatKey, user: int, key: string, now: int): OrderRow
    requires k in db.seats
  {
    OrderRow(user, k.schedule, Pending, [k.seat], db.seats[k].price, key, None, now)
  }

  lemma OpenOne(db: Db, k: SeatKey, id: int, user: int, key: string, margin: int, now: int)
    requires k in db.seats && LiveHold(db.seats[k], user, now + margin) && key !in db.keys && id !in db.orders
    ensures OpenTx(db, id, k.schedule, user, [k.seat], key, margin, now)
            == (db.(orders := db.orders[id := OrderFor(db, k, user, key, now)], keys := db.keys[key := id],
                    payments := db.payments + [PaymentRow(id, Requested, db.seats[k].price, None, None)]),
                Opened(id, db.seats[k].price))
  {
    assert LiveSeats(db, k.schedule, user, [k.seat], now + margin) == {k};
    assert [k.seat][1..] == [];
    assert SumPrices(db.seats, k.schedule, [k.seat]) == db.seats[k].price + SumPrices(db.seats, k.schedule, []);
  }

  /** Confirming the order of one seat books it. */
  lemma PayOne(db: Db, k: SeatKey, order: int, tid: int, now: int)
    requires order in db.orders && db.orders[order].status.Pending?
    requires db.orders[order].schedule == k.schedule && db.orders[order].seatIds == [k.seat]
    requires k in db.seats && LiveHold(db.seats[k], db.orders[order].user, now) && k !in db.items
    requires TidFree(db.payments, tid)
    ensures var (d, out) := ConfirmTx(db, order, tid, now);
            && out.Confirmed? && Confirmable(db, order, now)
            && d.seats == db.seats[k := SeatRow(Booked, None, None, db.seats[k].price)]
            && d.orders == db.orders[order := PaidRow(db, order)]
            && d.items == db.items[k := ItemRow(order, db.seats[k].price)] && d.keys == db.keys
            && d.payments == Approving(db.payments, order, db.orders[order].total, tid)
  {
    assert OrderKeys(db.orders[order]) == {k};
    assert Put(db.seats, {k}, Booked) == db.seats[k := SeatRow(Booked, None, None, db.seats[k].price)];
    assert (map j | j in {k} && j in db.seats :: ItemRow(order, db.seats[j].price))
      == map[k := ItemRow(order, db.seats[k].price)];
  }

  /** Cancelling it frees the seat and leaves the item. */
  lemma CancelOne(db: Db, k: SeatKey, order: int, fee: FeeSnapshot, rtid: int)
    requires order in db.orders && db.orders[order].status.Paid? && ItemsOf(db, order) == {k}
    requires k in db.seats && db.seats[k].status.Booked? && TidFree(db.payments, rtid)
    ensures var d := CancelTx(db, order, fee, Some(rtid)).0;
            && d.seats == db.seats[k := SeatRow(Available, None, None, db.seats[k].price)]
            && d.orders == db.orders[order := db.orders[order].(status := Canceled)]
            && d.items == db.items && d.keys == db.keys
  {
    assert BookedItems(db, order) == {k};
    assert Put(db.seats, {k}, Available) == db.seats[k := SeatRow(Available, None, None, db.seats[k].price)];
  }

  lemma RunSnoc(db: Db, ops: seq<Timed>, t: Timed)
    ensures Run(db, ops + [t]) == Apply(Run(db, ops), t.op, t.now).0
  {
    RunAppend(db, ops, [t]);
    assert [t][1..] == [];
    assert Run(Run(db, ops), [t]) == Run(Apply(Run(db, ops), t.op, t.now).0, [t][1..]);
  }

  // ------------------------------------------------------------------ the disappointed buyer

  const FIRST: int := 7
  const NEXT: int := 8

  /** The first buyer holds and orders. */
  function Order(k: SeatKey): seq<Timed> {
    [At(Acquire(k.schedule, FIRST, [k.seat], MAX_SEATS_PER_ORDER, HOLD_TTL), 0)]
    + [At(Open(1, k.schedule, FIRST, [k.seat], "first", MIN_HOLD_REMAINING_FOR_PAYMENT), 0)]
  }

  /** And pays. */
  function Sale(k: SeatKey): seq<Timed> {
    Order(k) + [At(Confirm(1, 101), 0)]
  }

  /** The order is cancelled free of charge, and the next buyer holds and orders the seat. */
  function SecondSale(k: SeatKey, price: nat): seq<Timed> {
    [At(RecordCancel(1, FeeSnapshot(0, price), Some(102)), 0)]
    + [At(Acquire(k.schedule, NEXT, [k.seat], MAX_SEATS_PER_ORDER, HOLD_TTL), 0)]
    + [At(Open(2, k.schedule, NEXT, [k.seat], "next", MIN_HOLD_REMAINING_FOR_PAYMENT), 0)]
  }

  /** After the sale: the seat is booked for order 1, which is paid, and nothing else happened. */
  ghost predicate Bought(db: Db, d: Db, k: SeatKey)
    requires k in db.seats
  {
    && d.seats == db.seats[k := SeatRow(Booked, None, None, db.seats[k].price)]
    && d.orders.Keys == {1} && d.orders[1].status.Paid? && d.orders[1].user == FIRST
    && d.items == map[k := ItemRow(1, db.seats[k].price)]
    && d.keys.Keys == {"first"}
    && TidFree(d.payments, 102)
  }

  ghost predicate Ordered(db: Db, d: Db, k: SeatKey)
    requires k in db.seats
  {
    && d.seats == db.seats[k := SeatRow(Held, Some(FIRST), Some(HOLD_TTL), db.seats[k].price)]
    && d.orders == map[1 := OrderFor(db, k, FIRST, "first", 0)] && d.items == map[] && d.keys == map["first" := 1]
    && d.payments == [PaymentRow(1, Requested, db.seats[k].price, None, None)]
  }

  lemma FirstOrders(db: Db, k: SeatKey)
    requires Fresh(db) && k in db.seats
    ensures Ordered(db, Run(db, Order(k)), k)
  {
    var hold := At(Acquire(k.schedule, FIRST, [k.seat], MAX_SEATS_PER_ORDER, HOLD_TTL), 0);
    RunSnoc(db, [], hold);
    assert [] + [hold] == [hold];
    assert Owned(db, k.schedule, FIRST, 0) == {};
    HoldOne(db, k, FIRST, MAX_SEATS_PER_ORDER, HOLD_TTL, 0);
    RunSnoc(db, [hold], At(Open(1, k.schedule, FIRST, [k.seat], "first", MIN_HOLD_REMAINING_FOR_PAYMENT), 0));
    OpenOne(Run(db, [hold]), k, 1, FIRST, "first", MIN_HOLD_REMAINING_FOR_PAYMENT, 0);
  }

  lemma SaleSells(db: Db, k: SeatKey)
    requires Fresh(db) && k in db.seats
    ensures Bought(db, Run(db, Sale(k)), k)
  {
    hide ConfirmTx, Confirmable, Approving;
    FirstOrders(db, k);
    var d := Run(db, Order(k));
    RunSnoc(db, Order(k), At(Confirm(1, 101), 0));
    PayOne(d, k, 1, 101, 0);
    OneApproval(d.payments[0], 101, 102);
  }

  lemma OneApproval(row: PaymentRow, tid: int, other: int)
    requires row.order == 1 && row.status.Requested? && tid != other
    ensures TidFree(Approving([row], 1, row.amount, tid), other)
  {
    CountAppend([], row, 1, Requested);
    CountSettle([row], 1, PayStatus.Approved, Some(tid), 1, Requested);
  }

  lemma OrderedAgain(d: Db, db: Db, k: SeatKey)
    requires k in db.seats && Bought(db, d, k) && Fresh(db)
    ensures var e := Run(d, SecondSale(k, db.seats[k].price));
            && 2 in e.orders && e.orders[2].status.Pending? && OrderKeys(e.orders[2]) == {k} && e.orders[2].user == NEXT
            && k in e.seats && LiveHold(e.seats[k], NEXT, 0) && k in e.items
  {
    var price := db.seats[k].price;
    var cancel := At(RecordCancel(1, FeeSnapshot(0, price), Some(102)), 0);
    var hold := At(Acquire(k.schedule, NEXT, [k.seat], MAX_SEATS_PER_ORDER, HOLD_TTL), 0);
    RunSnoc(d, [], cancel);
    assert [] + [cancel] == [cancel];
    CancelOne(d, k, 1, FeeSnapshot(0, price), 102);
    var back := Run(d, [cancel]);
    RunSnoc(d, [cancel], hold);
    assert Owned(back, k.schedule, NEXT, 0) == {};
    HoldOne(back, k, NEXT, MAX_SEATS_PER_ORDER, HOLD_TTL, 0);
    var held := Run(d, [cancel] + [hold]);
    RunSnoc(d, [cancel] + [hold], At(Open(2, k.schedule, NEXT, [k.seat], "next", MIN_HOLD_REMAINING_FOR_PAYMENT), 0));
    OpenOne(held, k, 2, NEXT, "next", MIN_HOLD_REMAINING_FOR_PAYMENT, 0);
  }

  /** In any fresh inventory, for any of its seats: after a sale and a cancellation the seat is held
      live by the next buyer and ordered, and the confirmation of that order reports an expired hold. */
  lemma RestoredSeatDisappoints(db: Db, k: SeatKey, tid: int)
    requires Fresh(db) && k in db.seats
    ensures var d := Run(db, Sale(k) + SecondSale(k, db.seats[k].price));
            && 2 in d.orders && d.orders[2].status.Pending? && OrderKeys(d.orders[2]) == {k}
            && k in d.seats && LiveHold(d.seats[k], d.orders[2].user, 0)
            && SoldIn(db, Sale(k) + SecondSale(k, db.seats[k].price), k)
            && ConfirmTx(d, 2, tid, 0) == (d, HoldExpired)
  {
    var ops := Sale(k) + SecondSale(k, db.seats[k].price);
    SaleSells(db, k);
    OrderedAgain(Run(db, Sale(k)), db, k);
    RunAppend(db, Sale(k), SecondSale(k, db.seats[k].price));
    ItemsAreSales(db, ops, k);
    var d := Run(db, ops);
    assert 2 in d.orders && SeatKey(d.orders[2].schedule, k.seat) == k by { assert k in OrderKeys(d.orders[2]); }
    assert !Confirmable(d, 2, 0);
  }
}

/** What every transaction keeps, and what follows for whole histories of transactions:
    nothing is sold twice, confirmation happens once, amounts agree, and every step is one
    the transition tables allow. Histories are arbitrary: any transactions, any arguments,
    any order, any clock readings. */
module Invariants {
  import opened Domain
  import opened Tables
  import opened Transactions

  // ------------------------------------------------------------------ the invariant

  /** The order was paid at some time; the snapshot is written then and only then. */
  predicate EverPaid(o: OrderRow) {
    o.snapshot.Some?
  }

  type Seats = map<SeatKey, SeatRow>
  type Orders = map<int, OrderRow>
  type Items = map<SeatKey, ItemRow>

  /** Rows have the CHECKed shape. */
  ghost predicate ShapeInv(seats: Seats) {
    forall k :: k in seats ==> HoldShape(seats[k])
  }

  /** An item names an existing seat at its price, and an order that was paid for that very seat. */
  ghost predicate ItemInv(seats: Seats, items: Items, orders: Orders) {
    forall k :: k in items ==>
      && k in seats && items[k].price == seats[k].price
      && items[k].order in orders
      && EverPaid(orders[items[k].order])
      && k in OrderKeys(orders[items[k].order])
  }

  /** A seat is booked exactly when its one item belongs to a paid order. */
  ghost predicate BookedInv(seats: Seats, items: Items, orders: Orders) {
    forall k :: k in seats ==> (seats[k].status.Booked? <==> SoldTo(items, orders, k))
  }

  predicate SoldTo(items: Items, orders: Orders, k: SeatKey) {
    k in items && items[k].order in orders && orders[items[k].order].status.Paid?
  }

  /** One order: distinct existing seats at their total; a snapshot when paid or later, none
      before and none when failed; and then items for all its seats. */
  ghost predicate OrderOk(seats: Seats, items: Items, id: int, o: OrderRow) {
    && o.seatIds != [] && Distinct(o.seatIds)
    && OrderKeys(o) <= seats.Keys
    && o.total == SumPrices(seats, o.schedule, o.seatIds)
    && (o.status.Paid? ==> EverPaid(o))
    && (o.status.Pending? || o.status.Failed? ==> !EverPaid(o))
    && (EverPaid(o) ==> o.snapshot.value == Snapshot(id, OrderKeys(o)) && HasItems(items, id, OrderKeys(o)))
  }

  ghost predicate HasItems(items: Items, id: int, ks: set<SeatKey>) {
    forall k :: k in ks ==> k in items && items[k].order == id
  }

  ghost predicate OrderInv(seats: Seats, items: Items, orders: Orders) {
    forall id :: id in orders ==> OrderOk(seats, items, id, orders[id])
  }

  /** The idempotency index and the orders name each other. */
  ghost predicate KeyInv(orders: Orders, keys: map<string, int>) {
    && (forall id :: id in orders ==> orders[id].key in keys && keys[orders[id].key] == id)
    && (forall key :: key in keys ==> keys[key] in orders && orders[keys[key]].key == key)
  }

  /** An attempt or an approval is for the order's total; only an approval already has a number. */
  ghost predicate PaymentOk(orders: Orders, p: PaymentRow) {
    && p.order in orders
    && (p.status.Requested? || p.status.Approved? ==> p.amount == orders[p.order].total)
    && (p.status.Approved? ==> p.tid.Some?)
  }

  ghost predicate TidsUnique(ps: seq<PaymentRow>) {
    forall i, j :: 0 <= i < j < |ps| && ps[i].tid.Some? ==> ps[i].tid != ps[j].tid
  }

  ghost predicate RowsInv(orders: Orders, ps: seq<PaymentRow>) {
    TidsUnique(ps) && forall i :: 0 <= i < |ps| ==> PaymentOk(orders, ps[i])
  }

  /** At most one open attempt, and only while pending; exactly one approval once paid. */
  ghost predicate CountOk(ps: seq<PaymentRow>, id: int, o: OrderRow) {
    && Count(ps, id, Requested) <= (if o.status.Pending? then 1 else 0)
    && Count(ps, id, PayStatus.Approved) == (if EverPaid(o) then 1 else 0)
  }

  ghost predicate CountInv(orders: Orders, ps: seq<PaymentRow>) {
    forall id :: id in orders ==> CountOk(ps, id, orders[id])
  }

  /** One order.paid message per order ever paid. */
  ghost predicate OutboxInv(orders: Orders, box: seq<OutboxRow>) {
    && (forall i :: 0 <= i < |box| ==> box[i].order in orders)
    && (forall id :: id in orders ==> PaidMessages(box, id) == (if EverPaid(orders[id]) then 1 else 0))
  }

  ghost predicate DbInv(db: Db) {
    && ShapeInv(db.seats)
    && ItemInv(db.seats, db.items, db.orders)
    && BookedInv(db.seats, db.items, db.orders)
    && OrderInv(db.seats, db.items, db.orders)
    && KeyInv(db.orders, db.keys)
    && RowsInv(db.orders, db.payments)
    && CountInv(db.orders, db.payments)
    && OutboxInv(db.orders, db.outbox)
  }

  /** A freshly expanded inventory: every seat free, every other table empty. */
  ghost predicate Fresh(db: Db) {
    && (forall k :: k in db.seats ==>
        db.seats[k].status.Available? && db.seats[k].heldBy.None? && db.seats[k].expires.None?)
    && db.orders == map[] && db.items == map[] && db.keys == map[] && db.payments == [] && db.outbox == []
  }

  // ------------------------------------------------------------------ counting payments

  lemma {:induction false} CountBound(ps: seq<PaymentRow>, id: int, st: PayStatus)
    ensures Count(ps, id, st) == 0 <==> forall i :: 0 <= i < |ps| ==> !(ps[i].order == id && ps[i].status == st)
  {
    if ps != [] {
      CountBound(ps[..|ps| - 1], id, st);
      if forall i :: 0 <= i < |ps| ==> !(ps[i].order == id && ps[i].status == st) {
        assert forall i :: 0 <= i < |ps| - 1 ==> ps[..|ps| - 1][i] == ps[i];
      }
    }
  }

  lemma CountAppend(ps: seq<PaymentRow>, p: PaymentRow, id: int, st: PayStatus)
    ensures Count(ps + [p], id, st) == Count(ps, id, st) + if p.order == id && p.status == st then 1 else 0
  {
    assert (ps + [p])[..|ps + [p]| - 1] == ps;
  }

  /** Settling moves exactly the REQUESTED rows of one order to the new status. */
  lemma {:induction false} CountSettle(ps: seq<PaymentRow>, id: int, st: PayStatus, tid: Option<int>, other: int,
                                       q: PayStatus)
    requires !st.Requested?
    ensures |Settle(ps, id, st, tid)| == |ps|
    ensures forall i :: 0 <= i < |ps| ==>
              Settle(ps, id, st, tid)[i] ==
              if ps[i].order == id && ps[i].status.Requested?
              then ps[i].(status := st, tid := if tid.Some? then tid else ps[i].tid) else ps[i]
    ensures Count(Settle(ps, id, st, tid), other, q) ==
            if other != id then Count(ps, other, q)
            else if q.Requested? then 0
            else if q == st then Count(ps, other, q) + Count(ps, other, Requested)
            else Count(ps, other, q)
  {
    if ps != [] {
      var front := ps[..|ps| - 1];
      CountSettle(front, id, st, tid, other, q);
      var s := Settle(ps, id, st, tid);
      assert s[..|s| - 1] == Settle(front, id, st, tid);
    }
  }

  /** With at most one REQUESTED row the tid is written at most once, so UNIQUE holds. */
  lemma {:induction false} AtMostOneRequested(ps: seq<PaymentRow>, id: int, i: int, j: int)
    requires Count(ps, id, Requested) <= 1
    requires 0 <= i < j < |ps|
    ensures !(ps[i].order == id && ps[i].status.Requested? && ps[j].order == id && ps[j].status.Requested?)
  {
    var front := ps[..|ps| - 1];
    if j == |ps| - 1 {
      CountBound(front, id, Requested);
      assert front[i] == ps[i];
    } else {
      AtMostOneRequested(front, id, i, j);
    }
  }

  lemma SettleTids(ps: seq<PaymentRow>, id: int, st: PayStatus, tid: Option<int>)
    requires !st.Requested? && TidsUnique(ps)
    requires tid.Some? ==> TidFree(ps, tid.value) && Count(ps, id, Requested) <= 1
    ensures TidsUnique(Settle(ps, id, st, tid))
  {
    var s := Settle(ps, id, st, tid);
    CountSettle(ps, id, st, tid, id, st);
    forall i, j | 0 <= i < j < |s| && s[i].tid.Some?
      ensures s[i].tid != s[j].tid
    {
      if tid.Some? { AtMostOneRequested(ps, id, i, j); }
    }
  }

  // ------------------------------------------------------------------ preservation, by table

  lemma FreshInv(db: Db)
    requires Fresh(db)
    ensures DbInv(db)
  {}

  /** Same rows, same prices, same booked rows: what a write of hold columns may do. */
  ghost predicate SameStock(a: Seats, b: Seats) {
    && a.Keys == b.Keys
    && forall k :: k in a ==> a[k].price == b[k].price && (a[k].status.Booked? <==> b[k].status.Booked?)
  }

  lemma OrderOkFrame(a: Seats, b: Seats, items: Items, more: Items, id: int, o: OrderRow)
    requires OrderOk(a, items, id, o)
    requires a.Keys == b.Keys && forall k :: k in a ==> a[k].price == b[k].price
    requires forall k :: k in items ==> k in more && more[k] == items[k]
    ensures OrderOk(b, more, id, o)
  {
    SumPricesFrame(a, b, o.schedule, o.seatIds);
  }

  lemma StockInv(db: Db, seats: Seats)
    requires DbInv(db) && SameStock(db.seats, seats) && ShapeInv(seats)
    ensures DbInv(db.(seats := seats))
  {
    forall id | id in db.orders
      ensures OrderOk(seats, db.items, id, db.orders[id])
    {
      OrderOkFrame(db.seats, seats, db.items, db.items, id, db.orders[id]);
    }
  }

  lemma {:induction false} NoMessages(box: seq<OutboxRow>, id: int)
    requires forall i :: 0 <= i < |box| ==> box[i].order != id
    ensures PaidMessages(box, id) == 0
  {
    if box != [] { NoMessages(box[..|box| - 1], id); }
  }

  lemma MessagesAppend(box: seq<OutboxRow>, m: OutboxRow, id: int)
    ensures PaidMessages(box + [m], id) == PaidMessages(box, id) + if m.OrderPaid? && m.order == id then 1 else 0
  {
    assert (box + [m])[..|box + [m]| - 1] == box;
  }

  // ---- a new order

  lemma OpenedRows(orders: Orders, ps: seq<PaymentRow>, id: int, o: OrderRow)
    requires RowsInv(orders, ps) && id !in orders
    ensures RowsInv(orders[id := o], ps + [PaymentRow(id, Requested, o.total, None, None)])
    ensures forall i :: 0 <= i < |ps| ==> ps[i].order != id
  {
    forall i | 0 <= i < |ps|
      ensures PaymentOk(orders[id := o], ps[i]) && ps[i].order != id
    {
      assert PaymentOk(orders, ps[i]);
    }
  }

  lemma OpenedCounts(orders: Orders, ps: seq<PaymentRow>, id: int, o: OrderRow)
    requires CountInv(orders, ps) && id !in orders && !EverPaid(o) && o.status.Pending?
    requires forall i :: 0 <= i < |ps| ==> ps[i].order != id
    ensures CountInv(orders[id := o], ps + [PaymentRow(id, Requested, o.total, None, None)])
  {
    var row := PaymentRow(id, Requested, o.total, None, None);
    CountBound(ps, id, Requested);
    CountBound(ps, id, PayStatus.Approved);
    var orders' := orders[id := o];
    forall other | other in orders'
      ensures CountOk(ps + [row], other, orders'[other])
    {
      CountAppend(ps, row, other, Requested);
      CountAppend(ps, row, other, PayStatus.Approved);
      if other != id { assert CountOk(ps, other, orders[other]); }
    }
  }

  lemma OpenedOutbox(orders: Orders, box: seq<OutboxRow>, id: int, o: OrderRow)
    requires OutboxInv(orders, box) && id !in orders && !EverPaid(o)
    ensures OutboxInv(orders[id := o], box)
  {
    NoMessages(box, id);
  }

  lemma OpenedOrder(db: Db, id: int, o: OrderRow)
    requires DbInv(db) && id !in db.orders && o.key !in db.keys
    requires !EverPaid(o) && o.status.Pending?
    requires OrderOk(db.seats, db.items, id, o)
    ensures ItemInv(db.seats, db.items, db.orders[id := o])
    ensures BookedInv(db.seats, db.items, db.orders[id := o])
    ensures OrderInv(db.seats, db.items, db.orders[id := o])
    ensures KeyInv(db.orders[id := o], db.keys[o.key := id])
  {
    hide ShapeInv, RowsInv, CountInv, OutboxInv, SumPrices;
    var orders := db.orders[id := o];
    forall k | k in db.seats
      ensures db.seats[k].status.Booked? <==> SoldTo(db.items, orders, k)
    {
      assert db.seats[k].status.Booked? <==> SoldTo(db.items, db.orders, k);
    }
  }

  /** The seats of a new order exist, are distinct and add up: the guard counted them. */
  lemma LiveAll(db: Db, schedule: int, user: int, ids: seq<int>, t: int)
    requires |LiveSeats(db, schedule, user, ids, t)| == |ids|
    ensures Distinct(ids) && LiveSeats(db, schedule, user, ids, t) == Wanted(schedule, ids)
    ensures Wanted(schedule, ids) <= db.seats.Keys
  {
    WantedSize(schedule, ids);
    SubsetSize(LiveSeats(db, schedule, user, ids, t), Wanted(schedule, ids));
  }

  lemma OpenInv(db: Db, id: int, schedule: int, user: int, ids: seq<int>, key: string, minRemaining: int, now: int)
    requires DbInv(db)
    ensures DbInv(OpenTx(db, id, schedule, user, ids, key, minRemaining, now).0)
  {
    var (d, out) := OpenTx(db, id, schedule, user, ids, key, minRemaining, now);
    if out.Opened? {
      LiveAll(db, schedule, user, ids, now + minRemaining);
      OpenedOrder(db, id, d.orders[id]);
      OpenedRows(db.orders, db.payments, id, d.orders[id]);
      OpenedCounts(db.orders, db.payments, id, d.orders[id]);
      OpenedOutbox(db.orders, db.outbox, id, d.orders[id]);
    }
  }

  // ---- confirmation

  /** Facts about a confirmable order: its seats are held, unsold, and it owns no item yet. */
  lemma ConfirmableFacts(db: Db, order: int, now: int)
    requires DbInv(db) && Confirmable(db, order, now)
    ensures var o := db.orders[order];
            && OrderOk(db.seats, db.items, order, o)
            && (forall k :: k in OrderKeys(o) ==>
                  k in db.seats && k !in db.items && LiveHold(db.seats[k], o.user, now))
            && (forall k :: k in db.items ==> db.items[k].order != order)
            && !EverPaid(o)
  {
    assert OrderOk(db.seats, db.items, order, db.orders[order]);
  }

  function NewItems(db: Db, order: int): Items
    requires order in db.orders
  {
    map k | k in OrderKeys(db.orders[order]) && k in db.seats :: ItemRow(order, db.seats[k].price)
  }

  function PaidRow(db: Db, order: int): OrderRow
    requires order in db.orders
  {
    db.orders[order].(status := Paid, snapshot := Some(Snapshot(order, OrderKeys(db.orders[order]))))
  }

  lemma ConfirmedItems(db: Db, order: int, now: int, seats: Seats, items: Items, orders: Orders)
    requires DbInv(db) && Confirmable(db, order, now)
    requires seats == Put(db.seats, OrderKeys(db.orders[order]), Booked)
    requires items == db.items + NewItems(db, order)
    requires orders == db.orders[order := PaidRow(db, order)]
    ensures ItemInv(seats, items, orders)
  {
    hide ShapeInv, BookedInv, OrderInv, KeyInv, RowsInv, CountInv, OutboxInv;
    ConfirmableFacts(db, order, now);
    var ks := OrderKeys(db.orders[order]);
    assert OrderKeys(orders[order]) == ks;
    forall k | k in items
      ensures k in seats && items[k].price == seats[k].price
      ensures items[k].order in orders && EverPaid(orders[items[k].order]) && k in OrderKeys(orders[items[k].order])
    {
      if k in ks {
        assert items[k] == ItemRow(order, db.seats[k].price);
      } else {
        assert items[k] == db.items[k];
      }
    }
  }

  lemma ConfirmedSeats(db: Db, order: int, seats: Seats, items: Items, orders: Orders)
    requires ShapeInv(db.seats) && BookedInv(db.seats, db.items, db.orders)
    requires order in db.orders && orders == db.orders[order := PaidRow(db, order)]
    requires seats == Put(db.seats, OrderKeys(db.orders[order]), Booked)
    requires HasItems(items, order, OrderKeys(db.orders[order]))
    requires forall k :: k !in OrderKeys(db.orders[order]) ==>
               && (k in items <==> k in db.items)
               && (k in items ==> items[k] == db.items[k] && items[k].order != order)
    ensures ShapeInv(seats) && BookedInv(seats, items, orders)
  {
    var ks := OrderKeys(db.orders[order]);
    forall k | k in seats
      ensures seats[k].status.Booked? <==> SoldTo(items, orders, k)
    {
      if k !in ks { assert db.seats[k].status.Booked? <==> SoldTo(db.items, db.orders, k); }
    }
  }

  lemma ConfirmedOrders(db: Db, order: int, now: int, seats: Seats, items: Items, orders: Orders)
    requires DbInv(db) && Confirmable(db, order, now)
    requires seats == Put(db.seats, OrderKeys(db.orders[order]), Booked)
    requires items == db.items + NewItems(db, order)
    requires orders == db.orders[order := PaidRow(db, order)]
    ensures OrderInv(seats, items, orders) && KeyInv(orders, db.keys)
  {
    hide ShapeInv, ItemInv, BookedInv, RowsInv, CountInv, OutboxInv, SumPrices;
    ConfirmableFacts(db, order, now);
    forall id | id in orders
      ensures OrderOk(seats, items, id, orders[id])
    {
      OrderOkFrame(db.seats, seats, db.items, items, id, db.orders[id]);
      if id == order {
        assert OrderKeys(orders[id]) == OrderKeys(db.orders[id]);
        assert HasItems(items, id, OrderKeys(orders[id]));
      }
    }
  }

  /** The payments after confirmation: the open attempt promoted, or a new approval. */
  function Approving(ps: seq<PaymentRow>, order: int, total: nat, tid: int): seq<PaymentRow> {
    if Count(ps, order, Requested) > 0 then Settle(ps, order, PayStatus.Approved, Some(tid))
    else ps + [PaymentRow(order, PayStatus.Approved, total, Some(tid), None)]
  }

  lemma ApprovingCount(ps: seq<PaymentRow>, order: int, total: nat, tid: int, id: int)
    requires Count(ps, order, Requested) <= 1
    ensures Count(Approving(ps, order, total, tid), id, Requested)
            == if id == order then 0 else Count(ps, id, Requested)
    ensures Count(Approving(ps, order, total, tid), id, PayStatus.Approved)
            == Count(ps, id, PayStatus.Approved) + if id == order then 1 else 0
  {
    if Count(ps, order, Requested) > 0 {
      CountSettle(ps, order, PayStatus.Approved, Some(tid), id, Requested);
      CountSettle(ps, order, PayStatus.Approved, Some(tid), id, PayStatus.Approved);
    } else {
      CountAppend(ps, PaymentRow(order, PayStatus.Approved, total, Some(tid), None), id, Requested);
      CountAppend(ps, PaymentRow(order, PayStatus.Approved, total, Some(tid), None), id, PayStatus.Approved);
    }
  }

  lemma ApprovingRows(orders: Orders, ps: seq<PaymentRow>, order: int, tid: int)
    requires RowsInv(orders, ps) && order in orders && TidFree(ps, tid)
    requires Count(ps, order, Requested) <= 1
    ensures RowsInv(orders, Approving(ps, order, orders[order].total, tid))
  {
    if Count(ps, order, Requested) > 0 {
      SettleTids(ps, order, PayStatus.Approved, Some(tid));
      CountSettle(ps, order, PayStatus.Approved, Some(tid), order, Requested);
      forall i | 0 <= i < |ps|
        ensures PaymentOk(orders, Approving(ps, order, orders[order].total, tid)[i])
      {
        assert PaymentOk(orders, ps[i]);
      }
    }
  }

  lemma RowsFrame(a: Orders, b: Orders, ps: seq<PaymentRow>)
    requires RowsInv(a, ps) && a.Keys == b.Keys && forall id :: id in a ==> a[id].total == b[id].total
    ensures RowsInv(b, ps)
  {
    forall i | 0 <= i < |ps|
      ensures PaymentOk(b, ps[i])
    {
      assert PaymentOk(a, ps[i]);
    }
  }

  lemma ConfirmedPayments(db: Db, order: int, now: int, tid: int)
    requires DbInv(db) && Confirmable(db, order, now) && TidFree(db.payments, tid)
    ensures var orders := db.orders[order := PaidRow(db, order)];
            var ps := Approving(db.payments, order, db.orders[order].total, tid);
            && RowsInv(orders, ps) && CountInv(orders, ps)
            && OutboxInv(orders, db.outbox + [OrderPaid(order, db.orders[order].seatIds)])
  {
    var orders := db.orders[order := PaidRow(db, order)];
    var total := db.orders[order].total;
    ConfirmableFacts(db, order, now);
    assert CountOk(db.payments, order, db.orders[order]);
    ApprovingRows(db.orders, db.payments, order, tid);
    RowsFrame(db.orders, orders, Approving(db.payments, order, total, tid));
    forall id | id in orders
      ensures CountOk(Approving(db.payments, order, total, tid), id, orders[id])
    {
      assert CountOk(db.payments, id, db.orders[id]);
      ApprovingCount(db.payments, order, total, tid, id);
    }
    ConfirmedOutbox(db.orders, db.outbox, order, PaidRow(db, order));
  }

  lemma ConfirmedOutbox(orders: Orders, box: seq<OutboxRow>, order: int, paid: OrderRow)
    requires OutboxInv(orders, box) && order in orders && !EverPaid(orders[order]) && EverPaid(paid)
    ensures OutboxInv(orders[order := paid], box + [OrderPaid(order, paid.seatIds)])
  {
    forall id | id in orders
      ensures PaidMessages(box + [OrderPaid(order, paid.seatIds)], id)
              == if EverPaid(orders[order := paid][id]) then 1 else 0
    {
      MessagesAppend(box, OrderPaid(order, paid.seatIds), id);
    }
  }

  lemma ConfirmInv(db: Db, order: int, tid: int, now: int)
    requires DbInv(db)
    ensures DbInv(ConfirmTx(db, order, tid, now).0)
  {
    var (d, out) := ConfirmTx(db, order, tid, now);
    if out.Confirmed? {
      ConfirmedItems(db, order, now, d.seats, d.items, d.orders);
      ConfirmableFacts(db, order, now);
      ConfirmedSeats(db, order, d.seats, d.items, d.orders);
      ConfirmedOrders(db, order, now, d.seats, d.items, d.orders);
      ConfirmedPayments(db, order, now, tid);
    }
  }

  // ---- closing, refunding, cancelling

  /** One order changes its status among those it may have; nothing else about orders changes. */
  ghost predicate StatusMove(db: Db, order: int, st: OrderStatus) {
    order in db.orders
    && ((db.orders[order].status.Pending? && (st.Failed? || st.Canceled?)) || st == db.orders[order].status)
  }

  function WithStatus(db: Db, order: int, st: OrderStatus): Orders
    requires order in db.orders
  {
    db.orders[order := db.orders[order].(status := st)]
  }

  lemma StatusSeats(db: Db, order: int, st: OrderStatus, seats: Seats)
    requires DbInv(db) && StatusMove(db, order, st)
    requires SameStock(db.seats, seats)
    ensures ItemInv(seats, db.items, WithStatus(db, order, st))
    ensures BookedInv(seats, db.items, WithStatus(db, order, st))
  {
    hide KeyInv, RowsInv, CountInv, OutboxInv, ShapeInv, SumPrices;
    var orders := WithStatus(db, order, st);
    assert OrderOk(db.seats, db.items, order, db.orders[order]);
    forall k | k in seats
      ensures seats[k].status.Booked? <==> SoldTo(db.items, orders, k)
    {
      assert db.seats[k].status.Booked? <==> SoldTo(db.items, db.orders, k);
    }
    assert OrderKeys(orders[order]) == OrderKeys(db.orders[order]);
  }

  lemma StatusOrders(db: Db, order: int, st: OrderStatus, seats: Seats)
    requires DbInv(db) && (StatusMove(db, order, st)
                           || (order in db.orders && db.orders[order].status.Paid? && st.Canceled?))
    requires db.seats.Keys == seats.Keys && forall k :: k in seats ==> seats[k].price == db.seats[k].price
    ensures OrderInv(seats, db.items, WithStatus(db, order, st)) && KeyInv(WithStatus(db, order, st), db.keys)
  {
    var orders := WithStatus(db, order, st);
    forall id | id in orders
      ensures OrderOk(seats, db.items, id, orders[id])
    {
      OrderOkFrame(db.seats, seats, db.items, db.items, id, db.orders[id]);
      assert OrderKeys(orders[id]) == OrderKeys(db.orders[id]);
    }
  }

  lemma StatusRows(db: Db, order: int, st: OrderStatus, ps: seq<PaymentRow>)
    requires DbInv(db) && StatusMove(db, order, st)
    requires RowsInv(db.orders, ps)
    requires forall id :: id in db.orders ==>
             Count(ps, id, PayStatus.Approved) == Count(db.payments, id, PayStatus.Approved)
    requires forall id :: id in db.orders ==>
             Count(ps, id, Requested) == if id == order then 0 else Count(db.payments, id, Requested)
    ensures var orders := WithStatus(db, order, st);
            && RowsInv(orders, ps) && CountInv(orders, ps) && OutboxInv(orders, db.outbox)
  {
    var orders := WithStatus(db, order, st);
    RowsFrame(db.orders, orders, ps);
    forall id | id in orders
      ensures CountOk(ps, id, orders[id])
    {
      assert CountOk(db.payments, id, db.orders[id]);
    }
  }

  /** Closing the open attempts of one order. */
  lemma SettledRows(orders: Orders, ps: seq<PaymentRow>, order: int)
    requires RowsInv(orders, ps)
    ensures RowsInv(orders, Settle(ps, order, PayStatus.Failed, None))
  {
    SettleTids(ps, order, PayStatus.Failed, None);
    CountSettle(ps, order, PayStatus.Failed, None, order, Requested);
    forall i | 0 <= i < |ps|
      ensures PaymentOk(orders, Settle(ps, order, PayStatus.Failed, None)[i])
    {
      assert PaymentOk(orders, ps[i]);
    }
  }

  lemma SettledCounts(ps: seq<PaymentRow>, order: int, id: int)
    ensures Count(Settle(ps, order, PayStatus.Failed, None), id, PayStatus.Approved)
            == Count(ps, id, PayStatus.Approved)
    ensures Count(Settle(ps, order, PayStatus.Failed, None), id, Requested)
            == if id == order then 0 else Count(ps, id, Requested)
  {
    CountSettle(ps, order, PayStatus.Failed, None, id, PayStatus.Approved);
    CountSettle(ps, order, PayStatus.Failed, None, id, Requested);
  }

  lemma CloseInv(db: Db, order: int, status: OrderStatus)
    requires DbInv(db) && (status.Failed? || status.Canceled?)
    ensures DbInv(CloseTx(db, order, status).0)
  {
    var (d, out) := CloseTx(db, order, status);
    if out.Closed? {
      var o := db.orders[order];
      FreeStock(db.seats, HeldSeats(db, o.schedule, o.user, o.seatIds));
      StatusSeats(db, order, status, d.seats);
      StatusOrders(db, order, status, d.seats);
      SettledRows(db.orders, db.payments, order);
      forall id | id in db.orders { SettledCounts(db.payments, order, id); }
      StatusRows(db, order, status, d.payments);
    }
  }

  /** A REFUNDED or FAILED row with a new number adds to no count of the invariant. */
  lemma NotedRows(orders: Orders, ps: seq<PaymentRow>, row: PaymentRow)
    requires RowsInv(orders, ps) && row.order in orders && (row.status.Refunded? || row.status.Failed?)
    requires row.tid.Some? ==> TidFree(ps, row.tid.value)
    ensures RowsInv(orders, ps + [row])
    ensures forall id :: Count(ps + [row], id, PayStatus.Approved) == Count(ps, id, PayStatus.Approved)
    ensures forall id :: Count(ps + [row], id, Requested) == Count(ps, id, Requested)
  {
    forall id
      ensures Count(ps + [row], id, PayStatus.Approved) == Count(ps, id, PayStatus.Approved)
      ensures Count(ps + [row], id, Requested) == Count(ps, id, Requested)
    {
      CountAppend(ps, row, id, PayStatus.Approved);
      CountAppend(ps, row, id, Requested);
    }
  }

  lemma RefundInv(db: Db, order: int, amount: nat, approved: bool, tid: Option<int>)
    requires DbInv(db)
    ensures DbInv(RefundTx(db, order, amount, approved, tid).0)
  {
    hide ShapeInv, ItemInv, BookedInv, OrderInv, KeyInv, RowsInv, CountInv, OutboxInv, Settle, Count;
    var (d, out) := RefundTx(db, order, amount, approved, tid);
    if out.Recorded? {
      var row := PaymentRow(order, if approved then Refunded else PayStatus.Failed, amount, tid, None);
      var st := d.orders[order].status;
      assert d.orders == WithStatus(db, order, st);
      var o := db.orders[order];
      FreeStock(db.seats, HeldSeats(db, o.schedule, o.user, o.seatIds));
      StatusSeats(db, order, st, d.seats);
      StatusOrders(db, order, st, d.seats);
      NotedRows(db.orders, db.payments, row);
      SettledRows(db.orders, db.payments + [row], order);
      forall id | id in db.orders { SettledCounts(db.payments + [row], order, id); }
      StatusRows(db, order, st, d.payments);
    }
  }

  lemma CanceledSeats(db: Db, order: int, seats: Seats)
    requires DbInv(db) && order in db.orders && db.orders[order].status.Paid?
    requires seats == Put(db.seats, BookedItems(db, order), Available)
    ensures ShapeInv(seats) && BookedInv(seats, db.items, WithStatus(db, order, Canceled))
  {
    forall k | k in seats
      ensures seats[k].status.Booked? <==> SoldTo(db.items, WithStatus(db, order, Canceled), k)
    {
      assert db.seats[k].status.Booked? <==> SoldTo(db.items, db.orders, k);
    }
  }

  lemma CanceledItems(db: Db, order: int, seats: Seats)
    requires DbInv(db) && order in db.orders
    requires db.seats.Keys == seats.Keys && forall k :: k in seats ==> seats[k].price == db.seats[k].price
    ensures ItemInv(seats, db.items, WithStatus(db, order, Canceled))
  {
    assert OrderKeys(WithStatus(db, order, Canceled)[order]) == OrderKeys(db.orders[order]);
  }

  lemma CanceledRows(db: Db, order: int, row: PaymentRow, m: OutboxRow)
    requires DbInv(db) && order in db.orders && db.orders[order].status.Paid?
    requires row.order == order && (row.status.Refunded? || row.status.Failed?)
    requires row.tid.Some? ==> TidFree(db.payments, row.tid.value)
    requires m.OrderCanceled? && m.order == order
    ensures var orders := WithStatus(db, order, Canceled);
            && RowsInv(orders, db.payments + [row]) && CountInv(orders, db.payments + [row])
            && OutboxInv(orders, db.outbox + [m])
  {
    hide ShapeInv, ItemInv, BookedInv, OrderInv, KeyInv, Count, PaidMessages;
    var orders := WithStatus(db, order, Canceled);
    NotedRows(db.orders, db.payments, row);
    RowsFrame(db.orders, orders, db.payments + [row]);
    forall id | id in orders
      ensures CountOk(db.payments + [row], id, orders[id])
      ensures PaidMessages(db.outbox + [m], id) == if EverPaid(orders[id]) then 1 else 0
    {
      assert CountOk(db.payments, id, db.orders[id]);
      MessagesAppend(db.outbox, m, id);
    }
  }

  lemma CancelInv(db: Db, order: int, fee: FeeSnapshot, tid: Option<int>)
    requires DbInv(db)
    ensures DbInv(CancelTx(db, order, fee, tid).0)
  {
    hide ShapeInv, ItemInv, BookedInv, OrderInv, KeyInv, RowsInv, CountInv, OutboxInv;
    var (d, out) := CancelTx(db, order, fee, tid);
    if out.Closed? {
      CanceledSeats(db, order, d.seats);
      CanceledItems(db, order, d.seats);
      StatusOrders(db, order, Canceled, d.seats);
      CanceledRows(db, order, d.payments[|d.payments| - 1], d.outbox[|d.outbox| - 1]);
    }
  }

  lemma RefusalInv(db: Db, order: int, fee: FeeSnapshot)
    requires DbInv(db)
    ensures DbInv(CancelRefusedTx(db, order, fee).0)
  {
    if order in db.orders {
      var row := PaymentRow(order, PayStatus.Failed, fee.refund, None, Some(fee));
      NotedRows(db.orders, db.payments, row);
      forall id | id in db.orders
        ensures CountOk(db.payments + [row], id, db.orders[id])
      {
        assert CountOk(db.payments, id, db.orders[id]);
      }
    }
  }

  // ------------------------------------------------------------------ preservation, by transaction

  /** Holding, releasing and sweeping write hold columns of rows that are not booked. */
  lemma HoldStock(seats: Seats, ks: set<SeatKey>, user: int, expires: int)
    requires ShapeInv(seats) && forall k :: k in ks && k in seats ==> !seats[k].status.Booked?
    ensures SameStock(seats, Hold(seats, ks, user, expires)) && ShapeInv(Hold(seats, ks, user, expires))
  {}

  lemma FreeStock(seats: Seats, ks: set<SeatKey>)
    requires ShapeInv(seats) && forall k :: k in ks && k in seats ==> !seats[k].status.Booked?
    ensures SameStock(seats, Put(seats, ks, Available)) && ShapeInv(Put(seats, ks, Available))
  {}

  lemma AcquireInv(db: Db, schedule: int, user: int, ids: seq<int>, max: int, ttl: int, now: int)
    requires DbInv(db)
    ensures DbInv(AcquireTx(db, schedule, user, ids, max, ttl, now).0)
  {
    HoldStock(db.seats, Target(db, schedule, ids, now), user, now + ttl);
    StockInv(db, Hold(db.seats, Target(db, schedule, ids, now), user, now + ttl));
  }

  lemma FreeInv(db: Db, ks: set<SeatKey>)
    requires DbInv(db) && forall k :: k in ks && k in db.seats ==> !db.seats[k].status.Booked?
    ensures DbInv(db.(seats := Put(db.seats, ks, Available)))
  {
    FreeStock(db.seats, ks);
    StockInv(db, Put(db.seats, ks, Available));
  }

  /** Every transaction, with whatever arguments, keeps the invariant. */
  lemma ApplyInv(db: Db, op: Op, now: int)
    requires DbInv(db)
    ensures DbInv(Apply(db, op, now).0)
  {
    match op
    case Acquire(schedule, user, ids, max, ttl) => AcquireInv(db, schedule, user, ids, max, ttl, now);
    case Release(schedule, user, ids) => FreeInv(db, HeldSeats(db, schedule, user, ids));
    case Sweep(chosen) => FreeInv(db, chosen * Expired(db, now));
    case Open(id, schedule, user, ids, key, minRemaining) =>
      OpenInv(db, id, schedule, user, ids, key, minRemaining, now);
    case Confirm(order, tid) => ConfirmInv(db, order, tid, now);
    case CloseUnpaid(order, ask) => CloseInv(db, order, ClosingStatus(ask));
    case RecordRefund(order, amount, approved, rtid) => RefundInv(db, order, amount, approved, rtid);
    case RecordCancel(order, fee, rtid) => CancelInv(db, order, fee, rtid);
    case RecordRefusal(order, fee) => RefusalInv(db, order, fee);
  }

  lemma {:induction false} RunInv(db: Db, ops: seq<Timed>)
    requires DbInv(db)
    ensures DbInv(Run(db, ops))
    decreases |ops|
  {
    if ops != [] {
      ApplyInv(db, ops[0].op, ops[0].now);
      RunInv(Apply(db, ops[0].op, ops[0].now).0, ops[1..]);
    }
  }
}

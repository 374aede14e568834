/** The tables of app/infra/db/models.py as values.

    A row of `schedule_seats` is named by (schedule, seat): the UNIQUE constraint
    uq_schedule_seat makes that pair and the row id interchangeable. UNIQUE columns that
    the code relies on are kept as indexes, so the constraint is part of the shape:
    `items` is keyed by the seat row and `keys` is the index of orders.idempotency_key. */
module Tables {
  import opened Domain

  datatype SeatKey = SeatKey(schedule: int, seat: int)

  /** `heldBy` and `expires` are nullable columns; nothing but the CHECK constraint ties them to the status. */
  datatype SeatRow = SeatRow(status: SeatStatus, heldBy: Option<int>, expires: Option<int>, price: nat)

  datatype Snapshot = Snapshot(order: int, seats: set<SeatKey>)

  datatype OrderRow = OrderRow(user: int, schedule: int, status: OrderStatus, seatIds: seq<int>, total: nat,
                               key: string, snapshot: Option<Snapshot>, createdAt: int)

  datatype ItemRow = ItemRow(order: int, price: nat)

  datatype FeeSnapshot = FeeSnapshot(fee: nat, refund: nat)

  datatype PaymentRow = PaymentRow(order: int, status: PayStatus, amount: nat, tid: Option<int>,
                                   fee: Option<FeeSnapshot>)

  datatype OutboxRow = OrderPaid(order: int, seats: seq<int>) | OrderCanceled(order: int, fee: nat, refund: nat)

  datatype Db = Db(seats: map<SeatKey, SeatRow>, orders: map<int, OrderRow>, items: map<SeatKey, ItemRow>,
                   keys: map<string, int>, payments: seq<PaymentRow>, outbox: seq<OutboxRow>)

  // ------------------------------------------------------------------ constraints

  /** CHECK ck_schedule_seats_hold_shape. */
  predicate HoldShape(r: SeatRow) {
    r.status.Held? == r.heldBy.Some? == r.expires.Some?
  }

  /** UNIQUE payments.pg_tid: no row carries this number yet. */
  predicate TidFree(ps: seq<PaymentRow>, tid: int) {
    forall i :: 0 <= i < |ps| ==> ps[i].tid != Some(tid)
  }

  // ------------------------------------------------------------------ row predicates

  /** The claimable rows: free, or held past the deadline. A NULL comparison is not true. */
  predicate Claimable(r: SeatRow, now: int) {
    r.status.Available? || (r.status.Held? && r.expires.Some? && r.expires.value < now)
  }

  /** A hold of `user` that outlasts the instant `t`. */
  predicate LiveHold(r: SeatRow, user: int, t: int) {
    r.status.Held? && r.heldBy == Some(user) && r.expires.Some? && r.expires.value > t
  }

  predicate HeldBy(r: SeatRow, user: int) {
    r.status.Held? && r.heldBy == Some(user)
  }

  // ------------------------------------------------------------------ sets of keys

  predicate Distinct(ids: seq<int>) {
    forall i, j :: 0 <= i < j < |ids| ==> ids[i] != ids[j]
  }

  /** `schedule_id = :s AND seat_id = ANY(:ids)`. */
  function Wanted(schedule: int, ids: seq<int>): set<SeatKey> {
    set s | s in ids :: SeatKey(schedule, s)
  }

  /** What the order is for. */
  function OrderKeys(o: OrderRow): set<SeatKey> {
    Wanted(o.schedule, o.seatIds)
  }

  /** Sum of the prices of the named seats; 0 for a seat that is not there. */
  function SumPrices(seats: map<SeatKey, SeatRow>, schedule: int, ids: seq<int>): nat {
    if ids == [] then 0
    else
      var k := SeatKey(schedule, ids[0]);
      (if k in seats then seats[k].price else 0) + SumPrices(seats, schedule, ids[1..])
  }

  /** Number of payment rows of an order in a status. */
  function Count(ps: seq<PaymentRow>, order: int, st: PayStatus): nat {
    if ps == [] then 0
    else
      var p := ps[|ps| - 1];
      Count(ps[..|ps| - 1], order, st) + if p.order == order && p.status == st then 1 else 0
  }

  /** Number of order.paid messages of an order. */
  function PaidMessages(box: seq<OutboxRow>, order: int): nat {
    if box == [] then 0
    else
      var m := box[|box| - 1];
      PaidMessages(box[..|box| - 1], order) + if m.OrderPaid? && m.order == order then 1 else 0
  }

  /** The seats a user owns in a schedule at the instant `t`: live holds, and booked seats whose
      order item belongs to a paid order of the user. This is what the quota counts. */
  function Owned(db: Db, schedule: int, user: int, t: int): set<SeatKey> {
    set k | k in db.seats && k.schedule == schedule
            && (LiveHold(db.seats[k], user, t) || (db.seats[k].status.Booked? && BoughtBy(db, k, user)))
  }

  predicate BoughtBy(db: Db, k: SeatKey, user: int) {
    k in db.items && db.items[k].order in db.orders
    && db.orders[db.items[k].order].status.Paid? && db.orders[db.items[k].order].user == user
  }

  // ------------------------------------------------------------------ small facts

  /** Naming distinct seats names as many rows as there are ids. */
  lemma {:induction false} WantedSize(schedule: int, ids: seq<int>)
    ensures |Wanted(schedule, ids)| <= |ids|
    ensures Distinct(ids) <==> |Wanted(schedule, ids)| == |ids|
  {
    if ids == [] {
      assert Wanted(schedule, ids) == {};
    } else {
      var last := ids[|ids| - 1];
      var front := ids[..|ids| - 1];
      WantedSize(schedule, front);
      assert ids == front + [last];
      assert Wanted(schedule, ids) == Wanted(schedule, front) + {SeatKey(schedule, last)};
      if last in front {
        assert SeatKey(schedule, last) in Wanted(schedule, front);
        assert Wanted(schedule, ids) == Wanted(schedule, front);
        var i :| 0 <= i < |front| && front[i] == last;
        assert ids[i] == ids[|ids| - 1];
      } else {
        assert SeatKey(schedule, last) !in Wanted(schedule, front);
        if Distinct(front) {
          forall i, j | 0 <= i < j < |ids|
            ensures ids[i] != ids[j]
          {
            if j < |front| { assert front[i] != front[j]; } else { assert front[i] in front; }
          }
        } else {
          var i, j :| 0 <= i < j < |front| && front[i] == front[j];
          assert ids[i] == ids[j];
        }
      }
    }
  }

  /** set(ids). */
  function Members(ids: seq<int>): set<int> {
    set x | x in ids
  }

  /** len(set(ids)) == len(ids) says there is no duplicate. */
  lemma {:induction false} MembersSize(ids: seq<int>)
    ensures |Members(ids)| <= |ids|
    ensures Distinct(ids) <==> |Members(ids)| == |ids|
  {
    if ids == [] {
      assert Members(ids) == {};
    } else {
      var front, last := ids[..|ids| - 1], ids[|ids| - 1];
      MembersSize(front);
      assert ids == front + [last];
      assert Members(ids) == Members(front) + {last};
      if last in front {
        var i :| 0 <= i < |front| && front[i] == last;
        assert ids[i] == ids[|ids| - 1];
        assert Members(ids) == Members(front);
      } else if Distinct(front) {
        forall i, j | 0 <= i < j < |ids|
          ensures ids[i] != ids[j]
        {
          if j < |front| { assert front[i] != front[j]; } else { assert front[i] in front; }
        }
      } else {
        var i, j :| 0 <= i < j < |front| && front[i] == front[j];
        assert ids[i] == ids[j];
      }
    }
  }

  lemma {:induction false} SubsetSize<T>(a: set<T>, b: set<T>)
    requires a <= b
    ensures |a| <= |b|
    ensures |a| == |b| ==> a == b
  {
    if a != {} {
      var x :| x in a;
      SubsetSize(a - {x}, b - {x});
    } else if b != {} {
      assert |b| > 0;
    }
  }

  /** Prices depend on nothing but the price column of the named rows. */
  lemma {:induction false} SumPricesFrame(a: map<SeatKey, SeatRow>, b: map<SeatKey, SeatRow>, schedule: int,
                                          ids: seq<int>)
    requires a.Keys == b.Keys && forall k :: k in a ==> a[k].price == b[k].price
    ensures SumPrices(a, schedule, ids) == SumPrices(b, schedule, ids)
  {
    if ids != [] { SumPricesFrame(a, b, schedule, ids[1..]); }
  }

  // ------------------------------------------------------------------ seat order

  predicate Least(x: int, xs: set<int>) {
    x in xs && forall s :: s in xs ==> x <= s
  }

  lemma {:induction false} LeastExists(xs: set<int>)
    requires xs != {}
    ensures exists s :: Least(s, xs)
  {
    if forall x :: x !in xs { assert false; }
    var x :| x in xs;
    var rest := xs - {x};
    if rest == {} {
      assert xs == {x};
      assert Least(x, xs);
    } else {
      LeastExists(rest);
      var m :| Least(m, rest);
      var best := if x <= m then x else m;
      assert forall s :: s in xs ==> s == x || s in rest;
      assert Least(best, xs);
    }
  }

  /** sorted(set(...)). */
  function Sorted(xs: set<int>): (ids: seq<int>)
    ensures forall x :: x in ids <==> x in xs
    ensures forall i, j :: 0 <= i < j < |ids| ==> ids[i] < ids[j]
  {
    if xs == {} then []
    else
      LeastExists(xs);
      var x :| Least(x, xs);
      [x] + Sorted(xs - {x})
  }
}

/** An expired hold needs no sweeper. Two databases that differ only in which expired holds
    have been swept answer every later transaction alike, at every later time. */
module LazyExpiry {
  import opened Domain
  import opened Tables
  import opened Transactions
  import opened Invariants

  // ------------------------------------------------------------------ the view of a buyer

  /** A hold past its deadline reads as a free seat. */
  function Unexpired(r: SeatRow, now: int): SeatRow {
    if r.status.Held? && Claimable(r, now) then r.(status := Available, heldBy := None, expires := None) else r
  }

  function View(seats: Seats, now: int): Seats {
    map k | k in seats :: Unexpired(seats[k], now)
  }

  /** Equal but for expired holds. */
  ghost predicate SameView(a: Db, b: Db, now: int) {
    && View(a.seats, now) == View(b.seats, now)
    && a.orders == b.orders && a.items == b.items && a.keys == b.keys
    && a.payments == b.payments && a.outbox == b.outbox
  }

  /** The same, row by row. */
  lemma RowsAlike(a: Seats, b: Seats, now: int)
    ensures View(a, now) == View(b, now) <==>
            (a.Keys == b.Keys && forall k :: k in a && k in b ==> Unexpired(a[k], now) == Unexpired(b[k], now))
  {
    if View(a, now) == View(b, now) {
      assert View(a, now).Keys == a.Keys && View(b, now).Keys == b.Keys;
      forall k | k in a && k in b
        ensures Unexpired(a[k], now) == Unexpired(b[k], now)
      {
        assert View(a, now)[k] == View(b, now)[k];
      }
    }
  }

  /** Time only expires more holds, so equal views stay equal. */
  lemma ViewAtLaterTime(a: Db, b: Db, now: int, later: int)
    requires SameView(a, b, now) && now <= later
    ensures SameView(a, b, later)
  {
    RowsAlike(a.seats, b.seats, now);
    forall k | k in a.seats && k in b.seats
      ensures Unexpired(a.seats[k], later) == Unexpired(b.seats[k], later)
    {
      assert Unexpired(Unexpired(a.seats[k], now), later) == Unexpired(a.seats[k], later);
      assert Unexpired(Unexpired(b.seats[k], now), later) == Unexpired(b.seats[k], later);
    }
    RowsAlike(a.seats, b.seats, later);
  }

  // ------------------------------------------------------------------ what a statement reads

  lemma TargetsAlike(a: Db, b: Db, schedule: int, ids: seq<int>, now: int)
    requires SameView(a, b, now)
    ensures Target(a, schedule, ids, now) == Target(b, schedule, ids, now)
    ensures Unavailable(a, schedule, ids, now) == Unavailable(b, schedule, ids, now)
  {
    RowsAlike(a.seats, b.seats, now);
    forall k | k in a.seats
      ensures Claimable(a.seats[k], now) == Claimable(b.seats[k], now)
    {
      assert Claimable(a.seats[k], now) == Unexpired(a.seats[k], now).status.Available?;
      assert Claimable(b.seats[k], now) == Unexpired(b.seats[k], now).status.Available?;
    }
  }

  lemma HoldsAlike(a: Db, b: Db, k: SeatKey, user: int, now: int, t: int)
    requires SameView(a, b, now) && k in a.seats && now <= t
    ensures k in b.seats && LiveHold(a.seats[k], user, t) == LiveHold(b.seats[k], user, t)
  {
    RowsAlike(a.seats, b.seats, now);
    assert LiveHold(a.seats[k], user, t) == LiveHold(Unexpired(a.seats[k], now), user, t);
    assert LiveHold(b.seats[k], user, t) == LiveHold(Unexpired(b.seats[k], now), user, t);
  }

  lemma LiveSeatsAlike(a: Db, b: Db, schedule: int, user: int, ids: seq<int>, now: int, t: int)
    requires SameView(a, b, now) && now <= t
    ensures LiveSeats(a, schedule, user, ids, t) == LiveSeats(b, schedule, user, ids, t)
  {
    RowsAlike(a.seats, b.seats, now);
    forall k | k in a.seats { HoldsAlike(a, b, k, user, now, t); }
  }

  lemma OwnedAlike(a: Db, b: Db, schedule: int, user: int, now: int)
    requires SameView(a, b, now)
    ensures Owned(a, schedule, user, now) == Owned(b, schedule, user, now)
  {
    RowsAlike(a.seats, b.seats, now);
    forall k | k in a.seats
      ensures (LiveHold(a.seats[k], user, now) || (a.seats[k].status.Booked? && BoughtBy(a, k, user)))
              == (LiveHold(b.seats[k], user, now) || (b.seats[k].status.Booked? && BoughtBy(b, k, user)))
    {
      HoldsAlike(a, b, k, user, now, now);
      assert a.seats[k].status.Booked? == Unexpired(a.seats[k], now).status.Booked?;
      assert b.seats[k].status.Booked? == Unexpired(b.seats[k], now).status.Booked?;
    }
  }

  // ------------------------------------------------------------------ what a statement writes

  /** Writing the same rows on both sides, or freeing rows the user holds, keeps the views equal. */
  lemma HoldAlike(a: Seats, b: Seats, ks: set<SeatKey>, user: int, expires: int, now: int)
    requires View(a, now) == View(b, now)
    ensures View(Hold(a, ks, user, expires), now) == View(Hold(b, ks, user, expires), now)
  {
    RowsAlike(a, b, now);
    RowsAlike(Hold(a, ks, user, expires), Hold(b, ks, user, expires), now);
    forall k | k in a && k in b
      ensures a[k].price == b[k].price
    {
      assert Unexpired(a[k], now).price == a[k].price && Unexpired(b[k], now).price == b[k].price;
    }
  }

  /** `ja` and `jb` may differ only on seats that are expired holds wherever they are left out. */
  lemma PutAlike(a: Seats, b: Seats, ja: set<SeatKey>, jb: set<SeatKey>, st: SeatStatus, now: int)
    requires View(a, now) == View(b, now)
    requires forall k :: k in a && k in b && (k in ja) != (k in jb) ==>
             st.Available? && Unexpired(a[k], now).status.Available?
    requires forall k :: k in a && k in b && (k in ja) != (k in jb) ==> HoldShape(a[k]) && HoldShape(b[k])
    ensures View(Put(a, ja, st), now) == View(Put(b, jb, st), now)
  {
    RowsAlike(a, b, now);
    RowsAlike(Put(a, ja, st), Put(b, jb, st), now);
    forall k | k in a && k in b
      ensures Unexpired(Put(a, ja, st)[k], now) == Unexpired(Put(b, jb, st)[k], now)
    {
      assert Unexpired(a[k], now).price == a[k].price && Unexpired(b[k], now).price == b[k].price;
    }
  }

  /** A release may find different rows in the two databases: they differ by expired holds only. */
  lemma ReleasedAlike(a: Db, b: Db, schedule: int, user: int, ids: seq<int>, now: int)
    requires SameView(a, b, now) && ShapeInv(a.seats) && ShapeInv(b.seats)
    ensures View(Put(a.seats, HeldSeats(a, schedule, user, ids), Available), now)
            == View(Put(b.seats, HeldSeats(b, schedule, user, ids), Available), now)
    ensures HeldSeats(a, schedule, user, ids) - Expired(a, now) == HeldSeats(b, schedule, user, ids) - Expired(b, now)
  {
    var ja, jb := HeldSeats(a, schedule, user, ids), HeldSeats(b, schedule, user, ids);
    RowsAlike(a.seats, b.seats, now);
    forall k | k in a.seats && k in b.seats
      ensures (k in ja) != (k in jb) ==> Unexpired(a.seats[k], now).status.Available?
      ensures (k in ja && k !in Expired(a, now)) == (k in jb && k !in Expired(b, now))
    {
      assert HoldShape(a.seats[k]) && HoldShape(b.seats[k]);
    }
    PutAlike(a.seats, b.seats, ja, jb, Available, now);
  }

  // ------------------------------------------------------------------ one transaction

  /** What the caller of a transaction can tell: everything, except that a release or sweep is
      reported by the seats that were not expired anyway. */
  function Observed(db: Db, out: Outcome, now: int): Outcome {
    if out.Freed? then Freed(out.seats - Expired(db, now)) else out
  }

  lemma AcquireAnswersAlike(a: Db, b: Db, schedule: int, user: int, ids: seq<int>, max: int, ttl: int, now: int)
    requires SameView(a, b, now)
    ensures AcquireTx(a, schedule, user, ids, max, ttl, now).1 == AcquireTx(b, schedule, user, ids, max, ttl, now).1
  {
    TargetsAlike(a, b, schedule, ids, now);
    OwnedAlike(a, b, schedule, user, now);
  }

  lemma AcquireWrites(db: Db, schedule: int, user: int, ids: seq<int>, max: int, ttl: int, now: int)
    ensures var (d, out) := AcquireTx(db, schedule, user, ids, max, ttl, now);
            d == if out.HoldGranted? then db.(seats := Hold(db.seats, out.seats, user, now + ttl)) else db
  {}

  lemma AcquireAlike(a: Db, b: Db, schedule: int, user: int, ids: seq<int>, max: int, ttl: int, now: int)
    requires SameView(a, b, now)
    ensures AcquireTx(a, schedule, user, ids, max, ttl, now).1 == AcquireTx(b, schedule, user, ids, max, ttl, now).1
    ensures SameView(AcquireTx(a, schedule, user, ids, max, ttl, now).0,
                     AcquireTx(b, schedule, user, ids, max, ttl, now).0, now)
  {
    AcquireAnswersAlike(a, b, schedule, user, ids, max, ttl, now);
    var out := AcquireTx(a, schedule, user, ids, max, ttl, now).1;
    AcquireWrites(a, schedule, user, ids, max, ttl, now);
    AcquireWrites(b, schedule, user, ids, max, ttl, now);
    if out.HoldGranted? { HoldAlike(a.seats, b.seats, out.seats, user, now + ttl, now); }
  }

  lemma {:induction false} PricesAlike(a: Seats, b: Seats, schedule: int, ids: seq<int>, now: int)
    requires View(a, now) == View(b, now)
    ensures SumPrices(a, schedule, ids) == SumPrices(b, schedule, ids)
  {
    RowsAlike(a, b, now);
    forall k | k in a
      ensures a[k].price == b[k].price
    {
      assert Unexpired(a[k], now).price == a[k].price && Unexpired(b[k], now).price == b[k].price;
    }
    SumPricesFrame(a, b, schedule, ids);
  }

  lemma OpenAlike(a: Db, b: Db, id: int, schedule: int, user: int, ids: seq<int>, key: string, minRemaining: int,
                  now: int)
    requires SameView(a, b, now) && minRemaining >= 0
    ensures OpenTx(a, id, schedule, user, ids, key, minRemaining, now).1
            == OpenTx(b, id, schedule, user, ids, key, minRemaining, now).1
    ensures SameView(OpenTx(a, id, schedule, user, ids, key, minRemaining, now).0,
                     OpenTx(b, id, schedule, user, ids, key, minRemaining, now).0, now)
  {
    LiveSeatsAlike(a, b, schedule, user, ids, now, now + minRemaining);
    PricesAlike(a.seats, b.seats, schedule, ids, now);
  }

  lemma ConfirmableAlike(a: Db, b: Db, order: int, now: int)
    requires SameView(a, b, now)
    ensures Confirmable(a, order, now) == Confirmable(b, order, now)
  {
    RowsAlike(a.seats, b.seats, now);
    if order in a.orders {
      var o := a.orders[order];
      forall s | s in o.seatIds
        ensures var k := SeatKey(o.schedule, s);
                (k in a.seats && LiveHold(a.seats[k], o.user, now))
                  == (k in b.seats && LiveHold(b.seats[k], o.user, now))
      {
        if SeatKey(o.schedule, s) in a.seats { HoldsAlike(a, b, SeatKey(o.schedule, s), o.user, now, now); }
      }
    }
  }

  lemma ConfirmAlike(a: Db, b: Db, order: int, tid: int, now: int)
    requires SameView(a, b, now)
    ensures ConfirmTx(a, order, tid, now).1 == ConfirmTx(b, order, tid, now).1
    ensures SameView(ConfirmTx(a, order, tid, now).0, ConfirmTx(b, order, tid, now).0, now)
  {
    ConfirmableAlike(a, b, order, now);
    if Confirmable(a, order, now) {
      var ks := OrderKeys(a.orders[order]);
      PutAlike(a.seats, b.seats, ks, ks, Booked, now);
      RowsAlike(a.seats, b.seats, now);
      forall k | k in a.seats
        ensures a.seats[k].price == b.seats[k].price
      {
        assert Unexpired(a.seats[k], now).price == a.seats[k].price
          && Unexpired(b.seats[k], now).price == b.seats[k].price;
      }
      assert NewItems(a, order) == NewItems(b, order);
    }
  }

  lemma CancelAlike(a: Db, b: Db, order: int, fee: FeeSnapshot, tid: Option<int>, now: int)
    requires SameView(a, b, now)
    ensures CancelTx(a, order, fee, tid).1 == CancelTx(b, order, fee, tid).1
    ensures SameView(CancelTx(a, order, fee, tid).0, CancelTx(b, order, fee, tid).0, now)
  {
    RowsAlike(a.seats, b.seats, now);
    forall k | k in a.seats
      ensures a.seats[k].status.Booked? == b.seats[k].status.Booked?
    {
      assert a.seats[k].status.Booked? == Unexpired(a.seats[k], now).status.Booked?;
      assert b.seats[k].status.Booked? == Unexpired(b.seats[k], now).status.Booked?;
    }
    assert BookedItems(a, order) == BookedItems(b, order);
    PutAlike(a.seats, b.seats, BookedItems(a, order), BookedItems(a, order), Available, now);
  }

  lemma CloseAlike(a: Db, b: Db, order: int, status: OrderStatus, now: int)
    requires SameView(a, b, now) && ShapeInv(a.seats) && ShapeInv(b.seats)
    ensures CloseTx(a, order, status).1 == CloseTx(b, order, status).1
    ensures SameView(CloseTx(a, order, status).0, CloseTx(b, order, status).0, now)
  {
    if order in a.orders {
      var o := a.orders[order];
      ReleasedAlike(a, b, o.schedule, o.user, o.seatIds, now);
    }
  }

  lemma RefundAlike(a: Db, b: Db, order: int, amount: nat, approved: bool, tid: Option<int>, now: int)
    requires SameView(a, b, now) && ShapeInv(a.seats) && ShapeInv(b.seats)
    ensures RefundTx(a, order, amount, approved, tid).1 == RefundTx(b, order, amount, approved, tid).1
    ensures SameView(RefundTx(a, order, amount, approved, tid).0, RefundTx(b, order, amount, approved, tid).0, now)
  {
    if order in a.orders {
      var o := a.orders[order];
      ReleasedAlike(a, b, o.schedule, o.user, o.seatIds, now);
    }
  }

  /** The margin of `place` is a duration. */
  predicate SaneOp(op: Op) {
    op.Open? ==> op.minRemaining >= 0
  }

  /** Same view before: same answer, same view after. */
  lemma StepAlike(a: Db, b: Db, op: Op, now: int)
    requires SameView(a, b, now) && ShapeInv(a.seats) && ShapeInv(b.seats)
    requires SaneOp(op) && !op.Sweep?
    ensures Observed(a, Apply(a, op, now).1, now) == Observed(b, Apply(b, op, now).1, now)
    ensures SameView(Apply(a, op, now).0, Apply(b, op, now).0, now)
  {
    hide ShapeInv, Unavailable, Settle, Hold, LiveSeats, Owned, Confirmable, SumPrices;
    match op
    case Acquire(schedule, user, ids, max, ttl) => AcquireAlike(a, b, schedule, user, ids, max, ttl, now);
    case Release(schedule, user, ids) => ReleasedAlike(a, b, schedule, user, ids, now);
    case Open(id, schedule, user, ids, key, minRemaining) =>
      OpenAlike(a, b, id, schedule, user, ids, key, minRemaining, now);
    case Confirm(order, tid) => ConfirmAlike(a, b, order, tid, now);
    case CloseUnpaid(order, ask) => CloseAlike(a, b, order, ClosingStatus(ask), now);
    case RecordRefund(order, amount, approved, rtid) => RefundAlike(a, b, order, amount, approved, rtid, now);
    case RecordCancel(order, fee, rtid) => CancelAlike(a, b, order, fee, rtid, now);
    case RecordRefusal(order, fee) =>
  }

  /** A sweep is invisible. */
  lemma SweepKeepsView(db: Db, chosen: set<SeatKey>, now: int)
    requires ShapeInv(db.seats)
    ensures SameView(db, SweepTx(db, chosen, now).0, now)
  {
    var d := SweepTx(db, chosen, now).0;
    RowsAlike(db.seats, d.seats, now);
  }

  // ------------------------------------------------------------------ whole histories

  /** The history without its sweeps. */
  function WithoutSweeps(ops: seq<Timed>): seq<Timed> {
    if ops == [] then []
    else (if ops[0].op.Sweep? then [] else [ops[0]]) + WithoutSweeps(ops[1..])
  }

  /** What the callers saw, sweeps aside. */
  function Answers(db: Db, ops: seq<Timed>): seq<Outcome>
    decreases |ops|
  {
    if ops == [] then []
    else
      var (d, out) := Apply(db, ops[0].op, ops[0].now);
      (if ops[0].op.Sweep? then [] else [Observed(db, out, ops[0].now)]) + Answers(d, ops[1..])
  }

  /** Clock readings that never go back, from `now` on. */
  ghost predicate Monotone(ops: seq<Timed>, now: int) {
    forall i :: 0 <= i < |ops| ==> now <= ops[i].now && forall j :: i < j < |ops| ==> ops[i].now <= ops[j].now
  }

  function EndTime(ops: seq<Timed>, now: int): int {
    if ops == [] then now else ops[|ops| - 1].now
  }

  lemma WithoutSweepsStep(ops: seq<Timed>)
    requires ops != [] && !ops[0].op.Sweep?
    ensures WithoutSweeps(ops) == [ops[0]] + WithoutSweeps(ops[1..])
    ensures WithoutSweeps(ops)[0] == ops[0] && WithoutSweeps(ops)[1..] == WithoutSweeps(ops[1..])
  {}

  /** Sweeping any part of the expired holds, at any times, changes no answer anybody gets later
      and no table but for expired holds: the run with sweeps and the run without agree. */
  lemma {:induction false} SweepingIsInvisible(a: Db, b: Db, ops: seq<Timed>, now: int)
    requires SameView(a, b, now) && DbInv(a) && DbInv(b)
    requires Monotone(ops, now)
    requires forall i :: 0 <= i < |ops| ==> SaneOp(ops[i].op)
    ensures Answers(a, ops) == Answers(b, WithoutSweeps(ops))
    ensures SameView(Run(a, ops), Run(b, WithoutSweeps(ops)), EndTime(ops, now))
    decreases |ops|
  {
    hide ShapeInv, ItemInv, BookedInv, OrderInv, KeyInv, RowsInv, CountInv;
    hide OutboxInv, AcquireTx, ReleaseTx, OpenTx, ConfirmTx, CloseTx, RefundTx, CancelTx;
    if ops != [] {
      var op, t, rest := ops[0].op, ops[0].now, ops[1..];
      var a' := Apply(a, op, t).0;
      ViewAtLaterTime(a, b, now, t);
      ApplyInv(a, op, t);
      assert EndTime(ops, now) == EndTime(rest, t);
      if op.Sweep? {
        SweepKeepsView(a, op.chosen, t);
        assert SameView(a', b, t);
        SweepingIsInvisible(a', b, rest, t);
        assert WithoutSweeps(ops) == WithoutSweeps(rest);
      } else {
        StepAlike(a, b, op, t);
        ApplyInv(b, op, t);
        WithoutSweepsStep(ops);
        SweepingIsInvisible(a', Apply(b, op, t).0, rest, t);
      }
    }
  }

  /** The list a release returns is the user's live holds among the seats named exactly when none
      of them is an expired hold the sweeper has not reached. */
  lemma ReleaseReportsExpiredHolds(db: Db, schedule: int, user: int, ids: seq<int>, now: int)
    requires ShapeInv(db.seats)
    ensures ReleaseTx(db, schedule, user, ids).1 == Freed(HeldSeats(db, schedule, user, ids) - Expired(db, now))
            <==> forall k :: k in Wanted(schedule, ids) && k in db.seats && HeldBy(db.seats[k], user) ==>
                   !Claimable(db.seats[k], now)
  {
    var held := HeldSeats(db, schedule, user, ids);
    forall k | k in held
      ensures k in Expired(db, now) <==> Claimable(db.seats[k], now)
    {}
    if held == held - Expired(db, now) {
      forall k | k in Wanted(schedule, ids) && k in db.seats && HeldBy(db.seats[k], user)
        ensures !Claimable(db.seats[k], now)
      {
        assert k in held;
      }
    } else {
      var k :| k in held && k in Expired(db, now);
    }
  }

  /** A caller can tell: here a release returns a seat whose hold ended before the call. */
  lemma ReleaseReturnsAnExpiredSeat()
    ensures var k := SeatKey(1, 1);
            var db := Db(map[k := SeatRow(Held, Some(7), Some(10), 100)], map[], map[], map[], [], []);
            Claimable(db.seats[k], 11) && ReleaseTx(db, 1, 7, [1]).1 == Freed({k})
  {
    var k := SeatKey(1, 1);
    assert 1 in [1];
    assert k in Wanted(1, [1]);
    assert Wanted(1, [1]) == {k};
  }
}

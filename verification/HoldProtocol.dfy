/** Seat holding, step by step (app/service/hold_service.py:92-139, app/infra/db/queries.py:207-317).

    Any number of acquire transactions run at once. Each fixes `now` when it begins, waits for
    the advisory lock of hash(schedule, user), takes its snapshot (who owns how many, which rows
    are claimable), locks those rows one by one in seat order, re-checks each against the latest
    committed version, writes, and commits or rolls back. Everybody else (releases, sweeps,
    orders, confirmations, cancellations) commits in between whenever no row they write is locked.
    The hash is any function at all. */
module HoldProtocol {
  import opened Domain
  import opened Tables
  import opened Transactions
  import opened Invariants
  import opened History

  type Hash = (int, int) -> int

  datatype Phase =
    | WaitLock
    | Snapshotting
    | Locking(owned: nat, todo: set<int>, got: set<SeatKey>)
    | Written(rows: set<SeatKey>)      // not yet visible to anybody
    | Refused
    | Finished(granted: bool)

  datatype Tx = Tx(schedule: int, user: int, ids: seq<int>, max: int, ttl: int, now: int, phase: Phase)

  /** `advisory` and `rows` say which transaction holds a lock. */
  datatype Hall = Hall(db: Db, clock: int, advisory: map<int, nat>, rows: map<SeatKey, nat>, txs: seq<Tx>)

  datatype Label =
    | Tick(seconds: nat)
    | Other(op: Op)
    | Begin(schedule: int, user: int, ids: seq<int>, max: int, ttl: int)
    | Lock(i: nat)
    | Snap(i: nat)
    | Row(i: nat, seat: int)
    | Write(i: nat)
    | Finish(i: nat)
    | Rollback(i: nat)

  // ------------------------------------------------------------------ steps

  predicate Locked(p: Phase) {
    p.Snapshotting? || p.Locking? || p.Written? || p.Refused?
  }

  predicate Enabled(h: Hash, w: Hall, l: Label) {
    match l
    case Tick(_) => true
    case Other(op) => !op.Acquire? && forall k :: k in w.rows && k in w.db.seats ==>
      Apply(w.db, op, w.clock).0.seats[k] == w.db.seats[k]
    case Begin(_, _, ids, max, _) => WellAsked(ids, max)
    case Lock(i) => i < |w.txs| && w.txs[i].phase.WaitLock? && h(w.txs[i].schedule, w.txs[i].user) !in w.advisory
    case Snap(i) => i < |w.txs| && w.txs[i].phase.Snapshotting?
    case Row(i, seat) =>
      && i < |w.txs| && w.txs[i].phase.Locking? && Least(seat, w.txs[i].phase.todo)
      && (SeatKey(w.txs[i].schedule, seat) in w.rows ==> w.rows[SeatKey(w.txs[i].schedule, seat)] == i)
    case Write(i) => i < |w.txs| && w.txs[i].phase.Locking? && w.txs[i].phase.todo == {}
    case Finish(i) => i < |w.txs| && (w.txs[i].phase.Written? || w.txs[i].phase.Refused?)
    case Rollback(i) => i < |w.txs| && !w.txs[i].phase.Finished?
  }

  function WithPhase(w: Hall, i: nat, p: Phase): Hall
    requires i < |w.txs|
  {
    w.(txs := w.txs[i := w.txs[i].(phase := p)])
  }

  /** End of a transaction: all its locks go at once. */
  function Ended(w: Hall, i: nat, granted: bool): Hall
    requires i < |w.txs|
  {
    WithPhase(w, i, Finished(granted)).(
      advisory := map a | a in w.advisory && w.advisory[a] != i :: w.advisory[a],
      rows := map k | k in w.rows && w.rows[k] != i :: w.rows[k])
  }

  function SeatsOf(ks: set<SeatKey>): set<int> {
    set k | k in ks :: k.seat
  }

  function Do(h: Hash, w: Hall, l: Label): Hall
    requires Enabled(h, w, l)
  {
    match l
    case Tick(seconds) => w.(clock := w.clock + seconds)
    case Other(op) => w.(db := Apply(w.db, op, w.clock).0)
    case Begin(schedule, user, ids, max, ttl) =>
      w.(txs := w.txs + [Tx(schedule, user, ids, max, ttl, w.clock, WaitLock)])
    case Lock(i) =>
      WithPhase(w, i, Snapshotting).(advisory := w.advisory[h(w.txs[i].schedule, w.txs[i].user) := i])
    case Snap(i) =>
      var t := w.txs[i];
      WithPhase(w, i,
                Locking(|Owned(w.db, t.schedule, t.user, t.now)|, SeatsOf(Target(w.db, t.schedule, t.ids, t.now)), {}))
    case Row(i, seat) =>
      var t := w.txs[i];
      var k := SeatKey(t.schedule, seat);
      var still := k in w.db.seats && Claimable(w.db.seats[k], t.now);
      var got := if still then t.phase.got + {k} else t.phase.got;
      WithPhase(w, i, t.phase.(todo := t.phase.todo - {seat}, got := got)).(rows := w.rows[k := i])
    case Write(i) =>
      var t := w.txs[i];
      var guard := |t.phase.got| == |t.ids| && t.phase.owned + |t.ids| <= t.max;
      WithPhase(w, i, if guard then Written(t.phase.got) else Refused)
    case Finish(i) =>
      var t := w.txs[i];
      if t.phase.Written? then
        Ended(w, i, true).(db := w.db.(seats := Hold(w.db.seats, t.phase.rows, t.user, t.now + t.ttl)))
      else Ended(w, i, false)
    case Rollback(i) => Ended(w, i, false)
  }

  function Step(h: Hash, w: Hall, l: Label): Hall {
    if Enabled(h, w, l) then Do(h, w, l) else w
  }

  function Exec(h: Hash, w: Hall, ls: seq<Label>): Hall
    decreases |ls|
  {
    if ls == [] then w else Exec(h, Step(h, w, ls[0]), ls[1..])
  }

  // ------------------------------------------------------------------ ownership over time

  /** Later, fewer holds are live. */
  lemma OwnedLater(db: Db, s: int, u: int, t: int, later: int)
    requires t <= later
    ensures Owned(db, s, u, later) <= Owned(db, s, u, t)
  {}

  lemma FreedOwned(db: Db, ks: set<SeatKey>, s: int, u: int, t: int)
    ensures Owned(db.(seats := Put(db.seats, ks, Available)), s, u, t) <= Owned(db, s, u, t)
  {}

  /** Somebody else's hold takes nothing but unowned rows, and adds nothing to this user. */
  lemma OthersHoldOwned(db: Db, ks: set<SeatKey>, user: int, expires: int, s: int, u: int, t: int)
    requires u != user || forall k :: k in ks ==> k.schedule != s
    ensures Owned(db.(seats := Hold(db.seats, ks, user, expires)), s, u, t) <= Owned(db, s, u, t)
  {}

  lemma ConfirmOwned(db: Db, order: int, tid: int, now: int, s: int, u: int, t: int)
    requires DbInv(db) && t <= now && ConfirmTx(db, order, tid, now).1.Confirmed?
    ensures Owned(ConfirmTx(db, order, tid, now).0, s, u, t) <= Owned(db, s, u, t)
  {
    hide ShapeInv, BookedInv, KeyInv, RowsInv, CountInv, OutboxInv, OrderInv, Settle;
    var d := ConfirmTx(db, order, tid, now).0;
    ConfirmableFacts(db, order, now);
    forall k | k in Owned(d, s, u, t)
      ensures k in Owned(db, s, u, t)
    {
      if k in OrderKeys(db.orders[order]) {
        assert LiveHold(db.seats[k], db.orders[order].user, now);
        assert d.items[k].order == order;
      } else {
        assert d.seats[k] == db.seats[k];
        if k in d.items { assert k in db.items && d.items[k] == db.items[k] && db.items[k].order != order; }
      }
    }
  }

  /** An order's status change gives nobody a seat unless the order becomes paid. */
  lemma StatusOwned(a: Db, b: Db, s: int, u: int, t: int)
    requires a.seats == b.seats && a.items == b.items
    requires forall k :: k in b.items && b.items[k].order in b.orders && b.orders[b.items[k].order].status.Paid? ==>
               b.items[k].order in a.orders && a.orders[b.items[k].order] == b.orders[b.items[k].order]
    ensures Owned(b, s, u, t) <= Owned(a, s, u, t)
  {}

  lemma ClosedOwned(db: Db, order: int, status: OrderStatus, s: int, u: int, t: int)
    requires !status.Paid?
    ensures Owned(CloseTx(db, order, status).0, s, u, t) <= Owned(db, s, u, t)
  {
    var d := CloseTx(db, order, status).0;
    if CloseTx(db, order, status).1.Closed? {
      var o := db.orders[order];
      FreedOwned(db, HeldSeats(db, o.schedule, o.user, o.seatIds), s, u, t);
      StatusOwned(db.(seats := d.seats), d, s, u, t);
    }
  }

  lemma RefundedOwned(db: Db, order: int, amount: nat, approved: bool, tid: Option<int>, s: int, u: int, t: int)
    ensures Owned(RefundTx(db, order, amount, approved, tid).0, s, u, t) <= Owned(db, s, u, t)
  {
    var d := RefundTx(db, order, amount, approved, tid).0;
    if order in db.orders {
      var o := db.orders[order];
      FreedOwned(db, HeldSeats(db, o.schedule, o.user, o.seatIds), s, u, t);
      StatusOwned(db.(seats := d.seats), d, s, u, t);
    }
  }

  lemma CanceledOwned(db: Db, order: int, fee: FeeSnapshot, tid: Option<int>, s: int, u: int, t: int)
    ensures Owned(CancelTx(db, order, fee, tid).0, s, u, t) <= Owned(db, s, u, t)
  {
    var d := CancelTx(db, order, fee, tid).0;
    if CancelTx(db, order, fee, tid).1.Closed? {
      FreedOwned(db, BookedItems(db, order), s, u, t);
      StatusOwned(db.(seats := d.seats), d, s, u, t);
    }
  }

  lemma OpenedOwned(db: Db, op: Op, now: int, s: int, u: int, t: int)
    requires op.Open? || op.RecordRefusal?
    ensures Owned(Apply(db, op, now).0, s, u, t) <= Owned(db, s, u, t)
  {
    StatusOwned(db, Apply(db, op, now).0, s, u, t);
  }

  /** Nothing but an acquire of this very user in this very schedule adds to what the user owns:
      a confirmation only turns a live hold into a booked seat. */
  lemma OwnedShrinks(db: Db, op: Op, now: int, s: int, u: int, t: int)
    requires DbInv(db) && t <= now && !op.Acquire?
    ensures Owned(Apply(db, op, now).0, s, u, t) <= Owned(db, s, u, t)
  {
    match op
    case Release(schedule, user, ids) => FreedOwned(db, HeldSeats(db, schedule, user, ids), s, u, t);
    case Sweep(chosen) => FreedOwned(db, chosen * Expired(db, now), s, u, t);
    case Open(_, _, _, _, _, _) => OpenedOwned(db, op, now, s, u, t);
    case Confirm(order, tid) => if Apply(db, op, now).1.Confirmed? { ConfirmOwned(db, order, tid, now, s, u, t); }
    case CloseUnpaid(order, ask) => ClosedOwned(db, order, ClosingStatus(ask), s, u, t);
    case RecordRefund(order, amount, approved, rtid) => RefundedOwned(db, order, amount, approved, rtid, s, u, t);
    case RecordCancel(order, fee, rtid) => CanceledOwned(db, order, fee, rtid, s, u, t);
    case RecordRefusal(_, _) => OpenedOwned(db, op, now, s, u, t);
  }

  // ------------------------------------------------------------------ the invariant

  /** What a transaction past its snapshot has secured. */
  ghost predicate PhaseOk(w: Hall, i: nat)
    requires i < |w.txs|
  {
    var t := w.txs[i];
    match t.phase
    case Locking(owned, todo, got) =>
      && |Owned(w.db, t.schedule, t.user, t.now)| <= owned
      && (forall s :: s in todo ==> s in t.ids)
      && |todo| <= |t.ids|
      && Secured(w, i, got)
      && (forall k, s :: k in w.rows && w.rows[k] == i && s in todo ==> k.seat < s)
    case Written(rows) =>
      && |Owned(w.db, t.schedule, t.user, t.now)| + |t.ids| <= t.max
      && Secured(w, i, rows) && |rows| == |t.ids|
    case _ => true
  }

  /** Rows this transaction has locked and found claimable; nobody can change them any more. */
  ghost predicate Secured(w: Hall, i: nat, got: set<SeatKey>)
    requires i < |w.txs|
  {
    var t := w.txs[i];
    forall k :: k in got ==>
      && k in Wanted(t.schedule, t.ids) && k in w.db.seats && Claimable(w.db.seats[k], t.now)
      && k in w.rows && w.rows[k] == i
  }

  ghost predicate LocksOk(h: Hash, w: Hall) {
    && (forall a :: a in w.advisory ==> w.advisory[a] < |w.txs| && Locked(w.txs[w.advisory[a]].phase)
                                        && h(w.txs[w.advisory[a]].schedule, w.txs[w.advisory[a]].user) == a)
    && (forall i :: 0 <= i < |w.txs| && Locked(w.txs[i].phase) ==>
          h(w.txs[i].schedule, w.txs[i].user) in w.advisory && w.advisory[h(w.txs[i].schedule, w.txs[i].user)] == i)
    && (forall k :: k in w.rows ==> w.rows[k] < |w.txs| && k.schedule == w.txs[w.rows[k]].schedule
                                    && Locked(w.txs[w.rows[k]].phase) && !w.txs[w.rows[k]].phase.Snapshotting?)
  }

  ghost predicate TxsOk(w: Hall) {
    forall i :: 0 <= i < |w.txs| ==>
      w.txs[i].now <= w.clock && WellAsked(w.txs[i].ids, w.txs[i].max) && PhaseOk(w, i)
  }

  ghost predicate HallInv(h: Hash, w: Hall) {
    DbInv(w.db) && LocksOk(h, w) && TxsOk(w)
  }

  // ---- a change of the tables by somebody who holds none of the locks of `i`

  ghost predicate Respects(w: Hall, d: Db, i: nat)
    requires i < |w.txs|
  {
    var t := w.txs[i];
    && Owned(d, t.schedule, t.user, t.now) <= Owned(w.db, t.schedule, t.user, t.now)
    && (forall k :: k in w.rows && w.rows[k] == i && k in w.db.seats ==> k in d.seats && d.seats[k] == w.db.seats[k])
  }

  lemma PhaseStable(w: Hall, v: Hall, i: nat)
    requires i < |w.txs| && i < |v.txs| && v.txs[i] == w.txs[i] && PhaseOk(w, i) && Respects(w, v.db, i)
    requires forall k :: (k in w.rows && w.rows[k] == i) <==> (k in v.rows && v.rows[k] == i)
    ensures PhaseOk(v, i)
  {
    var t := w.txs[i];
    SubsetSize(Owned(v.db, t.schedule, t.user, t.now), Owned(w.db, t.schedule, t.user, t.now));
  }

  lemma RespectsItself(w: Hall, i: nat)
    requires i < |w.txs|
    ensures Respects(w, w.db, i)
  {}

  // ------------------------------------------------------------------ preservation

  lemma OtherInv(h: Hash, w: Hall, op: Op)
    requires HallInv(h, w) && Enabled(h, w, Other(op))
    ensures HallInv(h, Do(h, w, Other(op)))
  {
    var v := Do(h, w, Other(op));
    ApplyInv(w.db, op, w.clock);
    PricesKept(w.db, op, w.clock);
    forall i | 0 <= i < |v.txs|
      ensures PhaseOk(v, i)
    {
      OwnedShrinks(w.db, op, w.clock, w.txs[i].schedule, w.txs[i].user, w.txs[i].now);
      PhaseStable(w, v, i);
    }
  }

  lemma BeginInv(h: Hash, w: Hall, l: Label)
    requires HallInv(h, w) && (l.Begin? || l.Tick?) && Enabled(h, w, l)
    ensures HallInv(h, Do(h, w, l))
  {
    var v := Do(h, w, l);
    forall i | 0 <= i < |v.txs|
      ensures PhaseOk(v, i)
    {
      if i < |w.txs| {
        RespectsItself(w, i);
        PhaseStable(w, v, i);
      }
    }
  }

  lemma LockInv(h: Hash, w: Hall, i: nat)
    requires HallInv(h, w) && Enabled(h, w, Lock(i))
    ensures HallInv(h, Do(h, w, Lock(i)))
  {
    var v := Do(h, w, Lock(i));
    forall j | 0 <= j < |v.txs|
      ensures PhaseOk(v, j)
    {
      if j != i {
        RespectsItself(w, j);
        PhaseStable(w, v, j);
      }
    }
  }

  lemma SnapPhase(h: Hash, w: Hall, i: nat)
    requires HallInv(h, w) && Enabled(h, w, Snap(i))
    ensures PhaseOk(Do(h, w, Snap(i)), i)
  {
    var t := w.txs[i];
    var target := Target(w.db, t.schedule, t.ids, t.now);
    WantedSize(t.schedule, t.ids);
    SubsetSize(target, Wanted(t.schedule, t.ids));
    SeatsOfSize(target);
    forall s | s in SeatsOf(target)
      ensures s in t.ids
    {
      var k :| k in target && k.seat == s;
    }
  }

  lemma {:induction false} SeatsOfSize(ks: set<SeatKey>)
    ensures |SeatsOf(ks)| <= |ks|
  {
    if ks != {} {
      var k :| k in ks;
      SeatsOfSize(ks - {k});
      assert SeatsOf(ks) == SeatsOf(ks - {k}) + {k.seat};
    } else {
      assert SeatsOf(ks) == {};
    }
  }

  lemma SnapInv(h: Hash, w: Hall, i: nat)
    requires HallInv(h, w) && Enabled(h, w, Snap(i))
    ensures HallInv(h, Do(h, w, Snap(i)))
  {
    var v := Do(h, w, Snap(i));
    forall j | 0 <= j < |v.txs|
      ensures PhaseOk(v, j)
    {
      if j == i {
        SnapPhase(h, w, i);
      } else {
        RespectsItself(w, j);
        PhaseStable(w, v, j);
      }
    }
  }

  lemma RowPhase(h: Hash, w: Hall, i: nat, seat: int)
    requires HallInv(h, w) && Enabled(h, w, Row(i, seat))
    ensures PhaseOk(Do(h, w, Row(i, seat)), i)
  {
    var t := w.txs[i];
    var k := SeatKey(t.schedule, seat);
    assert PhaseOk(w, i);
    assert k in Wanted(t.schedule, t.ids);
    assert |t.phase.todo - {seat}| <= |t.phase.todo|;
  }

  lemma RowInv(h: Hash, w: Hall, i: nat, seat: int)
    requires HallInv(h, w) && Enabled(h, w, Row(i, seat))
    ensures HallInv(h, Do(h, w, Row(i, seat)))
  {
    hide DbInv, Owned;
    var v := Do(h, w, Row(i, seat));
    forall j | 0 <= j < |v.txs|
      ensures PhaseOk(v, j)
    {
      if j == i {
        RowPhase(h, w, i, seat);
      } else {
        RespectsItself(w, j);
        PhaseStable(w, v, j);
      }
    }
  }

  lemma WriteInv(h: Hash, w: Hall, i: nat)
    requires HallInv(h, w) && Enabled(h, w, Write(i))
    ensures HallInv(h, Do(h, w, Write(i)))
  {
    hide DbInv, Owned;
    var v := Do(h, w, Write(i));
    assert PhaseOk(w, i);
    forall j | 0 <= j < |v.txs|
      ensures PhaseOk(v, j)
    {
      if j != i {
        RespectsItself(w, j);
        PhaseStable(w, v, j);
      }
    }
  }

  lemma EndedLocks(h: Hash, w: Hall, i: nat, granted: bool)
    requires LocksOk(h, w) && i < |w.txs|
    ensures LocksOk(h, Ended(w, i, granted))
  {}

  lemma EndedInv(h: Hash, w: Hall, i: nat, granted: bool)
    requires HallInv(h, w) && i < |w.txs|
    ensures HallInv(h, Ended(w, i, granted))
  {
    var v := Ended(w, i, granted);
    EndedLocks(h, w, i, granted);
    forall j | 0 <= j < |v.txs|
      ensures PhaseOk(v, j)
    {
      if j != i {
        RespectsItself(w, j);
        PhaseStable(w, v, j);
      }
    }
  }

  /** A write that was secured is, at commit, the acquire that the tables as they are now would
      grant in one go. */
  lemma CommitIsAnAcquire(h: Hash, w: Hall, i: nat)
    requires HallInv(h, w) && i < |w.txs| && w.txs[i].phase.Written?
    ensures var t := w.txs[i];
            AcquireTx(w.db, t.schedule, t.user, t.ids, t.max, t.ttl, t.now)
            == (Do(h, w, Finish(i)).db, HoldGranted(t.phase.rows))
  {
    var t := w.txs[i];
    var wanted := Wanted(t.schedule, t.ids);
    assert PhaseOk(w, i);
    WantedSize(t.schedule, t.ids);
    SubsetSize(t.phase.rows, wanted);
    assert t.phase.rows == wanted;
    assert Target(w.db, t.schedule, t.ids, t.now) == wanted;
  }

  /** Two transactions past the advisory lock are of different users or schedules. */
  lemma Exclusive(h: Hash, w: Hall, i: nat, j: nat)
    requires LocksOk(h, w) && i < |w.txs| && j < |w.txs| && i != j
    requires Locked(w.txs[i].phase) && Locked(w.txs[j].phase)
    ensures w.txs[i].schedule != w.txs[j].schedule || w.txs[i].user != w.txs[j].user
  {}

  lemma CommitRespects(h: Hash, w: Hall, i: nat, j: nat)
    requires HallInv(h, w) && i < |w.txs| && w.txs[i].phase.Written?
    requires j < |w.txs| && j != i && Locked(w.txs[j].phase)
    ensures Respects(w, Do(h, w, Finish(i)).db, j)
  {
    hide DbInv;
    var t := w.txs[i];
    assert PhaseOk(w, i);
    Exclusive(h, w, i, j);
    assert forall k :: k in t.phase.rows ==> k.schedule == t.schedule && k in w.rows && w.rows[k] == i;
    OthersHoldOwned(w.db, t.phase.rows, t.user, t.now + t.ttl, w.txs[j].schedule, w.txs[j].user, w.txs[j].now);
  }

  lemma CommitKeepsPhase(h: Hash, w: Hall, i: nat, j: nat)
    requires HallInv(h, w) && i < |w.txs| && w.txs[i].phase.Written? && j < |w.txs|
    ensures PhaseOk(Do(h, w, Finish(i)), j)
  {
    hide DbInv, LocksOk, Respects, Owned;
    if j != i && Locked(w.txs[j].phase) {
      CommitRespects(h, w, i, j);
      PhaseStable(w, Do(h, w, Finish(i)), j);
    }
  }

  /** Locks do not depend on the tables. */
  lemma CommitLocks(h: Hash, w: Hall, i: nat)
    requires i < |w.txs| && w.txs[i].phase.Written? && LocksOk(h, Ended(w, i, true))
    ensures LocksOk(h, Do(h, w, Finish(i)))
  {}

  lemma CommitInv(h: Hash, w: Hall, i: nat)
    requires HallInv(h, w) && i < |w.txs| && w.txs[i].phase.Written?
    ensures HallInv(h, Do(h, w, Finish(i)))
  {
    hide DbInv, LocksOk, PhaseOk;
    var t := w.txs[i];
    CommitIsAnAcquire(h, w, i);
    AcquireInv(w.db, t.schedule, t.user, t.ids, t.max, t.ttl, t.now);
    EndedLocks(h, w, i, true);
    CommitLocks(h, w, i);
    forall j | 0 <= j < |w.txs| { CommitKeepsPhase(h, w, i, j); }
  }

  lemma StepInv(h: Hash, w: Hall, l: Label)
    requires HallInv(h, w)
    ensures HallInv(h, Step(h, w, l))
  {
    if Enabled(h, w, l) {
      match l
      case Tick(_) => BeginInv(h, w, l);
      case Other(op) => OtherInv(h, w, op);
      case Begin(_, _, _, _, _) => BeginInv(h, w, l);
      case Lock(i) => LockInv(h, w, i);
      case Snap(i) => SnapInv(h, w, i);
      case Row(i, seat) => RowInv(h, w, i, seat);
      case Write(i) => WriteInv(h, w, i);
      case Finish(i) => if w.txs[i].phase.Written? { CommitInv(h, w, i); } else { EndedInv(h, w, i, false); }
      case Rollback(i) => EndedInv(h, w, i, false);
    }
  }
}

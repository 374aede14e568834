/** What holds of every run of the holding protocol: it is a history of one-shot transactions,
    no user ever owns more than the quota, nobody waits for ever, and every transaction ends. */
module HoldTheorems {
  import opened Domain
  import opened Tables
  import opened Transactions
  import opened Invariants
  import opened HoldProtocol

  lemma {:induction false} ExecInv(h: Hash, w: Hall, ls: seq<Label>)
    requires HallInv(h, w)
    ensures HallInv(h, Exec(h, w, ls))
    decreases |ls|
  {
    if ls != [] {
      StepInv(h, w, ls[0]);
      ExecInv(h, Step(h, w, ls[0]), ls[1..]);
    }
  }

  /** Nobody is holding seats. */
  ghost predicate NobodyHolds(w: Hall) {
    w.txs == [] && w.advisory == map[] && w.rows == map[]
  }

  /** So the invariant holds in every hall a run reaches from tables without transactions at work. */
  lemma ReachableHall(h: Hash, w: Hall, ls: seq<Label>)
    requires DbInv(w.db) && NobodyHolds(w)
    ensures HallInv(h, Exec(h, w, ls))
  {
    ExecInv(h, w, ls);
  }

  // ------------------------------------------------------------------ linearization

  /** The one-shot transaction a step amounts to, if it publishes anything. */
  function Published(h: Hash, w: Hall, l: Label): seq<Timed> {
    if !Enabled(h, w, l) then []
    else
      match l
      case Other(op) => [At(op, w.clock)]
      case Finish(i) =>
        var t := w.txs[i];
        if t.phase.Written? then [At(Acquire(t.schedule, t.user, t.ids, t.max, t.ttl), t.now)] else []
      case Tick(_) => []
      case Begin(_, _, _, _, _) => []
      case Lock(_) => []
      case Snap(_) => []
      case Row(_, _) => []
      case Write(_) => []
      case Rollback(_) => []
  }

  function Linear(h: Hash, w: Hall, ls: seq<Label>): seq<Timed>
    decreases |ls|
  {
    if ls == [] then [] else Published(h, w, ls[0]) + Linear(h, Step(h, w, ls[0]), ls[1..])
  }

  lemma RunOne(db: Db, t: Timed)
    ensures Run(db, [t]) == Apply(db, t.op, t.now).0
  {
    assert Run(db, [t]) == Run(Apply(db, t.op, t.now).0, [t][1..]);
  }

  lemma StepPublishes(h: Hash, w: Hall, l: Label)
    requires HallInv(h, w)
    ensures Step(h, w, l).db == Run(w.db, Published(h, w, l))
  {
    if |Published(h, w, l)| == 1 {
      RunOne(w.db, Published(h, w, l)[0]);
      if l.Finish? { CommitIsAnAcquire(h, w, l.i); }
    }
  }

  /** Step-by-step acquires, interleaved in any way with each other and with everything else, leave
      the tables as some history of whole transactions does: each granted acquire takes effect
      at once, at its commit, by the clock it read when it began. */
  lemma {:induction false} HoldingIsAHistory(h: Hash, w: Hall, ls: seq<Label>)
    requires HallInv(h, w)
    ensures Exec(h, w, ls).db == Run(w.db, Linear(h, w, ls))
    decreases |ls|
  {
    if ls != [] {
      var v := Step(h, w, ls[0]);
      StepInv(h, w, ls[0]);
      StepPublishes(h, w, ls[0]);
      HoldingIsAHistory(h, v, ls[1..]);
      RunAppend(w.db, Published(h, w, ls[0]), Linear(h, v, ls[1..]));
    }
  }

  // ------------------------------------------------------------------ quota

  /** Every acquire of this user in this schedule is asked with this limit or a lower one. */
  predicate LimitedBy(w: Hall, s: int, u: int, limit: nat) {
    forall i :: 0 <= i < |w.txs| && w.txs[i].schedule == s && w.txs[i].user == u ==> w.txs[i].max <= limit
  }

  predicate AsksWithin(l: Label, s: int, u: int, limit: nat) {
    l.Begin? && l.schedule == s && l.user == u ==> l.max <= limit
  }

  lemma CommitKeepsQuota(h: Hash, w: Hall, i: nat, s: int, u: int, limit: nat)
    requires HallInv(h, w) && i < |w.txs| && w.txs[i].phase.Written?
    requires |Owned(w.db, s, u, w.clock)| <= limit && LimitedBy(w, s, u, limit)
    ensures |Owned(Do(h, w, Finish(i)).db, s, u, w.clock)| <= limit
  {
    hide DbInv, LocksOk;
    var t := w.txs[i];
    var d := Do(h, w, Finish(i)).db;
    assert PhaseOk(w, i);
    if t.schedule == s && t.user == u {
      OwnedLater(w.db, s, u, t.now, w.clock);
      var before := Owned(w.db, s, u, t.now);
      HoldAdds(w.db, t.phase.rows, t.user, t.now + t.ttl, s, u, w.clock);
      SubsetSize(Owned(d, s, u, w.clock), before + t.phase.rows);
    } else {
      OthersHoldOwned(w.db, t.phase.rows, t.user, t.now + t.ttl, s, u, w.clock);
      SubsetSize(Owned(d, s, u, w.clock), Owned(w.db, s, u, w.clock));
    }
  }

  lemma HoldAdds(db: Db, ks: set<SeatKey>, user: int, expires: int, s: int, u: int, t: int)
    ensures Owned(db.(seats := Hold(db.seats, ks, user, expires)), s, u, t) <= Owned(db, s, u, t) + ks
  {}

  lemma StepKeepsQuota(h: Hash, w: Hall, l: Label, s: int, u: int, limit: nat)
    requires HallInv(h, w) && AsksWithin(l, s, u, limit)
    requires |Owned(w.db, s, u, w.clock)| <= limit && LimitedBy(w, s, u, limit)
    ensures var v := Step(h, w, l);
            |Owned(v.db, s, u, v.clock)| <= limit && LimitedBy(v, s, u, limit)
  {
    hide DbInv, LocksOk;
    var v := Step(h, w, l);
    if Enabled(h, w, l) {
      match l
      case Tick(seconds) =>
        OwnedLater(w.db, s, u, w.clock, v.clock);
        SubsetSize(Owned(v.db, s, u, v.clock), Owned(w.db, s, u, w.clock));
      case Other(op) =>
        OwnedShrinks(w.db, op, w.clock, s, u, w.clock);
        SubsetSize(Owned(v.db, s, u, w.clock), Owned(w.db, s, u, w.clock));
      case Finish(i) => if w.txs[i].phase.Written? { CommitKeepsQuota(h, w, i, s, u, limit); }
      case _ =>
    }
  }

  /** The quota, under every interleaving of every number of acquires with releases, sweeps,
      orders, confirmations and cancellations, whatever the hash: a user's live holds and seats
      booked by paid orders in a schedule never exceed the limit the acquires were asked with. */
  lemma {:induction false} QuotaHolds(h: Hash, w: Hall, ls: seq<Label>, s: int, u: int, limit: nat)
    requires HallInv(h, w)
    requires |Owned(w.db, s, u, w.clock)| <= limit && LimitedBy(w, s, u, limit)
    requires forall i :: 0 <= i < |ls| ==> AsksWithin(ls[i], s, u, limit)
    ensures var v := Exec(h, w, ls);
            |Owned(v.db, s, u, v.clock)| <= limit
    decreases |ls|
  {
    if ls != [] {
      StepInv(h, w, ls[0]);
      StepKeepsQuota(h, w, ls[0], s, u, limit);
      QuotaHolds(h, Step(h, w, ls[0]), ls[1..], s, u, limit);
    }
  }

  /** The seats of a schedule that a user holds beyond an instant, and those the user's paid orders booked, by the
      columns of the rows. */
  function HoldsOf(db: Db, s: int, u: int, t: int): set<SeatKey> {
    set k | k in db.seats && k.schedule == s && db.seats[k].status.Held? && db.seats[k].heldBy == Some(u)
            && db.seats[k].expires.Some? && db.seats[k].expires.value > t
  }

  function PurchasesOf(db: Db, s: int, u: int): set<SeatKey> {
    set k | k in db.seats && k.schedule == s && db.seats[k].status.Booked?
            && k in db.items && db.items[k].order in db.orders
            && db.orders[db.items[k].order].status.Paid? && db.orders[db.items[k].order].user == u
  }

  lemma OwnedIsEither(db: Db, s: int, u: int, t: int, k: SeatKey)
    ensures k in Owned(db, s, u, t) <==> k in HoldsOf(db, s, u, t) || k in PurchasesOf(db, s, u)
    ensures !(k in HoldsOf(db, s, u, t) && k in PurchasesOf(db, s, u))
  {}

  lemma LiveAndBought(db: Db, s: int, u: int, t: int)
    ensures |Owned(db, s, u, t)| == |HoldsOf(db, s, u, t)| + |PurchasesOf(db, s, u)|
  {
    hide Owned, HoldsOf, PurchasesOf;
    forall k { OwnedIsEither(db, s, u, t, k); }
    assert Owned(db, s, u, t) == HoldsOf(db, s, u, t) + PurchasesOf(db, s, u);
  }

  /** From a fresh inventory nobody ever owns more than the limit. */
  lemma QuotaFromFresh(h: Hash, w: Hall, ls: seq<Label>, s: int, u: int, limit: nat)
    requires Fresh(w.db) && NobodyHolds(w) && forall i :: 0 <= i < |ls| ==> AsksWithin(ls[i], s, u, limit)
    ensures var v := Exec(h, w, ls);
            |HoldsOf(v.db, s, u, v.clock)| + |PurchasesOf(v.db, s, u)| <= limit
  {
    FreshInv(w.db);
    assert Owned(w.db, s, u, w.clock) == {};
    ReachableHall(h, w, []);
    QuotaHolds(h, w, ls, s, u, limit);
    LiveAndBought(Exec(h, w, ls).db, s, u, Exec(h, w, ls).clock);
  }

  // ------------------------------------------------------------------ what the statement counts

  /** The rows of order_items as a list, before its UNIQUE constraint is taken into account. */
  type ItemTable = seq<(SeatKey, ItemRow)>

  predicate UniqueSeats(rows: ItemTable) {
    forall i, j :: 0 <= i < j < |rows| ==> rows[i].0 != rows[j].0
  }

  predicate PaidBy(orders: Orders, order: int, user: int) {
    order in orders && orders[order].status.Paid? && orders[order].user == user
  }

  /** Result rows of the two outer joins for seats without an item: only a live hold counts. */
  function LoneRows(db: Db, rows: ItemTable, schedule: int, user: int, now: int): set<SeatKey> {
    set k | k in db.seats && k.schedule == schedule && LiveHold(db.seats[k], user, now)
            && forall i :: 0 <= i < |rows| ==> rows[i].0 != k
  }

  /** Result rows for seats with items: one per item. */
  function JoinedRows(db: Db, rows: ItemTable, schedule: int, user: int, now: int): set<nat> {
    set i: nat | i < |rows| && rows[i].0 in db.seats && rows[i].0.schedule == schedule
                 && (LiveHold(db.seats[rows[i].0], user, now)
                     || (db.seats[rows[i].0].status.Booked? && PaidBy(db.orders, rows[i].1.order, user)))
  }

  function SeatsAt(rows: ItemTable, at: set<nat>): set<SeatKey> {
    set i | i in at && i < |rows| :: rows[i].0
  }

  lemma {:induction false} OneSeatPerRow(rows: ItemTable, at: set<nat>)
    requires UniqueSeats(rows) && forall i :: i in at ==> i < |rows|
    ensures |SeatsAt(rows, at)| == |at|
  {
    if at != {} {
      var i :| i in at;
      OneSeatPerRow(rows, at - {i});
      assert SeatsAt(rows, at) == SeatsAt(rows, at - {i}) + {rows[i].0};
      assert rows[i].0 !in SeatsAt(rows, at - {i});
    } else {
      assert SeatsAt(rows, at) == {};
    }
  }

  /** `rows` is the table behind the index of items. */
  ghost predicate Tabled(db: Db, rows: ItemTable) {
    && UniqueSeats(rows)
    && (forall k :: k in db.items <==> exists i :: 0 <= i < |rows| && rows[i].0 == k)
    && (forall i :: 0 <= i < |rows| ==> rows[i].0 in db.items && db.items[rows[i].0] == rows[i].1)
  }

  lemma JoinFindsOwned(db: Db, rows: ItemTable, schedule: int, user: int, now: int, k: SeatKey)
    requires Tabled(db, rows)
    ensures var lone, ks :=
            LoneRows(db, rows, schedule, user, now), SeatsAt(rows, JoinedRows(db, rows, schedule, user, now));
            (k in Owned(db, schedule, user, now) <==> k in lone || k in ks) && !(k in lone && k in ks)
  {
    if k in db.items {
      var i :| 0 <= i < |rows| && rows[i].0 == k;
      assert i in JoinedRows(db, rows, schedule, user, now) <==> k in Owned(db, schedule, user, now);
    }
  }

  /** The quota counts the rows of an outer join. Because a seat has at most one order item, that
      is the number of seats the user owns; nothing is counted twice. */
  lemma JoinCountsSeats(db: Db, rows: ItemTable, schedule: int, user: int, now: int)
    requires Tabled(db, rows)
    ensures |LoneRows(db, rows, schedule, user, now)| + |JoinedRows(db, rows, schedule, user, now)|
            == |Owned(db, schedule, user, now)|
  {
    hide LiveHold, BoughtBy, UniqueSeats, Owned, LoneRows, SeatsAt;
    var lone, joined := LoneRows(db, rows, schedule, user, now), JoinedRows(db, rows, schedule, user, now);
    OneSeatPerRow(rows, joined);
    var ks := SeatsAt(rows, joined);
    forall k { JoinFindsOwned(db, rows, schedule, user, now, k); }
    assert lone + ks == Owned(db, schedule, user, now);
    assert lone !! ks;
  }

  // ------------------------------------------------------------------ no deadlock

  /** A step forward of one transaction. Giving up is not one. */
  predicate Forward(l: Label, i: nat) {
    match l
    case Lock(j) => j == i
    case Snap(j) => j == i
    case Row(j, _) => j == i
    case Write(j) => j == i
    case Finish(j) => j == i
    case _ => false
  }

  predicate Moves(h: Hash, w: Hall, l: Label) {
    (exists i: nat :: i < |w.txs| && Forward(l, i)) && Enabled(h, w, l)
  }

  /** The locked rows of a schedule from some seat on. */
  function LockedFrom(w: Hall, schedule: int, seat: int): set<SeatKey> {
    set k | k in w.rows && k.schedule == schedule && k.seat >= seat
  }

  /** A transaction with rows left to lock either goes on or waits for one that holds a lower row
      than all it still wants itself, so following the waiting goes up the seats and ends. */
  lemma {:induction false} SomeoneMoves(h: Hash, w: Hall, i: nat, seat: int)
    requires HallInv(h, w) && i < |w.txs| && w.txs[i].phase.Locking? && Least(seat, w.txs[i].phase.todo)
    ensures exists l :: Moves(h, w, l)
    decreases |LockedFrom(w, w.txs[i].schedule, seat)|
  {
    var k := SeatKey(w.txs[i].schedule, seat);
    if k !in w.rows || w.rows[k] == i {
      assert Forward(Row(i, seat), i);
      assert Moves(h, w, Row(i, seat));
    } else {
      var j := w.rows[k];
      assert PhaseOk(w, j);
      if w.txs[j].phase.Locking? && w.txs[j].phase.todo != {} {
        LeastExists(w.txs[j].phase.todo);
        var next :| Least(next, w.txs[j].phase.todo);
        assert seat < next;
        SmallerFrom(w, k, next);
        SomeoneMoves(h, w, j, next);
      } else if w.txs[j].phase.Locking? {
        assert Forward(Write(j), j);
        assert Moves(h, w, Write(j));
      } else {
        assert Forward(Finish(j), j);
        assert Moves(h, w, Finish(j));
      }
    }
  }

  lemma SmallerFrom(w: Hall, k: SeatKey, next: int)
    requires k in w.rows && k.seat < next
    ensures |LockedFrom(w, k.schedule, next)| < |LockedFrom(w, k.schedule, k.seat)|
  {
    var big, small := LockedFrom(w, k.schedule, k.seat), LockedFrom(w, k.schedule, next);
    SubsetSize(small, big - {k});
  }

  lemma LockedMoves(h: Hash, w: Hall, i: nat)
    requires HallInv(h, w) && i < |w.txs| && Locked(w.txs[i].phase)
    ensures exists l :: Moves(h, w, l)
  {
    var p := w.txs[i].phase;
    if p.Snapshotting? {
      assert Forward(Snap(i), i);
      assert Moves(h, w, Snap(i));
    } else if p.Locking? && p.todo != {} {
      LeastExists(p.todo);
      var s :| Least(s, p.todo);
      SomeoneMoves(h, w, i, s);
    } else if p.Locking? {
      assert Forward(Write(i), i);
      assert Moves(h, w, Write(i));
    } else {
      assert Forward(Finish(i), i);
      assert Moves(h, w, Finish(i));
    }
  }

  /** No deadlock: while any transaction is unfinished, some transaction can take a step forward. */
  lemma NoDeadlock(h: Hash, w: Hall, i: nat)
    requires HallInv(h, w) && i < |w.txs| && !w.txs[i].phase.Finished?
    ensures exists l :: Moves(h, w, l)
  {
    var t := w.txs[i];
    if t.phase.WaitLock? {
      var a := h(t.schedule, t.user);
      if a in w.advisory {
        LockedMoves(h, w, w.advisory[a]);
      } else {
        assert Forward(Lock(i), i);
        assert Moves(h, w, Lock(i));
      }
    } else {
      LockedMoves(h, w, i);
    }
  }

  // ------------------------------------------------------------------ termination

  /** Steps a transaction has left, at most. */
  function StepsToGo(t: Tx): nat {
    match t.phase
    case WaitLock => |t.ids| + 5
    case Snapshotting => |t.ids| + 4
    case Locking(_, todo, _) => |todo| + 3
    case Written(_) => 1
    case Refused => 1
    case Finished(_) => 0
  }

  function Work(txs: seq<Tx>): nat {
    if txs == [] then 0 else Work(txs[..|txs| - 1]) + StepsToGo(txs[|txs| - 1])
  }

  lemma {:induction false} WorkUpdate(txs: seq<Tx>, i: nat, t: Tx)
    requires i < |txs|
    ensures Work(txs[i := t]) == Work(txs) - StepsToGo(txs[i]) + StepsToGo(t)
  {
    var front := txs[..|txs| - 1];
    if i == |txs| - 1 {
      assert txs[i := t][..|txs| - 1] == front;
    } else {
      WorkUpdate(front, i, t);
      assert txs[i := t][..|txs| - 1] == front[i := t];
    }
  }

  lemma {:induction false} WorkDone(txs: seq<Tx>)
    ensures Work(txs) == 0 <==> forall i :: 0 <= i < |txs| ==> txs[i].phase.Finished?
  {
    if txs != [] { WorkDone(txs[..|txs| - 1]); }
  }

  predicate OwnStep(h: Hash, w: Hall, l: Label) {
    Enabled(h, w, l) && (Moves(h, w, l) || l.Rollback?)
  }

  lemma StepLeaves(h: Hash, w: Hall, l: Label)
    requires HallInv(h, w) && Enabled(h, w, l) && !l.Begin? && !l.Tick? && !l.Other?
    ensures var v := Step(h, w, l);
            l.i < |w.txs| && |v.txs| == |w.txs| && v.txs == w.txs[l.i := v.txs[l.i]]
              && StepsToGo(v.txs[l.i]) < StepsToGo(w.txs[l.i])
  {
    assert PhaseOk(w, l.i);
    if l.Snap? { SnapPhase(h, w, l.i); }
    if l.Row? { assert |w.txs[l.i].phase.todo - {l.seat}| < |w.txs[l.i].phase.todo|; }
  }

  /** Every step of a transaction, forward or giving up, leaves less to do; nobody else's step
      leaves more. */
  lemma StepWorks(h: Hash, w: Hall, l: Label)
    requires HallInv(h, w) && !l.Begin?
    ensures Work(Step(h, w, l).txs) + (if OwnStep(h, w, l) then 1 else 0) <= Work(w.txs)
  {
    var v := Step(h, w, l);
    if Enabled(h, w, l) && !l.Tick? && !l.Other? {
      StepLeaves(h, w, l);
      WorkUpdate(w.txs, l.i, v.txs[l.i]);
    }
  }

  function OwnSteps(h: Hash, w: Hall, ls: seq<Label>): nat
    decreases |ls|
  {
    if ls == [] then 0 else OwnSteps(h, Step(h, w, ls[0]), ls[1..]) + if OwnStep(h, w, ls[0]) then 1 else 0
  }

  /** Termination: once no new acquire begins, the transactions together take at most `Work` more
      steps in any run, whoever else interleaves. */
  lemma {:induction false} AcquiresTerminate(h: Hash, w: Hall, ls: seq<Label>)
    requires HallInv(h, w) && forall i :: 0 <= i < |ls| ==> !ls[i].Begin?
    ensures OwnSteps(h, w, ls) + Work(Exec(h, w, ls).txs) <= Work(w.txs)
    decreases |ls|
  {
    if ls != [] {
      StepInv(h, w, ls[0]);
      StepWorks(h, w, ls[0]);
      AcquiresTerminate(h, Step(h, w, ls[0]), ls[1..]);
    }
  }

  predicate AllFinished(w: Hall) {
    forall i :: 0 <= i < |w.txs| ==> w.txs[i].phase.Finished?
  }

  predicate ForwardOnly(ls: seq<Label>) {
    forall i :: 0 <= i < |ls| ==> ls[i].Lock? || ls[i].Snap? || ls[i].Row? || ls[i].Write? || ls[i].Finish?
  }

  lemma WorkAhead(h: Hash, w: Hall)
    requires HallInv(h, w) && Work(w.txs) > 0
    ensures exists l :: Moves(h, w, l)
  {
    WorkDone(w.txs);
    var i :| 0 <= i < |w.txs| && !w.txs[i].phase.Finished?;
    NoDeadlock(h, w, i);
  }

  lemma PrependStep(h: Hash, w: Hall, l: Label, rest: seq<Label>)
    ensures Exec(h, w, [l] + rest) == Exec(h, Step(h, w, l), rest)
  {
    assert ([l] + rest)[1..] == rest;
  }

  /** So from every reachable state all acquires can finish without anybody giving up, in at most
      that many steps: each is granted or refused by the database, never stuck. */
  lemma {:induction false} EverybodyCanFinish(h: Hash, w: Hall) returns (ls: seq<Label>)
    requires HallInv(h, w)
    ensures |ls| <= Work(w.txs) && ForwardOnly(ls)
    ensures AllFinished(Exec(h, w, ls))
    decreases Work(w.txs)
  {
    if Work(w.txs) == 0 {
      WorkDone(w.txs);
      ls := [];
    } else {
      WorkAhead(h, w);
      var l :| Moves(h, w, l);
      StepInv(h, w, l);
      StepWorks(h, w, l);
      var rest := EverybodyCanFinish(h, Step(h, w, l));
      ls := [l] + rest;
      PrependStep(h, w, l, rest);
    }
  }
}

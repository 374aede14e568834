/** What the callers of place and cancel are told is so: every answer is true of the tables as they are
    when it is given, whatever others did before each step of the call. */
module ServiceAnswers {
  import opened Domain
  import opened Tables
  import opened Transactions
  import opened Invariants
  import opened History
  import opened Effects
  import opened Saga
  import opened SagaSafety
  import opened GatewayNumbers
  import opened OrderService

  // ------------------------------------------------------------------ place

  /** Where a call of place with this key may be. */
  predicate PlacePc(pc: Pc, key: string) {
    match pc
    case Opening(_, _, ids, k, _) => k == key && ids != []
    case Sending(_, _, k) => k == key
    case Waiting(_, _, k) => k == key
    case Judged(_, ask, _, _, k) => k == key && ask.AskApprove?
    case Refunding(_, _, _) => true
    case RefundAnswered(_, _, _) => true
    case Replaying(_, k, _) => k == key
    case Done => true
    case _ => false
  }

  /** The key names this order. */
  predicate NamedBy(db: Db, key: string, order: int) {
    key in db.keys && db.keys[key] == order && order in db.orders
  }

  /** A refund of the order is on record, made or failed. */
  predicate RefundOnRecord(ps: seq<PaymentRow>, order: int) {
    exists i :: 0 <= i < |ps| && ps[i].order == order && (ps[i].status.Refunded? || ps[i].status.Failed?)
  }

  /** The answer is true. */
  ghost predicate Told(v: World, r: PlaceResult, key: string) {
    match r
    case Placed(o, snapshot, _) => NamedBy(v.db, key, o) && v.db.orders[o].snapshot == Some(snapshot)
    case ClosedWithoutResponse(o) =>
      && NamedBy(v.db, key, o) && v.db.orders[o].snapshot.None?
      && (v.db.orders[o].status.Failed? || v.db.orders[o].status.Canceled?)
    case InProgress(o) => NamedBy(v.db, key, o) && v.db.orders[o].status.Pending?
    case PaymentDeclined(o) =>
      o in v.db.orders && !v.db.orders[o].status.Pending? && ApproveSaid(o, Declined) in v.said
    case PaymentUnknown(o) => o in v.db.orders && ApproveSaid(o, Unknown) in v.said
    case HoldLost(o) => o in v.db.orders && RefundOnRecord(v.db.payments, o)
    case NoHold => key !in v.db.keys
    case Rejected => true
    case Raised => true
    case Stopped => true
  }

  lemma OpeningTold(v: World, d: int, c: Choice, replayed: bool, key: string)
    requires d in v.drivers && v.drivers[d].Opening? && PlacePc(v.drivers[d], key) && Unused(Step(v, Go(d, c)), d)
    ensures Told(Step(v, Go(d, c)), LastWord(v, d, c, replayed), key)
  {}

  lemma JudgedTold(v: World, d: int, c: Choice, replayed: bool, key: string)
    requires Inv(v) && d in v.drivers && v.drivers[d].Judged? && PlacePc(v.drivers[d], key)
    requires Unused(Step(v, Go(d, c)), d)
    ensures Told(Step(v, Go(d, c)), LastWord(v, d, c, replayed), key)
  {
    hide Inv, Settle, Put;
    DriverKnows(v, d);
  }

  lemma RecordTold(v: World, d: int, c: Choice, replayed: bool, key: string)
    requires Inv(v) && d in v.drivers && v.drivers[d].RefundAnswered?
    ensures Told(Step(v, Go(d, c)), LastWord(v, d, c, replayed), key)
  {
    hide Inv, Settle, Put, TidFree;
    DriverKnows(v, d);
    var pc := v.drivers[d];
    RefundRecordGo(v, d, c);
    var u := Step(v, Go(d, c));
    if !Throws(v, d, c) {
      RecordLeavesRow(v.db, pc.order, pc.amount, pc.answer.result.Approved?, pc.answer.tid);
    }
  }

  lemma RecordLeavesRow(db: Db, id: int, amount: nat, approved: bool, tid: Option<int>)
    requires !RefundTx(db, id, amount, approved, tid).1.Aborted?
    ensures var d := RefundTx(db, id, amount, approved, tid).0; id in d.orders && RefundOnRecord(d.payments, id)
  {
    RefundLeaves(db, id, amount, approved, tid, 0);
    var d := RefundTx(db, id, amount, approved, tid).0;
    assert d == Apply(db, RecordRefund(id, amount, approved, tid), 0).0;
    assert d.payments[|db.payments|].order == id;
  }

  lemma ReplayTold(v: World, d: int, c: Choice, replayed: bool, key: string)
    requires Inv(v) && d in v.drivers && v.drivers[d].Replaying? && PlacePc(v.drivers[d], key)
    requires Unused(Step(v, Go(d, c)), d)
    ensures Told(Step(v, Go(d, c)), LastWord(v, d, c, replayed), key)
  {
    hide Inv, Step, DbInv, PcOk;
    ReplayKnows(v, d);
    LookGo(v, d, c);
    TablesAreSound(v);
    UnpaidIsClosed(v.db, v.drivers[d].order);
  }

  lemma ReplayKnows(v: World, d: int)
    requires Inv(v) && d in v.drivers && v.drivers[d].Replaying?
    ensures NamedBy(v.db, v.drivers[d].key, v.drivers[d].order)
  {
    DriverKnows(v, d);
  }

  lemma UnpaidIsClosed(db: Db, id: int)
    requires DbInv(db)
    ensures id in db.orders && db.orders[id].snapshot.None? && !db.orders[id].status.Pending? ==>
              db.orders[id].status.Failed? || db.orders[id].status.Canceled?
  {
    if id in db.orders { assert OrderOk(db.seats, db.items, id, db.orders[id]); }
  }

  lemma LastWordIsTrue(v: World, d: int, c: Choice, replayed: bool, key: string)
    requires Inv(v) && d in v.drivers && PlacePc(v.drivers[d], key) && Unused(Step(v, Go(d, c)), d)
    ensures Told(Step(v, Go(d, c)), LastWord(v, d, c, replayed), key)
  {
    hide Inv, Step, Told;
    match v.drivers[d]
    case Opening(_, _, _, _, _) => OpeningTold(v, d, c, replayed, key);
    case Judged(_, _, _, _, _) => JudgedTold(v, d, c, replayed, key);
    case RefundAnswered(_, _, _) => RecordTold(v, d, c, replayed, key);
    case Replaying(_, _, _) => ReplayTold(v, d, c, replayed, key);
    case _ => NothingTold(v, d, c, replayed, key);
  }

  lemma NothingTold(v: World, d: int, c: Choice, replayed: bool, key: string)
    requires d in v.drivers && PlacePc(v.drivers[d], key)
    requires !v.drivers[d].Opening? && !v.drivers[d].Judged? && !v.drivers[d].RefundAnswered?
             && !v.drivers[d].Replaying?
    ensures Told(Step(v, Go(d, c)), LastWord(v, d, c, replayed), key)
  {}

  lemma PlaceMoves(v: World, d: int, c: Choice, key: string)
    requires d in v.drivers && PlacePc(v.drivers[d], key)
    ensures var u := Step(v, Go(d, c)); d in u.drivers && PlacePc(u.drivers[d], key) && !u.drivers[d].Opening?
  {}

  /** Whatever place answers is true when it answers: a response is the stored one of the order the key names;
      "closed" means failed or cancelled unpaid, "in progress" pending; a declined payment has closed
      its order; a lost hold has its refund on record; without a hold no order has the key. */
  lemma {:induction false} PlaceTellsTheTruth(w: World, d: int, plan: seq<Moment>, replayed: bool, key: string)
    requires Inv(w) && d in w.drivers && PlacePc(w.drivers[d], key) && PlanFor(plan, d)
    ensures Told(Drive(w, d, plan), PlaceReply(w, d, plan, replayed), key)
    decreases |plan|
  {
    hide Inv, Step, LastWord, PlacePc;
    if plan != [] && !Unused(w, d) {
      var u := Exec(w, plan[0].others);
      ForeignKeeps(w, plan[0].others, d);
      ExecInv(w, plan[0].others);
      StepInv(u, Go(d, plan[0].c));
      PlaceMoves(u, d, plan[0].c, key);
      var v := Next(w, d, plan[0]);
      if Unused(v, d) {
        LastWordIsTrue(u, d, plan[0].c, replayed, key);
        assert Drive(v, d, plan[1..]) == v;
      } else {
        var flag := replayed || (w.drivers[d].Opening? && v.drivers[d].Replaying?);
        PlaceTellsTheTruth(v, d, plan[1..], flag, key);
      }
    }
  }

  lemma {:induction false} ReplayedStays(w: World, d: int, plan: seq<Moment>, replayed: bool, key: string)
    requires d in w.drivers && PlacePc(w.drivers[d], key) && !w.drivers[d].Opening? && PlanFor(plan, d)
    ensures var r := PlaceReply(w, d, plan, replayed); r.Placed? ==> r.replayed == replayed
    decreases |plan|
  {
    hide Step, PlacePc;
    if plan != [] && !Unused(w, d) {
      ForeignKeeps(w, plan[0].others, d);
      PlaceMoves(Exec(w, plan[0].others), d, plan[0].c, key);
      ReplayedStays(Next(w, d, plan[0]), d, plan[1..], replayed, key);
    }
  }

  /** A response is marked as replayed exactly when the key was in use as the call's first transaction ran. */
  lemma ReplayedMeansKeyInUse(w: World, d: int, plan: seq<Moment>, key: string)
    requires d in w.drivers && w.drivers[d].Opening? && PlacePc(w.drivers[d], key) && PlanFor(plan, d)
    ensures var r := PlaceReply(w, d, plan, false);
            r.Placed? ==> plan != [] && (r.replayed <==> key in Exec(w, plan[0].others).db.keys)
  {
    if plan != [] {
      var u := Exec(w, plan[0].others);
      ForeignKeeps(w, plan[0].others, d);
      FirstStep(u, d, plan[0].c, key);
      PlaceMoves(u, d, plan[0].c, key);
      hide Step, PlacePc;
      var v := Next(w, d, plan[0]);
      if !Unused(v, d) { ReplayedStays(v, d, plan[1..], v.drivers[d].Replaying?, key); }
    }
  }

  lemma FirstStep(u: World, d: int, c: Choice, key: string)
    requires d in u.drivers && u.drivers[d].Opening? && PlacePc(u.drivers[d], key)
    ensures var v := Step(u, Go(d, c));
            && d in v.drivers && (!v.drivers[d].Done? ==> (v.drivers[d].Replaying? <==> key in u.db.keys))
            && (v.drivers[d].Done? ==> !LastWord(u, d, c, false).Placed?)
  {}

  // ---- whose order it is

  /** The order a call works on is this buyer's, for these seats. */
  predicate OrderFor(db: Db, o: int, schedule: int, user: int, ids: seq<int>) {
    o in db.orders && db.orders[o].user == user && db.orders[o].schedule == schedule && db.orders[o].seatIds == ids
  }

  predicate WorksFor(db: Db, pc: Pc, schedule: int, user: int, ids: seq<int>) {
    match pc
    case Sending(o, _, _) => OrderFor(db, o, schedule, user, ids)
    case Waiting(o, _, _) => OrderFor(db, o, schedule, user, ids)
    case Judged(o, _, _, _, _) => OrderFor(db, o, schedule, user, ids)
    case Refunding(o, _, _) => OrderFor(db, o, schedule, user, ids)
    case RefundAnswered(o, _, _) => OrderFor(db, o, schedule, user, ids)
    case Replaying(o, _, _) => OrderFor(db, o, schedule, user, ids)
    case Done => true
    case _ => false
  }

  lemma OrderStays(w: World, ls: seq<Label>, o: int, schedule: int, user: int, ids: seq<int>)
    requires Inv(w) && OrderFor(w.db, o, schedule, user, ids)
    ensures OrderFor(Exec(w, ls).db, o, schedule, user, ids)
  {
    hide Inv, Step, Apply;
    TablesAreSound(w);
    SagaIsAHistory(w, ls);
    HistoryKeeps(w.db, CommittedIn(w, ls));
    assert OrderLater(w.db.orders[o], Exec(w, ls).db.orders[o]);
  }

  lemma WorkStays(w: World, ls: seq<Label>, pc: Pc, schedule: int, user: int, ids: seq<int>)
    requires Inv(w) && WorksFor(w.db, pc, schedule, user, ids)
    ensures WorksFor(Exec(w, ls).db, pc, schedule, user, ids)
  {
    hide Inv, Exec;
    if !pc.Done? { OrderStays(w, ls, pc.order, schedule, user, ids); }
  }

  lemma SameOrder(v: World, d: int, c: Choice, key: string)
    requires d in v.drivers && PlacePc(v.drivers[d], key) && !v.drivers[d].Opening? && !v.drivers[d].Done?
    ensures var u := Step(v, Go(d, c));
            d in u.drivers && (!u.drivers[d].Done? ==>
              !u.drivers[d].Opening? && PlacePc(u.drivers[d], key) && u.drivers[d].order == v.drivers[d].order)
    ensures forall replayed :: LastWord(v, d, c, replayed).Placed? ==>
              LastWord(v, d, c, replayed).order == v.drivers[d].order
  {}

  lemma StepWorks(v: World, d: int, c: Choice, key: string, schedule: int, user: int, ids: seq<int>)
    requires Inv(v) && d in v.drivers && PlacePc(v.drivers[d], key) && !v.drivers[d].Opening? && !v.drivers[d].Done?
    requires WorksFor(v.db, v.drivers[d], schedule, user, ids)
    ensures var u := Step(v, Go(d, c)); d in u.drivers && WorksFor(u.db, u.drivers[d], schedule, user, ids)
    ensures OrderFor(Step(v, Go(d, c)).db, v.drivers[d].order, schedule, user, ids)
  {
    hide Inv, Step;
    SameOrder(v, d, c, key);
    ExecOne(v, Go(d, c));
    OrderStays(v, [Go(d, c)], v.drivers[d].order, schedule, user, ids);
  }

  lemma {:induction false} AnsweredOrder(w: World, d: int, plan: seq<Moment>, replayed: bool, key: string,
                                         schedule: int,
                                         user: int, ids: seq<int>)
    requires Inv(w) && d in w.drivers && PlacePc(w.drivers[d], key) && !w.drivers[d].Opening? && PlanFor(plan, d)
    requires WorksFor(w.db, w.drivers[d], schedule, user, ids)
    ensures var r := PlaceReply(w, d, plan, replayed);
            r.Placed? ==> OrderFor(Drive(w, d, plan).db, r.order, schedule, user, ids)
    decreases |plan|
  {
    hide Inv, Step, LastWord, PlacePc, OrderFor, WorksFor;
    if plan != [] && !Unused(w, d) {
      var u := Exec(w, plan[0].others);
      ForeignKeeps(w, plan[0].others, d);
      ExecInv(w, plan[0].others);
      WorkStays(w, plan[0].others, w.drivers[d], schedule, user, ids);
      StepInv(u, Go(d, plan[0].c));
      PlaceMoves(u, d, plan[0].c, key);
      SameOrder(u, d, plan[0].c, key);
      StepWorks(u, d, plan[0].c, key, schedule, user, ids);
      var v := Next(w, d, plan[0]);
      if Unused(v, d) {
        assert Drive(v, d, plan[1..]) == v;
      } else {
        AnsweredOrder(v, d, plan[1..], replayed, key, schedule, user, ids);
      }
    }
  }

  /** A first answer is about what was asked: the order is the caller's and its response names exactly the seats
      of the request, each once, whatever order and repetition they were given in. */
  lemma PlacedIsWhatWasAsked(w: World, d: int, plan: seq<Moment>, key: string, seatIds: seq<int>)
    requires Inv(w) && d in w.drivers && w.drivers[d].Opening? && PlacePc(w.drivers[d], key) && PlanFor(plan, d)
    requires w.drivers[d].ids == Sorted(Members(seatIds))
    ensures var r := PlaceReply(w, d, plan, false);
            var v := Drive(w, d, plan);
            r.Placed? && !r.replayed ==>
              && r.order in v.db.orders && v.db.orders[r.order].user == w.drivers[d].user
              && forall k :: k in r.snapshot.seats <==> k.schedule == w.drivers[d].schedule && k.seat in seatIds
  {
    hide Inv, PlacePc;
    if plan != [] {
      var pc := w.drivers[d];
      var u := Exec(w, plan[0].others);
      var v := Next(w, d, plan[0]);
      ForeignKeeps(w, plan[0].others, d);
      ExecInv(w, plan[0].others);
      FirstStep(u, d, plan[0].c, key);
      PlaceMoves(u, d, plan[0].c, key);
      StepInv(u, Go(d, plan[0].c));
      OpensFor(u, d, plan[0].c, key);
      hide Step;
      if !Unused(v, d) && !v.drivers[d].Replaying? {
        AnsweredOrder(v, d, plan[1..], false, key, pc.schedule, pc.user, pc.ids);
        DriveIsARun(v, d, plan[1..]);
        ExecInv(v, DriveLabels(v, d, plan[1..]));
        PlaceTellsTheTruth(v, d, plan[1..], false, key);
        var r := PlaceReply(w, d, plan, false);
        if r.Placed? { ResponseNames(Drive(w, d, plan), r.order, seatIds); }
      } else if !Unused(v, d) {
        ReplayedStays(v, d, plan[1..], true, key);
      }
    }
  }

  lemma OpensFor(u: World, d: int, c: Choice, key: string)
    requires d in u.drivers && u.drivers[d].Opening? && PlacePc(u.drivers[d], key)
    ensures var v := Step(u, Go(d, c));
            var pc := u.drivers[d];
            d in v.drivers && !v.drivers[d].Opening?
            && (!v.drivers[d].Replaying? ==> WorksFor(v.db, v.drivers[d], pc.schedule, pc.user, pc.ids))
  {}

  lemma ResponseNames(v: World, o: int, seatIds: seq<int>)
    requires Inv(v) && o in v.db.orders && v.db.orders[o].snapshot.Some?
    requires v.db.orders[o].seatIds == Sorted(Members(seatIds))
    ensures forall k :: k in v.db.orders[o].snapshot.value.seats <==>
              k.schedule == v.db.orders[o].schedule && k.seat in seatIds
  {
    TablesAreSound(v);
    var row := v.db.orders[o];
    assert OrderOk(v.db.seats, v.db.items, o, row);
    forall k: SeatKey
      ensures k in OrderKeys(row) <==> k.schedule == row.schedule && k.seat in seatIds
    {
      assert k.seat in row.seatIds <==> k.seat in Members(seatIds);
      assert k.schedule == row.schedule && k.seat in row.seatIds ==> k == SeatKey(row.schedule, k.seat);
    }
  }

  // ---- when it does answer

  /** An approved payment is answered with the stored response, whoever confirmed the order first, this call or a
      webhook or the reconciler, if it can be confirmed now or was paid already and the look is answered. */
  lemma PaidIsPlaced(w: World, d: int, plan: seq<Moment>, replayed: bool)
    requires Inv(w) && NumberedIn(w) && d in w.drivers && w.drivers[d].Judged? && w.drivers[d].ask.AskApprove?
    requires w.drivers[d].answer.result.Approved? && PlanFor(plan, d) && |plan| >= 2
    requires var u := Exec(w, plan[0].others);
             var o := w.drivers[d].order;
             && !plan[0].c.aborts && plan[1].c.heard
             && o in u.db.orders && (EverPaid(u.db.orders[o]) || Confirmable(u.db, o, u.clock))
    ensures var o := w.drivers[d].order;
            var v := Drive(w, d, plan);
            && o in v.db.orders && v.db.orders[o].snapshot.Some?
            && PlaceReply(w, d, plan, replayed) == Placed(o, v.db.orders[o].snapshot.value, replayed)
  {
    hide Inv, NumberedIn, Step, Confirmable;
    var u := Exec(w, plan[0].others);
    ForeignKeeps(w, plan[0].others, d);
    ExecInv(w, plan[0].others);
    ExecNumbered(w, plan[0].others);
    ConfirmGoesOn(u, d, plan[0].c);
    var v := Next(w, d, plan[0]);
    StepInv(u, Go(d, plan[0].c));
    LookIsAnswered(v, d, plan[1..], replayed);
  }

  lemma ConfirmGoesOn(u: World, d: int, c: Choice)
    requires Inv(u) && NumberedIn(u) && d in u.drivers && u.drivers[d].Judged? && u.drivers[d].ask.AskApprove?
    requires u.drivers[d].answer.result.Approved? && !c.aborts && u.drivers[d].order in u.db.orders
    requires EverPaid(u.db.orders[u.drivers[d].order]) || Confirmable(u.db, u.drivers[d].order, u.clock)
    ensures var pc := u.drivers[d];
            var v := Step(u, Go(d, c));
            && d in v.drivers && v.drivers[d] == Replaying(pc.order, pc.key, REPLAY_ATTEMPTS)
            && pc.order in v.db.orders && EverPaid(v.db.orders[pc.order])
  {
    hide Inv, NumberedIn, DbInv, TidFree, Settle, Put;
    DriverKnows(u, d);
    TablesAreSound(u);
    PaidOrPending(u.db, u.drivers[d].order);
    ConfirmIsCaught(u, u.drivers[d].order, u.drivers[d].answer.tid.value);
    ApprovedGo(u, d, c);
  }

  lemma PaidOrPending(db: Db, o: int)
    requires DbInv(db) && o in db.orders
    ensures EverPaid(db.orders[o]) ==> !db.orders[o].status.Pending?
  {
    assert OrderOk(db.seats, db.items, o, db.orders[o]);
  }

  /** A look that is answered finds the stored response. */
  lemma LookIsAnswered(w: World, d: int, plan: seq<Moment>, replayed: bool)
    requires Inv(w) && d in w.drivers && w.drivers[d].Replaying? && PlanFor(plan, d) && plan != [] && plan[0].c.heard
    requires w.drivers[d].order in w.db.orders && EverPaid(w.db.orders[w.drivers[d].order])
    ensures var o := w.drivers[d].order;
            var v := Drive(w, d, plan);
            && o in v.db.orders && v.db.orders[o].snapshot == w.db.orders[o].snapshot
            && PlaceReply(w, d, plan, replayed) == Placed(o, w.db.orders[o].snapshot.value, replayed)
  {
    hide Inv, Step, Exec;
    var o := w.drivers[d].order;
    var u := Exec(w, plan[0].others);
    ForeignKeeps(w, plan[0].others, d);
    ResponseStays(w, plan[0].others, o);
    LookEnds(u, d, plan[0].c, replayed);
    DriveOne(w, d, plan, replayed);
  }

  lemma ResponseStays(w: World, ls: seq<Label>, o: int)
    requires Inv(w) && o in w.db.orders && EverPaid(w.db.orders[o])
    ensures o in Exec(w, ls).db.orders && Exec(w, ls).db.orders[o].snapshot == w.db.orders[o].snapshot
  {
    hide Inv, Step, Apply;
    TablesAreSound(w);
    SagaIsAHistory(w, ls);
    HistoryKeeps(w.db, CommittedIn(w, ls));
    assert OrderLater(w.db.orders[o], Exec(w, ls).db.orders[o]);
  }

  lemma LookEnds(u: World, d: int, c: Choice, replayed: bool)
    requires d in u.drivers && u.drivers[d].Replaying? && c.heard
    requires u.drivers[d].order in u.db.orders && EverPaid(u.db.orders[u.drivers[d].order])
    ensures var o := u.drivers[d].order;
            var v := Step(u, Go(d, c));
            && Unused(v, d) && v.db == u.db
            && LastWord(u, d, c, replayed) == Placed(o, u.db.orders[o].snapshot.value, replayed)
  {
    LookGo(u, d, c);
  }

  lemma DriveOne(w: World, d: int, plan: seq<Moment>, replayed: bool)
    requires plan != [] && !Unused(w, d) && Unused(Next(w, d, plan[0]), d)
    ensures Drive(w, d, plan) == Next(w, d, plan[0])
    ensures PlaceReply(w, d, plan, replayed) == LastWord(Exec(w, plan[0].others), d, plan[0].c, replayed)
  {
    hide Next, LastWord;
    assert Drive(Next(w, d, plan[0]), d, plan[1..]) == Next(w, d, plan[0]);
  }

  /** A second call with the key of an order that was paid is answered with its stored response, as a replay, and
      its own steps change no table. */
  lemma SameKeyIsReplayed(w: World, d: int, plan: seq<Moment>, key: string)
    requires Inv(w) && d in w.drivers && w.drivers[d].Opening? && PlacePc(w.drivers[d], key)
    requires PlanFor(plan, d) && |plan| >= 2 && !plan[0].c.aborts && plan[1].c.heard
    requires var u := Exec(w, plan[0].others);
             key in u.db.keys && u.db.keys[key] in u.db.orders && EverPaid(u.db.orders[u.db.keys[key]])
    ensures var u := Exec(w, plan[0].others);
            var o := u.db.keys[key];
            && PlaceReply(w, d, plan, false) == Placed(o, u.db.orders[o].snapshot.value, true)
            && Next(w, d, plan[0]).db == u.db
  {
    hide Inv, Step;
    var u := Exec(w, plan[0].others);
    ForeignKeeps(w, plan[0].others, d);
    ExecInv(w, plan[0].others);
    DuplicateGo(u, d, plan[0].c, key);
    StepInv(u, Go(d, plan[0].c));
    var v := Next(w, d, plan[0]);
    assert plan[1..][0] == plan[1];
    LookIsAnswered(v, d, plan[1..], true);
  }

  lemma DuplicateGo(u: World, d: int, c: Choice, key: string)
    requires d in u.drivers && u.drivers[d].Opening? && PlacePc(u.drivers[d], key) && !c.aborts && key in u.db.keys
    ensures Step(u, Go(d, c)) == Moved(u, d, Replaying(u.db.keys[key], key, REPLAY_ATTEMPTS))
  {}

  /** Nothing of its own fails in this step: no abort, a reply, a row number that is new. */
  predicate NothingFails(v: World, d: int, c: Choice) {
    && !c.aborts && c.heard
    && (d in v.drivers && v.drivers[d].Opening? ==> c.freshId !in v.db.orders)
  }

  predicate SmoothPlan(w: World, d: int, plan: seq<Moment>)
    decreases |plan|
  {
    plan != [] && !Unused(w, d) ==>
      NothingFails(Exec(w, plan[0].others), d, plan[0].c) && SmoothPlan(Next(w, d, plan[0]), d, plan[1..])
  }

  lemma LastWordIsNoException(v: World, d: int, c: Choice, replayed: bool, key: string)
    requires Inv(v) && NumberedIn(v) && d in v.drivers && PlacePc(v.drivers[d], key) && NothingFails(v, d, c)
    requires !Unused(v, d) && Unused(Step(v, Go(d, c)), d)
    ensures !LastWord(v, d, c, replayed).Raised? && !LastWord(v, d, c, replayed).Stopped?
  {
    hide Inv, NumberedIn, Step;
    match v.drivers[d]
    case Opening(_, _, _, _, _) => OpeningIsNoException(v, d, c, replayed, key);
    case Judged(o, _, answer, _, _) =>
      DriverKnows(v, d);
      hide ConfirmTx, UncaughtOutcome;
      if answer.result.Approved? {
        ApprovalGoesOn(v, d, c);
        assert false;
      } else {
        DeclinedIsNoException(v, d, c, replayed);
      }
    case RefundAnswered(_, _, _) => RecordIsNoException(v, d, c, replayed);
    case Replaying(_, _, _) => LookIsNoException(v, d, c, replayed, key);
    case _ => GoesOn(v, d, c, key);
  }

  lemma OpeningIsNoException(v: World, d: int, c: Choice, replayed: bool, key: string)
    requires d in v.drivers && v.drivers[d].Opening? && PlacePc(v.drivers[d], key) && NothingFails(v, d, c)
    requires Unused(Step(v, Go(d, c)), d)
    ensures !LastWord(v, d, c, replayed).Raised? && !LastWord(v, d, c, replayed).Stopped?
  {}

  /** An approval is never the end: it is confirmed and the response looked up, or refunded. */
  lemma ApprovalGoesOn(v: World, d: int, c: Choice)
    requires Inv(v) && NumberedIn(v) && d in v.drivers && v.drivers[d].Judged? && v.drivers[d].ask.AskApprove?
    requires v.drivers[d].answer.result.Approved? && !c.aborts
    ensures !Unused(Step(v, Go(d, c)), d)
  {
    hide Inv, NumberedIn, Confirmable, TidFree;
    DriverKnows(v, d);
    ConfirmIsCaught(v, v.drivers[d].order, v.drivers[d].answer.tid.value);
    ApprovedGo(v, d, c);
  }

  lemma DeclinedIsNoException(v: World, d: int, c: Choice, replayed: bool)
    requires d in v.drivers && v.drivers[d].Judged? && !v.drivers[d].answer.result.Approved? && !c.aborts
    ensures !LastWord(v, d, c, replayed).Raised? && !LastWord(v, d, c, replayed).Stopped?
  {}

  lemma RecordIsNoException(v: World, d: int, c: Choice, replayed: bool)
    requires Inv(v) && NumberedIn(v) && d in v.drivers && v.drivers[d].RefundAnswered? && !c.aborts
    ensures !LastWord(v, d, c, replayed).Raised? && !LastWord(v, d, c, replayed).Stopped?
  {
    DriverKnows(v, d);
    var tid := v.drivers[d].answer.tid;
    if tid.Some? { assert FreeNumber(v.db.payments, v.pg, v.nextTid, tid.value); }
    hide Inv, NumberedIn, TidFree, Settle;
  }

  lemma LookIsNoException(v: World, d: int, c: Choice, replayed: bool, key: string)
    requires Inv(v) && d in v.drivers && v.drivers[d].Replaying? && c.heard
    ensures !LastWord(v, d, c, replayed).Raised? && !LastWord(v, d, c, replayed).Stopped?
  {
    DriverKnows(v, d);
  }

  lemma GoesOn(v: World, d: int, c: Choice, key: string)
    requires d in v.drivers && PlacePc(v.drivers[d], key)
    requires v.drivers[d].Sending? || v.drivers[d].Waiting? || v.drivers[d].Refunding?
    ensures !Unused(Step(v, Go(d, c)), d)
  {}

  /** Confirming a charge never trips over a constraint. */
  lemma ConfirmIsCaught(v: World, o: int, tid: int)
    requires Inv(v) && NumberedIn(v) && o in v.db.orders && Acc(v.pg, o).tid == Some(tid)
    ensures !UncaughtOutcome(ConfirmTx(v.db, o, tid, v.clock).1)
  {
    assert OrderOk(v.db.seats, v.db.items, o, v.db.orders[o]);
    if v.db.orders[o].status.Pending? { ChargeIsUnused(v, o); }
  }

  /** place ends in an exception only when one of its own steps fails: an aborted transaction, a lost reply, a row
      number that is taken. Nothing others do can make it. */
  lemma {:induction false} PlaceRaisesOnlyOnFailure(w: World, d: int, plan: seq<Moment>, replayed: bool, key: string)
    requires Inv(w) && NumberedIn(w) && d in w.drivers && PlacePc(w.drivers[d], key) && PlanFor(plan, d)
    requires SmoothPlan(w, d, plan)
    ensures !PlaceReply(w, d, plan, replayed).Raised?
    ensures PlaceReply(w, d, plan, replayed).Stopped? <==> Unused(w, d) || !Unused(Drive(w, d, plan), d)
    decreases |plan|
  {
    hide Inv, NumberedIn, Step, LastWord, PlacePc, NothingFails;
    if plan != [] && !Unused(w, d) {
      var u := Exec(w, plan[0].others);
      ForeignKeeps(w, plan[0].others, d);
      ExecInv(w, plan[0].others);
      ExecNumbered(w, plan[0].others);
      StepInv(u, Go(d, plan[0].c));
      StepNumbered(u, Go(d, plan[0].c));
      PlaceMoves(u, d, plan[0].c, key);
      var v := Next(w, d, plan[0]);
      if Unused(v, d) {
        LastWordIsNoException(u, d, plan[0].c, replayed, key);
        assert Drive(v, d, plan[1..]) == v;
      } else {
        var flag := replayed || (w.drivers[d].Opening? && v.drivers[d].Replaying?);
        PlaceRaisesOnlyOnFailure(v, d, plan[1..], flag, key);
      }
    }
  }

  // ------------------------------------------------------------------ cancel

  predicate CancelPc(pc: Pc, order: int, today: int, showDay: int) {
    match pc
    case CancelReading(o, t, s) => o == order && t == today && s == showDay
    case CancelRefunding(o, _, _) => o == order
    case CancelAnswered(o, _, _) => o == order
    case Done => true
    case _ => false
  }

  /** A failed refund of the order is on record, with the fee it would have cost. */
  predicate FailureOnRecord(ps: seq<PaymentRow>, order: int) {
    exists i :: 0 <= i < |ps| && ps[i].order == order && ps[i].status.Failed? && ps[i].fee.Some? && ps[i].tid.None?
  }

  ghost predicate CancelTold(v: World, r: CancelResult, order: int, today: int, showDay: int) {
    match r
    case CanceledOrder(fee) =>
      && order in v.db.orders && !v.db.orders[order].status.Paid? && EverPaid(v.db.orders[order])
      && RefundSaid(order, PayResult.Approved) in v.said
      && exists refund: nat :: FeeRead(v.said, order, v.db.orders[order].total, FeeSnapshot(fee, refund))
    case RefundFailed =>
      && order in v.db.orders && FailureOnRecord(v.db.payments, order)
      && exists result :: RefundSaid(order, result) in v.said && !result.Approved?
    case NotCancelable => order !in v.db.orders || !v.db.orders[order].status.Paid? || showDay <= today
    case CancelRaised => true
    case CancelStopped => true
  }

  lemma ReadTold(v: World, d: int, c: Choice, order: int, today: int, showDay: int)
    requires Inv(v) && d in v.drivers && v.drivers[d].CancelReading? && CancelPc(v.drivers[d], order, today, showDay)
    requires Unused(Step(v, Go(d, c)), d)
    ensures CancelTold(Step(v, Go(d, c)), LastCancelWord(v, d, c), order, today, showDay)
  {
    hide Inv, DbInv, ApprovedTid, CancelFee;
    TablesAreSound(v);
    if order in v.db.orders && v.db.orders[order].status.Paid? {
      PaidHasApproval(v.db, order);
      FeeBands(v.db.orders[order].total, today, showDay);
    }
  }

  lemma PaidHasApproval(db: Db, id: int)
    requires DbInv(db) && id in db.orders && db.orders[id].status.Paid?
    ensures ApprovedTid(db.payments, id).Some?
  {
    assert OrderOk(db.seats, db.items, id, db.orders[id]) && CountOk(db.payments, id, db.orders[id]);
    ApprovalFound(db.orders, db.payments, id);
  }

  lemma {:induction false} ApprovalFound(orders: Orders, ps: seq<PaymentRow>, id: int)
    requires (forall i :: 0 <= i < |ps| ==> PaymentOk(orders, ps[i])) && Count(ps, id, PayStatus.Approved) > 0
    ensures ApprovedTid(ps, id).Some?
  {
    var p := ps[|ps| - 1];
    assert PaymentOk(orders, p);
    if !(p.order == id && p.status.Approved?) { ApprovalFound(orders, ps[..|ps| - 1], id); }
  }

  lemma AnsweredTold(v: World, d: int, c: Choice, order: int, today: int, showDay: int)
    requires Inv(v) && d in v.drivers && v.drivers[d].CancelAnswered? && CancelPc(v.drivers[d], order, today, showDay)
    ensures CancelTold(Step(v, Go(d, c)), LastCancelWord(v, d, c), order, today, showDay)
  {
    hide Inv, Put, TidFree;
    DriverKnows(v, d);
    CancelRecordGo(v, d, c);
    var pc := v.drivers[d];
    var u := Step(v, Go(d, c));
    if !c.aborts && !pc.answer.result.Approved? {
      RefusalLeaves(v.db, order, pc.fee, v.clock);
      assert u.db.payments[|v.db.payments|].order == order;
      assert RefundSaid(order, pc.answer.result) in u.said;
    }
  }

  lemma CancelMoves(v: World, d: int, c: Choice, order: int, today: int, showDay: int)
    requires d in v.drivers && CancelPc(v.drivers[d], order, today, showDay)
    ensures var u := Step(v, Go(d, c)); d in u.drivers && CancelPc(u.drivers[d], order, today, showDay)
    ensures v.drivers[d].CancelRefunding? ==> Step(v, Go(d, c)).drivers[d].CancelAnswered?
  {}

  /** Whatever cancel answers is true when it answers: success means the refund was approved, the order is not paid
      any more and the fee is the policy's; a failed refund was not approved and is on record; a refusal
      means the order is not paid or the show is not later. */
  lemma {:induction false} CancelTellsTheTruth(w: World, d: int, plan: seq<Moment>, order: int, today: int,
                                               showDay: int)
    requires Inv(w) && d in w.drivers && CancelPc(w.drivers[d], order, today, showDay) && PlanFor(plan, d)
    ensures CancelTold(Drive(w, d, plan), CancelReply(w, d, plan), order, today, showDay)
    decreases |plan|
  {
    hide Inv, Step, CancelPc, LastCancelWord;
    if plan != [] && !Unused(w, d) {
      var u := Exec(w, plan[0].others);
      ForeignKeeps(w, plan[0].others, d);
      ExecInv(w, plan[0].others);
      StepInv(u, Go(d, plan[0].c));
      CancelMoves(u, d, plan[0].c, order, today, showDay);
      var v := Next(w, d, plan[0]);
      if Unused(v, d) {
        LastCancelIsTrue(u, d, plan[0].c, order, today, showDay);
        assert Drive(v, d, plan[1..]) == v;
      } else {
        CancelTellsTheTruth(v, d, plan[1..], order, today, showDay);
      }
    }
  }

  lemma LastCancelIsTrue(v: World, d: int, c: Choice, order: int, today: int, showDay: int)
    requires Inv(v) && d in v.drivers && CancelPc(v.drivers[d], order, today, showDay) && !Unused(v, d)
    requires Unused(Step(v, Go(d, c)), d)
    ensures CancelTold(Step(v, Go(d, c)), LastCancelWord(v, d, c), order, today, showDay)
  {
    hide Inv, Step, CancelTold;
    CancelMoves(v, d, c, order, today, showDay);
    if v.drivers[d].CancelReading? { ReadTold(v, d, c, order, today, showDay); }
    else { AnsweredTold(v, d, c, order, today, showDay); }
  }

  lemma CancelIsNoException(v: World, d: int, c: Choice)
    requires Inv(v) && NumberedIn(v) && d in v.drivers && !c.aborts
    ensures !LastCancelWord(v, d, c).CancelRaised?
  {
    if v.drivers[d].CancelAnswered? {
      DriverKnows(v, d);
      var tid := v.drivers[d].answer.tid;
      if tid.Some? { assert FreeNumber(v.db.payments, v.pg, v.nextTid, tid.value); }
    }
    hide Inv, NumberedIn, TidFree;
  }

  /** cancel, too, ends in an exception only when its own transaction aborts. */
  lemma {:induction false} CancelRaisesOnlyOnAbort(w: World, d: int, plan: seq<Moment>, order: int, today: int,
                                                   showDay: int)
    requires Inv(w) && NumberedIn(w) && d in w.drivers && CancelPc(w.drivers[d], order, today, showDay)
    requires PlanFor(plan, d) && forall i :: 0 <= i < |plan| ==> !plan[i].c.aborts
    ensures !CancelReply(w, d, plan).CancelRaised?
    decreases |plan|
  {
    hide Inv, NumberedIn, Step, LastCancelWord, CancelPc;
    if plan != [] && !Unused(w, d) {
      var u := Exec(w, plan[0].others);
      ForeignKeeps(w, plan[0].others, d);
      ExecInv(w, plan[0].others);
      ExecNumbered(w, plan[0].others);
      StepInv(u, Go(d, plan[0].c));
      StepNumbered(u, Go(d, plan[0].c));
      CancelMoves(u, d, plan[0].c, order, today, showDay);
      if Unused(Next(w, d, plan[0]), d) {
        CancelIsNoException(u, d, plan[0].c);
      } else {
        CancelRaisesOnlyOnAbort(Next(w, d, plan[0]), d, plan[1..], order, today, showDay);
      }
    }
  }
}

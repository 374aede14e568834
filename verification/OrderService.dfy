/** place, reconcile and cancel (app/service/order_service.py) as programs over the tables.

    A call of the service is a driver of the saga machine. Between two of its steps anything may
    happen: `plan` lists, await by await, what others do first (`others`, any labels of the machine
    that do not touch this driver) and how the step itself turns out (`c`: a transaction aborts,
    a reply is lost). A plan that runs out is a process that stops. Each method is proved to take
    the world exactly where the machine's driver takes it, so what SagaSafety and SagaMoney prove
    of every run holds of every use of these methods. */
module OrderService {
  import opened Domain
  import opened Tables
  import opened Transactions
  import opened Invariants
  import opened History
  import opened Statements
  import opened OrderTransactions
  import opened Saga
  import opened SagaSafety

  datatype Moment = Moment(others: seq<Label>, c: Choice)

  /** A label that leaves driver `d` alone. */
  predicate Foreign(l: Label, d: int) {
    match l
    case Go(e, _) => e != d
    case Stop(e) => e != d
    case StartPlace(e, _, _, _, _, _) => e != d
    case StartReconcile(e, _) => e != d
    case StartCancel(e, _, _, _) => e != d
    case _ => true
  }

  predicate AllForeign(ls: seq<Label>, d: int) {
    forall i :: 0 <= i < |ls| ==> Foreign(ls[i], d)
  }

  predicate PlanFor(plan: seq<Moment>, d: int) {
    forall i :: 0 <= i < |plan| ==> AllForeign(plan[i].others, d)
  }

  /** One moment: others first, then this driver's step. */
  function Next(w: World, d: int, m: Moment): World {
    Step(Exec(w, m.others), Go(d, m.c))
  }

  /** The machine, following a plan until the driver is done or the plan is over. */
  function Drive(w: World, d: int, plan: seq<Moment>): World
    decreases |plan|
  {
    if plan == [] || Unused(w, d) then w else Drive(Next(w, d, plan[0]), d, plan[1..])
  }

  /** The run it amounts to. */
  function DriveLabels(w: World, d: int, plan: seq<Moment>): seq<Label>
    decreases |plan|
  {
    if plan == [] || Unused(w, d) then []
    else plan[0].others + [Go(d, plan[0].c)] + DriveLabels(Next(w, d, plan[0]), d, plan[1..])
  }

  lemma ExecOne(w: World, l: Label)
    ensures Exec(w, [l]) == Step(w, l)
  {
    assert [l][1..] == [];
    assert Exec(w, [l]) == Exec(Step(w, l), [l][1..]);
  }

  /** Following a plan is a run of the machine. */
  lemma {:induction false} DriveIsARun(w: World, d: int, plan: seq<Moment>)
    ensures Drive(w, d, plan) == Exec(w, DriveLabels(w, d, plan))
    decreases |plan|
  {
    if plan != [] && !Unused(w, d) {
      var m := plan[0];
      var v := Exec(w, m.others);
      DriveIsARun(Step(v, Go(d, m.c)), d, plan[1..]);
      ExecOne(v, Go(d, m.c));
      ExecAppend(w, m.others, [Go(d, m.c)]);
      ExecAppend(w, m.others + [Go(d, m.c)], DriveLabels(Step(v, Go(d, m.c)), d, plan[1..]));
    }
  }

  /** So a call of the service, from its start, is a run of the machine. */
  lemma CallIsARun(w: World, start: Label, d: int, plan: seq<Moment>)
    ensures Drive(Step(w, start), d, plan) == Exec(w, [start] + DriveLabels(Step(w, start), d, plan))
  {
    DriveIsARun(Step(w, start), d, plan);
    ExecOne(w, start);
    ExecAppend(w, [start], DriveLabels(Step(w, start), d, plan));
  }

  lemma DriveNext(w: World, d: int, plan: seq<Moment>, i: nat)
    requires i < |plan| && !Unused(w, d)
    ensures Drive(w, d, plan[i..]) == Drive(Next(w, d, plan[i]), d, plan[i + 1..])
  {
    assert plan[i..][1..] == plan[i + 1..];
  }

  /** Does this driver's own confirm_paid, called while it follows the plan, return True? */
  predicate Confirms(w: World, d: int, plan: seq<Moment>)
    decreases |plan|
  {
    if plan == [] || Unused(w, d) then false
    else ConfirmsNow(Exec(w, plan[0].others), d, plan[0].c) || Confirms(Next(w, d, plan[0]), d, plan[1..])
  }

  predicate ConfirmsNow(v: World, d: int, c: Choice) {
    && d in v.drivers && v.drivers[d].Judged? && !c.aborts
    && v.drivers[d].answer.result.Approved? && v.drivers[d].answer.tid.Some?
    && ConfirmTx(v.db, v.drivers[d].order, v.drivers[d].answer.tid.value, v.clock).1.Confirmed?
  }

  /** Does an exception escape the call while it follows the plan? An aborted transaction, an approval
      without a number, a constraint nobody catches. */
  predicate Escapes(w: World, d: int, plan: seq<Moment>)
    decreases |plan|
  {
    if plan == [] || Unused(w, d) then false
    else Throws(Exec(w, plan[0].others), d, plan[0].c) || Escapes(Next(w, d, plan[0]), d, plan[1..])
  }

  predicate Throws(v: World, d: int, c: Choice) {
    d in v.drivers &&
    match v.drivers[d]
    case Judged(order, _, answer, _, _) =>
      && !answer.result.Unknown?
      && (c.aborts || (answer.result.Approved?
                       && (answer.tid.None? || UncaughtOutcome(ConfirmTx(v.db, order, answer.tid.value, v.clock).1))))
    case RefundAnswered(order, amount, answer) =>
      c.aborts || RefundTx(v.db, order, amount, answer.result.Approved?, answer.tid).1.Aborted?
    case _ => false
  }

  predicate UncaughtOutcome(out: Outcome) {
    out.NoSuchOrder? || out.Aborted?
  }

  predicate ConfirmOutcome(out: Outcome) {
    out.Confirmed? || out.AlreadySettled? || out.HoldExpired? || UncaughtOutcome(out)
  }

  lemma JudgedFacts(v: World, d: int, c: Choice)
    requires d in v.drivers && v.drivers[d].Judged?
    ensures var pc := v.drivers[d];
            var called := pc.answer.result.Approved? && pc.answer.tid.Some? && !c.aborts;
            && (called ==>
                  var out := ConfirmTx(v.db, pc.order, pc.answer.tid.value, v.clock).1;
                  ConfirmOutcome(out) && ConfirmsNow(v, d, c) == out.Confirmed?
                    && Throws(v, d, c) == UncaughtOutcome(out))
            && (!called ==>
                !ConfirmsNow(v, d, c)
                  && Throws(v, d, c) == (!pc.answer.result.Unknown? && (c.aborts || pc.answer.result.Approved?)))
  {}

  /** Several orders, one after the other. */
  function Turns(w: World, d: int, orders: seq<int>, plans: seq<seq<Moment>>): World
    requires |orders| <= |plans|
  {
    if orders == [] then w
    else
      var n := |orders| - 1;
      Drive(Step(Turns(w, d, orders[..n], plans), StartReconcile(d, orders[n])), d, plans[n])
  }

  /** The orders among them that this driver confirmed. */
  function ConfirmedBy(w: World, d: int, orders: seq<int>, plans: seq<seq<Moment>>): seq<int>
    requires |orders| <= |plans|
  {
    if orders == [] then []
    else
      var n := |orders| - 1;
      var before := Turns(w, d, orders[..n], plans);
      ConfirmedBy(w, d, orders[..n], plans)
      + if Confirms(Step(before, StartReconcile(d, orders[n])), d, plans[n]) then [orders[n]] else []
  }

  /** Does the turn of candidate `i` end in an exception? */
  predicate EscapesAt(w: World, d: int, orders: seq<int>, i: nat, plans: seq<seq<Moment>>)
    requires i < |orders| <= |plans|
  {
    Escapes(Step(Turns(w, d, orders[..i], plans), StartReconcile(d, orders[i])), d, plans[i])
  }

  lemma OneMoreTurn(w: World, d: int, orders: seq<int>, i: nat, plans: seq<seq<Moment>>)
    requires i < |orders| <= |plans|
    ensures var started := Step(Turns(w, d, orders[..i], plans), StartReconcile(d, orders[i]));
            && Turns(w, d, orders[..i + 1], plans) == Drive(started, d, plans[i])
            && ConfirmedBy(w, d, orders[..i + 1], plans)
               == ConfirmedBy(w, d, orders[..i], plans) + if Confirms(started, d, plans[i]) then [orders[i]] else []
  {
    assert orders[..i + 1][..i] == orders[..i];
  }

  /** Orders stay. */
  lemma DriveKeepsOrders(w: World, d: int, plan: seq<Moment>, order: int)
    requires Inv(w) && order in w.db.orders
    ensures order in Drive(w, d, plan).db.orders
  {
    DriveIsARun(w, d, plan);
    var ls := DriveLabels(w, d, plan);
    SagaIsAHistory(w, ls);
    HistoryKeeps(w.db, CommittedIn(w, ls));
  }

  predicate AllKnown(w: World, ids: seq<int>) {
    forall k :: 0 <= k < |ids| ==> ids[k] in w.db.orders
  }

  lemma TurnKeepsOrders(w: World, d: int, order: int, plan: seq<Moment>, ids: seq<int>)
    requires Inv(w) && AllKnown(w, ids)
    ensures AllKnown(Drive(Step(w, StartReconcile(d, order)), d, plan), ids)
  {
    StepInv(w, StartReconcile(d, order));
    forall k | 0 <= k < |ids| { DriveKeepsOrders(Step(w, StartReconcile(d, order)), d, plan, ids[k]); }
  }

  lemma {:induction false} ForeignKeeps(w: World, ls: seq<Label>, d: int)
    requires d in w.drivers && AllForeign(ls, d)
    ensures d in Exec(w, ls).drivers && Exec(w, ls).drivers[d] == w.drivers[d]
    decreases |ls|
  {
    if ls != [] {
      assert Foreign(ls[0], d);
      ForeignStep(w, ls[0], d);
      ForeignKeeps(Step(w, ls[0]), ls[1..], d);
    }
  }

  lemma ForeignStep(w: World, l: Label, d: int)
    requires d in w.drivers && Foreign(l, d)
    ensures d in Step(w, l).drivers && Step(w, l).drivers[d] == w.drivers[d]
  {
    if l.Go? && l.d in w.drivers {
      MovesOnlyItself(w, l.d, l.c, d);
    }
  }

  lemma MovesOnlyItself(w: World, e: int, c: Choice, d: int)
    requires e in w.drivers && d in w.drivers && e != d
    ensures d in Advance(w, e, w.drivers[e], c).drivers && Advance(w, e, w.drivers[e], c).drivers[d] == w.drivers[d]
  {}

  /** What one look of the replay loop finds. */
  function Found(db: Db, order: int, heard: bool): Option<Snapshot> {
    if heard && order in db.orders then db.orders[order].snapshot else None
  }

  lemma LookGo(w: World, d: int, c: Choice)
    requires d in w.drivers && w.drivers[d].Replaying?
    ensures var pc := w.drivers[d];
            var found := Found(w.db, pc.order, c.heard);
            var again := c.heard && pc.order in w.db.orders && w.db.orders[pc.order].status.Pending? && pc.polls > 1;
            var said := if found.Some? then {Return(pc.key, pc.order, found.value)} else {};
            var next := if found.None? && again then pc.(polls := pc.polls - 1) else Done;
            Step(w, Go(d, c)) == w.(returned := w.returned + said, drivers := w.drivers[d := next])
  {}

  /** A question that is not answered concludes nothing: when place or reconcile hears no reply, its own
      steps change no table, it ends, and only what others do in between is seen. */
  lemma SilenceConcludesNothing(w: World, d: int, plan: seq<Moment>)
    requires d in w.drivers && (w.drivers[d].Waiting? || (w.drivers[d].Inquiring? && w.drivers[d].order in w.db.orders))
    requires Inv(w) && PlanFor(plan, d) && |plan| >= 2 && !plan[0].c.heard
    ensures var asked := Next(w, d, plan[0]);
            var v := Drive(w, d, plan);
            && asked.db == Exec(w, plan[0].others).db && v.db == Exec(asked, plan[1].others).db
            && v.drivers == Exec(asked, plan[1].others).drivers[d := Done] && v.pg == Exec(asked, plan[1].others).pg
  {
    hide Inv, Step, Exec;
    var m, n := plan[0], plan[1];
    ForeignKeeps(w, m.others, d);
    StillKnown(w, m.others);
    SilentStep(Exec(w, m.others), d, m.c);
    var asked := Next(w, d, m);
    ForeignKeeps(asked, n.others, d);
    UnknownStep(Exec(asked, n.others), d, n.c);
    DriveTwo(w, d, plan);
  }

  lemma DriveTwo(w: World, d: int, plan: seq<Moment>)
    requires |plan| >= 2 && !Unused(w, d) && !Unused(Next(w, d, plan[0]), d)
    requires Unused(Next(Next(w, d, plan[0]), d, plan[1]), d)
    ensures Drive(w, d, plan) == Next(Next(w, d, plan[0]), d, plan[1])
  {
    hide Next, Unused;
    var rest := plan[1..];
    assert rest[0] == plan[1];
    assert Drive(Next(w, d, plan[0]), d, rest) == Drive(Next(Next(w, d, plan[0]), d, plan[1]), d, rest[1..]);
  }

  lemma StillKnown(w: World, ls: seq<Label>)
    requires Inv(w)
    ensures w.db.orders.Keys <= Exec(w, ls).db.orders.Keys
  {
    hide Inv, Step, Apply;
    TablesAreSound(w);
    SagaIsAHistory(w, ls);
    HistoryKeeps(w.db, CommittedIn(w, ls));
    forall id | id in w.db.orders
      ensures id in Exec(w, ls).db.orders
    {
      assert OrderLater(w.db.orders[id], Exec(w, ls).db.orders[id]);
    }
  }

  lemma SilentStep(w: World, d: int, c: Choice)
    requires d in w.drivers && (w.drivers[d].Waiting? || (w.drivers[d].Inquiring? && w.drivers[d].order in w.db.orders))
    requires !c.heard
    ensures var v := Step(w, Go(d, c));
            v.db == w.db && d in v.drivers && v.drivers[d].Judged? && v.drivers[d].answer == SILENCE
  {}

  lemma UnknownStep(w: World, d: int, c: Choice)
    requires d in w.drivers && w.drivers[d].Judged? && w.drivers[d].answer == SILENCE
    ensures Step(w, Go(d, c)) == Moved(w, d, Done)
  {}

  // ------------------------------------------------------------------ what the callers get

  datatype PlaceResult =
    | Rejected                                                      // empty seat list
    | Placed(order: int, snapshot: Snapshot, replayed: bool)
    | NoHold                                                        // HoldExpired before any payment
    | HoldLost(order: int)                                          // HoldExpired after an approval
    | PaymentDeclined(order: int)
    | PaymentUnknown(order: int)
    | ClosedWithoutResponse(order: int)
    | InProgress(order: int)
    | Raised                                                        // any other exception
    | Stopped

  /** How a helper, or one turn of the reconciler, ends. */
  datatype Ending = Finished | Raising | Halted

  datatype CancelResult =
    | NotCancelable                                                 // not paid, no approval, or too late
    | RefundFailed
    | CanceledOrder(fee: nat)
    | CancelRaised
    | CancelStopped

  /** What place answers when the step `c` of its driver in world `v` is the last one. */
  function LastWord(v: World, d: int, c: Choice, replayed: bool): PlaceResult {
    if d !in v.drivers then Stopped
    else
      match v.drivers[d]
      case Opening(schedule, user, ids, key, minRemaining) =>
        if !c.aborts && OpenTx(v.db, c.freshId, schedule, user, ids, key, minRemaining, v.clock).1.HoldExpired?
          then NoHold else Raised
      case Judged(order, _, answer, _, _) =>
        if answer.result.Unknown? then PaymentUnknown(order)
        else if answer.result.Declined? && !c.aborts then PaymentDeclined(order)
        else Raised
      case RefundAnswered(order, _, _) => if Throws(v, d, c) then Raised else HoldLost(order)
      case Replaying(order, key, polls) =>
        if !c.heard || order !in v.db.orders then Raised
        else if v.db.orders[order].snapshot.Some? then Placed(order, v.db.orders[order].snapshot.value, replayed)
        else if !v.db.orders[order].status.Pending? then ClosedWithoutResponse(order)
        else InProgress(order)
      case _ => Stopped
  }

  /** The answer of place, read off the machine: `replayed` once a first step found the key in use. */
  function PlaceReply(w: World, d: int, plan: seq<Moment>, replayed: bool): PlaceResult
    decreases |plan|
  {
    if plan == [] || Unused(w, d) then Stopped
    else
      var u := Next(w, d, plan[0]);
      if Unused(u, d) then LastWord(Exec(w, plan[0].others), d, plan[0].c, replayed)
      else PlaceReply(u, d, plan[1..], replayed || (d in w.drivers && w.drivers[d].Opening? && u.drivers[d].Replaying?))
  }

  lemma PlaceReplyNext(w: World, d: int, plan: seq<Moment>, i: nat, replayed: bool)
    requires i < |plan| && !Unused(w, d) && !w.drivers[d].Opening?
    ensures var u := Next(w, d, plan[i]);
            PlaceReply(w, d, plan[i..], replayed)
            == if Unused(u, d) then LastWord(Exec(w, plan[i].others), d, plan[i].c, replayed)
              else PlaceReply(u, d, plan[i + 1..], replayed)
  {
    assert plan[i..][1..] == plan[i + 1..];
  }

  lemma PlaceReplyFirst(w: World, d: int, plan: seq<Moment>)
    requires plan != [] && !Unused(w, d)
    ensures var u := Next(w, d, plan[0]);
            && PlaceReply(w, d, plan, false)
               == (if Unused(u, d) then LastWord(Exec(w, plan[0].others), d, plan[0].c, false)
                   else PlaceReply(u, d, plan[1..], w.drivers[d].Opening? && u.drivers[d].Replaying?))
            && Drive(w, d, plan) == Drive(u, d, plan[1..])
  {}

  /** A refund is nobody's last step, and neither confirms nor raises. */
  lemma RefundGoesOn(w: World, d: int, plan: seq<Moment>)
    requires plan != [] && d in w.drivers && w.drivers[d].Refunding? && AllForeign(plan[0].others, d)
    requires var u := Next(w, d, plan[0]); d in u.drivers && u.drivers[d].RefundAnswered?
    ensures var u := Next(w, d, plan[0]);
            && Drive(w, d, plan) == Drive(u, d, plan[1..])
            && Confirms(w, d, plan) == Confirms(u, d, plan[1..])
            && Escapes(w, d, plan) == Escapes(u, d, plan[1..])
            && PlaceReply(w, d, plan, false) == PlaceReply(u, d, plan[1..], false)
  {
    ForeignKeeps(w, plan[0].others, d);
  }

  /** The answer of cancel, read off the machine. */
  function CancelReply(w: World, d: int, plan: seq<Moment>): CancelResult
    decreases |plan|
  {
    if plan == [] || Unused(w, d) then CancelStopped
    else
      var u := Next(w, d, plan[0]);
      if Unused(u, d) then LastCancelWord(Exec(w, plan[0].others), d, plan[0].c) else CancelReply(u, d, plan[1..])
  }

  lemma CancelReplyNext(w: World, d: int, plan: seq<Moment>)
    requires plan != [] && !Unused(w, d) && !Unused(Next(w, d, plan[0]), d)
    ensures CancelReply(w, d, plan) == CancelReply(Next(w, d, plan[0]), d, plan[1..])
    ensures Drive(w, d, plan) == Drive(Next(w, d, plan[0]), d, plan[1..])
  {}

  function LastCancelWord(v: World, d: int, c: Choice): CancelResult {
    if d !in v.drivers then CancelStopped
    else
      match v.drivers[d]
      case CancelReading(_, _, _) => NotCancelable
      case CancelAnswered(order, fee, answer) =>
        if c.aborts then CancelRaised
        else if !answer.result.Approved? then RefundFailed
        else if CancelTx(v.db, order, fee, answer.tid).1.Aborted? then CancelRaised else CanceledOrder(fee.fee)
      case _ => CancelStopped
  }

  class Service {
    const db: Database
    var clock: int
    var pg: Books
    var nextTid: int
    var drivers: map<int, Pc>
    var said: set<Said>
    var returned: set<Return>

    function W(): World
      reads this, db
    {
      World(db.State(), clock, pg, nextTid, drivers, said, returned)
    }

    ghost predicate Valid()
      reads this, db
    {
      Inv(W())
    }

    constructor (stock: map<SeatKey, nat>, now: int)
      ensures fresh(db) && Start(W()) && Valid()
    {
      db := new Database(stock);
      clock, pg, nextTid, drivers, said, returned := now, map[], 1, map[], {}, {};
      new;
      StartInv(W());
    }

    /** What others do while this driver waits. */
    method Await(ghost d: int, others: seq<Label>)
      requires Valid() && d in drivers && AllForeign(others, d)
      modifies this, db
      ensures Valid() && W() == Exec(old(W()), others)
      ensures d in drivers && drivers[d] == old(drivers)[d]
    {
      hide Inv;
      ExecInv(W(), others);
      ForeignKeeps(W(), others, d);
      var v := Exec(W(), others);
      db.Rollback(v.db);
      clock, pg, nextTid, drivers, said, returned := v.clock, v.pg, v.nextTid, v.drivers, v.said, v.returned;
    }

    // ---------------------------------------------------------------- the gateway

    /** The request part of gateway.approve. */
    method SendApproval(d: int, order: int, amount: nat, key: string, ghost c: Choice)
      requires Valid() && d in drivers && drivers[d] == Sending(order, amount, key)
      modifies this`pg, this`drivers
      ensures Valid() && W() == Step(old(W()), Go(d, c))
      ensures d in drivers && drivers[d] == Waiting(order, amount, key)
    {
      hide Inv;
      StepInv(W(), Go(d, c));
      SendGo(W(), d, c);
      var a := Acc(pg, order);
      pg := pg[order := a.(calls := a.calls + 1, inflight := Some(amount))];
      drivers := drivers[d := Waiting(order, amount, key)];
    }

    /** The reply part: `None` while the gateway has not decided and the caller still listens. */
    method ReceiveApproval(d: int, order: int, amount: nat, key: string, c: Choice) returns (answer: Option<Attempt>)
      requires Valid() && d in drivers && drivers[d] == Waiting(order, amount, key)
      modifies this`said, this`drivers
      ensures Valid() && W() == Step(old(W()), Go(d, c))
      ensures d in drivers && drivers[d]
              == if answer.Some? then Judged(order, AskApprove, answer.value, amount, key) else old(drivers)[d]
    {
      hide Inv;
      ghost var w := W();
      StepInv(w, Go(d, c));
      if c.heard && Acc(pg, order).inflight.Some? {
        return None;
      }
      AwaitGo(W(), d, c);
      ghost var v := Step(W(), Go(d, c));
      var reply := if c.heard then Truth(Acc(pg, order)) else SILENCE;
      said := said + {ApproveSaid(order, reply.result)};
      drivers := drivers[d := Judged(order, AskApprove, reply, amount, key)];
      assert W() == v;
      answer := Some(reply);
    }

    /** gateway.inquire. */
    method Inquire(d: int, order: int, c: Choice) returns (answer: Attempt, total: nat)
      requires Valid() && d in drivers && drivers[d] == Inquiring(order)
      modifies this`said, this`drivers
      ensures Valid() && W() == Step(old(W()), Go(d, c))
      ensures d in drivers && drivers[d] == Judged(order, AskInquire, answer, total, "")
    {
      hide Inv;
      ghost var w := W();
      StepInv(w, Go(d, c));
      DriverKnows(w, d);
      total := db.orders[order].total;
      answer := if c.heard then Truth(Acc(pg, order)) else SILENCE;
      said := said + {InquireSaid(order, answer.result)};
      drivers := drivers[d := Judged(order, AskInquire, answer, total, "")];
    }

    /** gateway.refund. */
    method Refund(ghost d: int, order: int, tid: int, amount: nat, c: Choice) returns (answer: Attempt)
      modifies this`pg, this`nextTid, this`said
      ensures W() == Repaid(old(W()), order, tid, amount, c)
      ensures answer == RefundAnswer(old(W()), order, tid, c)
    {
      hide Inv;
      var a := Acc(pg, order);
      var moves := c.moves && a.tid == Some(tid);
      answer := if !c.heard then SILENCE else if moves then Attempt(PayResult.Approved, Some(nextTid))
        else Attempt(Declined, None);
      if moves {
        pg := pg[order := a.(refunded := a.refunded + amount)];
        nextTid := nextTid + 1;
      }
      said := said + {RefundSaid(order, answer.result)};
    }

    // ---------------------------------------------------------------- steps over the tables

    /** A step that ends the driver and touches nothing: the answer was UNKNOWN, or the transaction
        failed and was rolled back. */
    method Leave(d: int, c: Choice)
      requires Valid() && d in drivers && Step(W(), Go(d, c)) == Moved(W(), d, Done)
      modifies this`drivers
      ensures Valid() && W() == Step(old(W()), Go(d, c))
      ensures drivers == old(drivers)[d := Done]
    {
      hide Inv;
      StepInv(W(), Go(d, c));
      drivers := drivers[d := Done];
    }

    method OpenStepOf(d: int, schedule: int, user: int, ids: seq<int>, key: string, minRemaining: int, c: Choice)
      returns (out: Outcome)
      requires Valid() && d in drivers && drivers[d] == Opening(schedule, user, ids, key, minRemaining)
      requires ids != [] && !c.aborts
      modifies this`drivers, db
      ensures Valid() && W() == Step(old(W()), Go(d, c))
      ensures d in drivers && drivers[d] == AfterOpen(key, out)
      ensures out == OpenTx(old(db.State()), c.freshId, schedule, user, ids, key, minRemaining, clock).1
    {
      hide Inv;
      StepInv(W(), Go(d, c));
      ghost var v := Step(W(), Go(d, c));
      out := OpenPending(db, c.freshId, schedule, user, ids, key, minRemaining, clock);
      drivers := drivers[d := AfterOpen(key, out)];
      assert W() == v;
    }

    method ConfirmStepOf(d: int, order: int, ask: PayAsk, answer: Attempt, total: nat, key: string, c: Choice)
      returns (out: Outcome)
      requires Valid() && d in drivers && drivers[d] == Judged(order, ask, answer, total, key)
      requires answer.result.Approved? && answer.tid.Some? && !c.aborts
      modifies this`drivers, db
      ensures Valid() && W() == Step(old(W()), Go(d, c))
      ensures out == ConfirmTx(old(db.State()), order, answer.tid.value, clock).1
      ensures d in drivers
      ensures drivers[d] == AfterConfirm(old(drivers)[d], out)
    {
      hide Inv;
      StepInv(W(), Go(d, c));
      ApprovedGo(W(), d, c);
      ghost var v := Step(W(), Go(d, c));
      TablesAreSound(W());
      out := ConfirmPaid(db, order, answer.tid.value, clock);
      drivers := drivers[d := AfterConfirm(drivers[d], out)];
      assert W() == v;
    }

    method CloseStepOf(d: int, order: int, ask: PayAsk, answer: Attempt, total: nat, key: string, c: Choice)
      requires Valid() && d in drivers && drivers[d] == Judged(order, ask, answer, total, key)
      requires answer.result.Declined? && !c.aborts
      modifies this`drivers, db
      ensures Valid() && W() == Step(old(W()), Go(d, c))
      ensures drivers == old(drivers)[d := Done]
    {
      hide Inv;
      StepInv(W(), Go(d, c));
      DeclinedGo(W(), d, c);
      ghost var v := Step(W(), Go(d, c));
      var out := CloseOrder(db, order, ClosingStatus(ask));
      drivers := drivers[d := Done];
      assert W() == v;
    }

    /** One look of the replay loop; `None` means pending and no response yet. */
    method LookOnce(d: int, order: int, key: string, polls: nat, replayed: bool, c: Choice)
      returns (r: Option<PlaceResult>)
      requires Valid() && d in drivers && drivers[d] == Replaying(order, key, polls)
      modifies this`drivers, this`returned
      ensures Valid() && W() == Step(old(W()), Go(d, c))
      ensures d in drivers
      ensures drivers[d] == if r.None? && polls > 1 then Replaying(order, key, polls - 1) else Done
      ensures r.Some? ==> AnswersFor(r.value, key)
      ensures (if r.Some? then r.value else InProgress(order)) == LastWord(old(W()), d, c, replayed)
    {
      hide Inv;
      StepInv(W(), Go(d, c));
      LookGo(W(), d, c);
      ghost var v := Step(W(), Go(d, c));
      var next := Done;
      if !c.heard || order !in db.orders {
        r := Some(Raised);
      } else if db.orders[order].snapshot.Some? {
        var snapshot := db.orders[order].snapshot.value;
        returned := returned + {Return(key, order, snapshot)};
        r := Some(Placed(order, snapshot, replayed));
      } else if !db.orders[order].status.Pending? {
        r := Some(ClosedWithoutResponse(order));
      } else {
        next := if polls > 1 then Replaying(order, key, polls - 1) else Done;
        r := None;
      }
      drivers := drivers[d := next];
      assert W() == v;
    }

    /** The state of the replay loop after `i` looks. */
    ghost predicate Looked(w0: World, d: int, order: int, key: string, replayed: bool, plan: seq<Moment>, i: nat)
      requires i <= |plan|
      reads this, db
    {
      && Valid() && d in drivers
      && drivers[d] == (if i < REPLAY_ATTEMPTS then Replaying(order, key, REPLAY_ATTEMPTS - i) else Done)
      && Drive(w0, d, plan) == Drive(W(), d, plan[i..])
      && PlaceReply(w0, d, plan, replayed)
         == (if i < REPLAY_ATTEMPTS then PlaceReply(W(), d, plan[i..], replayed) else InProgress(order))
    }

    method LookAgain(ghost w0: World, d: int, order: int, key: string, replayed: bool, plan: seq<Moment>, i: nat)
      returns (r: Option<PlaceResult>)
      requires i < |plan| && i < REPLAY_ATTEMPTS && Looked(w0, d, order, key, replayed, plan, i) && PlanFor(plan, d)
      modifies this, db
      ensures r.None? ==> Looked(w0, d, order, key, replayed, plan, i + 1)
      ensures r.Some? ==>
                Valid() && d in drivers && drivers[d].Done? && W() == Drive(w0, d, plan) && AnswersFor(r.value, key)
      ensures r.Some? ==> r.value == PlaceReply(w0, d, plan, replayed)
    {
      hide Inv;
      DriveNext(W(), d, plan, i);
      PlaceReplyNext(W(), d, plan, i, replayed);
      r := LookAt(d, order, key, REPLAY_ATTEMPTS - i, replayed, plan[i]);
    }

    method LookAt(d: int, order: int, key: string, polls: nat, replayed: bool, m: Moment)
      returns (r: Option<PlaceResult>)
      requires Valid() && d in drivers && drivers[d] == Replaying(order, key, polls) && AllForeign(m.others, d)
      modifies this, db
      ensures Valid() && W() == Next(old(W()), d, m)
      ensures d in drivers && drivers[d] == if r.None? && polls > 1 then Replaying(order, key, polls - 1) else Done
      ensures r.Some? ==> AnswersFor(r.value, key)
      ensures (if r.Some? then r.value else InProgress(order)) == LastWord(Exec(old(W()), m.others), d, m.c, replayed)
    {
      hide Inv;
      Await(d, m.others);
      r := LookOnce(d, order, key, polls, replayed, m.c);
    }

    /** What the replay of a response can come to. */
    ghost predicate AnswersFor(r: PlaceResult, key: string)
      reads this
    {
      match r
      case Placed(order, snapshot, _) => Return(key, order, snapshot) in returned
      case ClosedWithoutResponse(_) => true
      case InProgress(_) => true
      case Raised => true
      case _ => false
    }

    /** _placed. */
    method StoredResponse(d: int, order: int, key: string, replayed: bool, plan: seq<Moment>) returns (r: PlaceResult)
      requires Valid() && d in drivers && drivers[d] == Replaying(order, key, REPLAY_ATTEMPTS) && PlanFor(plan, d)
      modifies this, db
      ensures Valid() && W() == Drive(old(W()), d, plan)
      ensures d in drivers && (r.Stopped? <==> !drivers[d].Done?)
      ensures !r.Stopped? ==> AnswersFor(r, key)
      ensures r == PlaceReply(old(W()), d, plan, replayed)
    {
      hide Inv, Next, Step, Exec, LastWord, Apply;
      ghost var w0 := W();
      var i := 0;
      assert plan[0..] == plan;
      while i < REPLAY_ATTEMPTS
        invariant 0 <= i <= REPLAY_ATTEMPTS && i <= |plan|
        invariant Looked(w0, d, order, key, replayed, plan, i)
      {
        if i == |plan| {
          return Stopped;
        }
        var seen := LookAgain(w0, d, order, key, replayed, plan, i);
        if seen.Some? {
          return seen.value;
        }
        i := i + 1;
      }
      r := InProgress(order);
    }

    method RefundOnce(d: int, order: int, tid: int, amount: Option<nat>, c: Choice)
      returns (answer: Attempt, total: nat)
      requires Valid() && d in drivers && drivers[d].Refunding?
      requires drivers[d].order == order && drivers[d].tid == tid
               && (amount.Some? ==> drivers[d].amount == amount.value)
      modifies this`pg, this`nextTid, this`said, this`drivers
      ensures Valid() && W() == Step(old(W()), Go(d, c))
      ensures d in drivers && drivers[d] == RefundAnswered(order, total, answer)
    {
      hide Inv;
      DriverKnows(W(), d);
      total := if amount.Some? then amount.value else db.orders[order].total;
      StepInv(W(), Go(d, c));
      RefundGo(W(), d, c);
      ghost var v := Step(W(), Go(d, c));
      answer := Refund(d, order, tid, total, c);
      drivers := drivers[d := RefundAnswered(order, total, answer)];
      assert W() == v;
    }

    method RefundSoon(d: int, order: int, tid: int, amount: Option<nat>, m: Moment)
      returns (answer: Attempt, total: nat)
      requires Valid() && d in drivers && drivers[d].Refunding? && AllForeign(m.others, d)
      requires drivers[d].order == order && drivers[d].tid == tid
               && (amount.Some? ==> drivers[d].amount == amount.value)
      modifies this, db
      ensures Valid() && W() == Next(old(W()), d, m)
      ensures d in drivers && drivers[d] == RefundAnswered(order, total, answer)
    {
      hide Inv;
      Await(d, m.others);
      answer, total := RefundOnce(d, order, tid, amount, m.c);
    }

    method RecordOnce(d: int, order: int, total: nat, answer: Attempt, c: Choice) returns (ok: bool)
      requires Valid() && d in drivers && drivers[d] == RefundAnswered(order, total, answer)
      modifies this`drivers, db
      ensures Valid() && W() == Step(old(W()), Go(d, c))
      ensures d in drivers && drivers[d].Done?
      ensures RefundSaid(order, answer.result) in said
      ensures ok == !Throws(old(W()), d, c)
    {
      hide Inv;
      DriverKnows(W(), d);
      StepInv(W(), Go(d, c));
      RefundRecordGo(W(), d, c);
      ghost var v := Step(W(), Go(d, c));
      ok := !c.aborts;
      if ok {
        var out := RecordRefundOutcome(db, order, total, answer.result.Approved?, answer.tid);
        ok := !out.Aborted?;
      }
      drivers := drivers[d := Done];
      assert W() == v;
    }

    /** _refund_and_fail. */
    method RefundAndFail(d: int, order: int, tid: int, amount: Option<nat>, plan: seq<Moment>) returns (r: Ending)
      requires Valid() && PlanFor(plan, d) && d in drivers && drivers[d].Refunding?
      requires drivers[d].order == order && drivers[d].tid == tid
               && (amount.Some? ==> drivers[d].amount == amount.value)
      modifies this, db
      ensures Valid() && W() == Drive(old(W()), d, plan)
      ensures d in drivers && (r.Halted? <==> !drivers[d].Done?)
      ensures r.Finished? ==> RefundTried(order)
      ensures !Confirms(old(W()), d, plan) && (r.Raising? <==> Escapes(old(W()), d, plan))
      ensures PlaceReply(old(W()), d, plan, false)
              == if r.Halted? then Stopped else if r.Raising? then Raised else HoldLost(order)
    {
      hide Inv;
      if plan == [] {
        return Halted;
      }
      ghost var w0 := W();
      var answer, total := RefundSoon(d, order, tid, amount, plan[0]);
      RefundGoesOn(w0, d, plan);
      hide Valid, Drive, Confirms, Escapes, PlaceReply, Next;
      r := RecordRefund(d, order, total, answer, plan[1..]);
    }

    method RecordRefund(d: int, order: int, total: nat, answer: Attempt, plan: seq<Moment>) returns (r: Ending)
      requires Valid() && PlanFor(plan, d) && d in drivers && drivers[d] == RefundAnswered(order, total, answer)
      modifies this, db
      ensures Valid() && W() == Drive(old(W()), d, plan)
      ensures d in drivers && (r.Halted? <==> !drivers[d].Done?)
      ensures r.Finished? ==> RefundTried(order)
      ensures !Confirms(old(W()), d, plan) && (r.Raising? <==> Escapes(old(W()), d, plan))
      ensures PlaceReply(old(W()), d, plan, false)
              == if r.Halted? then Stopped else if r.Raising? then Raised else HoldLost(order)
    {
      hide Inv;
      if plan == [] {
        return Halted;
      }
      ghost var w0 := W();
      Await(d, plan[0].others);
      var ok := RecordOnce(d, order, total, answer, plan[0].c);
      assert W() == Next(w0, d, plan[0]);
      r := if ok then Finished else Raising;
    }

    /** Acting on an answer, up to the confirmation: UNKNOWN leaves everything alone, DECLINED closes
        the order, APPROVED confirms it. `None`: the driver is done. */
    method JudgeOnce(d: int, order: int, ask: PayAsk, answer: Attempt, total: nat, key: string, c: Choice)
      returns (out: Option<Outcome>)
      requires Valid() && d in drivers && drivers[d] == Judged(order, ask, answer, total, key)
      modifies this`drivers, db
      ensures Valid() && W() == Step(old(W()), Go(d, c))
      ensures out == if answer.result.Approved? && answer.tid.Some? && !c.aborts
                     then Some(ConfirmTx(old(db.State()), order, answer.tid.value, clock).1) else None
      ensures d in drivers && drivers[d] == if out.Some? then AfterConfirm(old(drivers)[d], out.value) else Done
      ensures ask.AskApprove? ==> ApproveSaid(order, answer.result) in said
    {
      hide Inv;
      DriverKnows(W(), d);
      if answer.result.Unknown? || c.aborts || (answer.result.Approved? && answer.tid.None?) {
        Leave(d, c);
        return None;
      }
      if answer.result.Declined? {
        CloseStepOf(d, order, ask, answer, total, key, c);
        return None;
      }
      var outcome := ConfirmStepOf(d, order, ask, answer, total, key, c);
      out := Some(outcome);
    }

    // ---------------------------------------------------------------- place

    /** What the caller of place may conclude from its result. */
    ghost predicate Justified(r: PlaceResult, key: string)
      reads this
    {
      match r
      case Placed(order, snapshot, _) => Return(key, order, snapshot) in returned
      case PaymentUnknown(order) => ApproveSaid(order, Unknown) in said
      case PaymentDeclined(order) => ApproveSaid(order, Declined) in said
      case HoldLost(order) => RefundTried(order)
      case _ => true
    }

    ghost predicate RefundTried(order: int)
      reads this
    {
      exists result :: RefundSaid(order, result) in said
    }

    method JudgeApproval(d: int, order: int, answer: Attempt, total: nat, key: string, m: Moment)
      returns (out: Option<Outcome>)
      requires Valid() && AllForeign(m.others, d) && d in drivers
               && drivers[d] == Judged(order, AskApprove, answer, total, key)
      modifies this, db
      ensures Valid() && W() == Next(old(W()), d, m)
      ensures out.Some? ==> answer.result.Approved? && answer.tid.Some?
      ensures d in drivers && drivers[d] == if out.Some? then AfterConfirm(old(drivers)[d], out.value) else Done
      ensures ApproveSaid(order, answer.result) in said
      ensures LastWord(Exec(old(W()), m.others), d, m.c, false)
              == if answer.result.Unknown? then PaymentUnknown(order)
                 else if answer.result.Declined? && !m.c.aborts then PaymentDeclined(order) else Raised
    {
      hide Inv;
      Await(d, m.others);
      out := JudgeOnce(d, order, AskApprove, answer, total, key, m.c);
    }

    /** The part of place after an answer to the approval request. */
    method ActOnApproval(d: int, order: int, answer: Attempt, total: nat, key: string, plan: seq<Moment>)
      returns (r: PlaceResult)
      requires Valid() && PlanFor(plan, d) && d in drivers
               && drivers[d] == Judged(order, AskApprove, answer, total, key)
      modifies this, db
      ensures Valid() && W() == Drive(old(W()), d, plan)
      ensures d in drivers && (r.Stopped? <==> !drivers[d].Done?)
      ensures Justified(r, key) && r == PlaceReply(old(W()), d, plan, false)
    {
      hide Inv;
      if plan == [] {
        return Stopped;
      }
      PlaceReplyFirst(W(), d, plan);
      var out := JudgeApproval(d, order, answer, total, key, plan[0]);
      if out.None? {
        return if answer.result.Unknown? then PaymentUnknown(order)
               else if answer.result.Declined? && !plan[0].c.aborts then PaymentDeclined(order) else Raised;
      }
      r := ReplyTo(d, order, answer.tid.value, total, key, out.value, plan[1..]);
    }

    /** After confirm_paid: its result is not looked at, an expired hold is refunded. */
    method ReplyTo(d: int, order: int, tid: int, total: nat, key: string, out: Outcome, plan: seq<Moment>)
      returns (r: PlaceResult)
      requires Valid() && PlanFor(plan, d) && d in drivers
      requires drivers[d] == if out.HoldExpired? then Refunding(order, tid, total)
                             else if out.Confirmed? || out.AlreadySettled?
                               then Replaying(order, key, REPLAY_ATTEMPTS) else Done
      modifies this, db
      ensures Valid() && W() == Drive(old(W()), d, plan)
      ensures d in drivers && (r.Stopped? <==> !drivers[d].Done?)
      ensures Justified(r, key) && r == if Unused(old(W()), d) then Raised else PlaceReply(old(W()), d, plan, false)
    {
      hide Inv;
      if out.HoldExpired? {
        var ending := RefundAndFail(d, order, tid, Some(total), plan);
        r := if ending.Halted? then Stopped else if ending.Raising? then Raised else HoldLost(order);
      } else if out.Confirmed? || out.AlreadySettled? {
        r := StoredResponse(d, order, key, false, plan);
      } else {
        r := Raised;
      }
    }

    method ListenAgain(d: int, order: int, total: nat, key: string, m: Moment) returns (answer: Option<Attempt>)
      requires Valid() && AllForeign(m.others, d) && d in drivers && drivers[d] == Waiting(order, total, key)
      modifies this, db
      ensures Valid() && W() == Next(old(W()), d, m)
      ensures d in drivers && drivers[d]
              == if answer.Some? then Judged(order, AskApprove, answer.value, total, key) else old(drivers)[d]
    {
      hide Inv;
      Await(d, m.others);
      answer := ReceiveApproval(d, order, total, key, m.c);
    }

    method WaitForReply(d: int, order: int, total: nat, key: string, plan: seq<Moment>) returns (r: PlaceResult)
      requires Valid() && PlanFor(plan, d) && d in drivers && drivers[d] == Waiting(order, total, key)
      modifies this, db
      ensures Valid() && W() == Drive(old(W()), d, plan)
      ensures d in drivers && (r.Stopped? <==> !drivers[d].Done?)
      ensures Justified(r, key) && r == PlaceReply(old(W()), d, plan, false)
    {
      hide Inv;
      ghost var w0 := W();
      var i := 0;
      assert plan[0..] == plan;
      while i < |plan|
        invariant 0 <= i <= |plan|
        invariant Valid() && d in drivers && drivers[d] == Waiting(order, total, key)
        invariant Drive(w0, d, plan) == Drive(W(), d, plan[i..])
        invariant PlaceReply(w0, d, plan, false) == PlaceReply(W(), d, plan[i..], false)
      {
        DriveNext(W(), d, plan, i);
        PlaceReplyNext(W(), d, plan, i, false);
        var answer := ListenAgain(d, order, total, key, plan[i]);
        i := i + 1;
        if answer.Some? {
          r := ActOnApproval(d, order, answer.value, total, key, plan[i..]);
          return;
        }
      }
      r := Stopped;
    }

    method SendAt(d: int, order: int, total: nat, key: string, m: Moment)
      requires Valid() && AllForeign(m.others, d) && d in drivers && drivers[d] == Sending(order, total, key)
      modifies this, db
      ensures Valid() && W() == Next(old(W()), d, m)
      ensures d in drivers && drivers[d] == Waiting(order, total, key)
    {
      hide Inv;
      Await(d, m.others);
      SendApproval(d, order, total, key, m.c);
    }

    /** await gateway.approve(...): the request, then waiting for the reply. */
    method AskForApproval(d: int, order: int, total: nat, key: string, plan: seq<Moment>) returns (r: PlaceResult)
      requires Valid() && PlanFor(plan, d) && d in drivers && drivers[d] == Sending(order, total, key)
      modifies this, db
      ensures Valid() && W() == Drive(old(W()), d, plan)
      ensures d in drivers && (r.Stopped? <==> !drivers[d].Done?)
      ensures Justified(r, key) && r == PlaceReply(old(W()), d, plan, false)
    {
      hide Inv;
      if plan == [] {
        return Stopped;
      }
      SendAt(d, order, total, key, plan[0]);
      r := WaitForReply(d, order, total, key, plan[1..]);
    }

    method OpenAt(d: int, schedule: int, user: int, ids: seq<int>, key: string, minRemaining: int, m: Moment)
      returns (out: Outcome)
      requires Valid() && AllForeign(m.others, d) && d in drivers
               && drivers[d] == Opening(schedule, user, ids, key, minRemaining) && ids != []
      modifies this, db
      ensures Valid() && W() == Next(old(W()), d, m)
      ensures d in drivers && drivers[d] == AfterOpen(key, out)
      ensures LastWord(Exec(old(W()), m.others), d, m.c, false) == if out.HoldExpired? then NoHold else Raised
    {
      hide Inv;
      Await(d, m.others);
      if m.c.aborts {
        Leave(d, m.c);
        return Aborted;
      }
      out := OpenStepOf(d, schedule, user, ids, key, minRemaining, m.c);
    }

    /** place, from its first transaction on. */
    method OpenAndPay(d: int, schedule: int, user: int, ids: seq<int>, key: string, minRemaining: int,
                      plan: seq<Moment>) returns (r: PlaceResult)
      requires Valid() && PlanFor(plan, d) && d in drivers
               && drivers[d] == Opening(schedule, user, ids, key, minRemaining) && ids != []
      modifies this, db
      ensures Valid() && W() == Drive(old(W()), d, plan)
      ensures d in drivers && (r.Stopped? <==> !drivers[d].Done?)
      ensures Justified(r, key) && r == PlaceReply(old(W()), d, plan, false)
    {
      hide Inv;
      if plan == [] {
        return Stopped;
      }
      PlaceReplyFirst(W(), d, plan);
      var out := OpenAt(d, schedule, user, ids, key, minRemaining, plan[0]);
      if out.Opened? {
        r := AskForApproval(d, out.order, out.total, key, plan[1..]);
      } else if out.Duplicate? {
        r := StoredResponse(d, out.order, key, true, plan[1..]);
      } else {
        r := if out.HoldExpired? then NoHold else Raised;
      }
    }

    /** place. */
    method Place(d: int, schedule: int, user: int, seatIds: seq<int>, key: string, minRemaining: int,
                 plan: seq<Moment>) returns (r: PlaceResult)
      requires Valid() && PlanFor(plan, d) && Unused(W(), d)
      modifies this, db
      ensures Valid()
      ensures seatIds == [] ==> r == Rejected && W() == old(W())
      ensures seatIds != [] ==>
                var ids := Sorted(Members(seatIds));
                && W() == Drive(Step(old(W()), StartPlace(d, schedule, user, ids, key, minRemaining)), d, plan)
                && d in drivers && (r.Stopped? <==> !drivers[d].Done?)
                && r == PlaceReply(Step(old(W()), StartPlace(d, schedule, user, ids, key, minRemaining)), d, plan,
                                   false)
      ensures Justified(r, key)
    {
      hide Inv;
      if seatIds == [] {
        return Rejected;
      }
      var ids := Sorted(Members(seatIds));
      assert seatIds[0] in Members(seatIds);
      StepInv(W(), StartPlace(d, schedule, user, ids, key, minRemaining));
      drivers := drivers[d := Opening(schedule, user, ids, key, minRemaining)];
      r := OpenAndPay(d, schedule, user, ids, key, minRemaining, plan);
    }

    // ---------------------------------------------------------------- cancel

    /** What the caller of cancel may conclude from a success. */
    ghost predicate Cancelled(order: int)
      reads this, db
    {
      RefundSaid(order, PayResult.Approved) in said && order in db.orders && !db.orders[order].status.Paid?
    }

    /** What cancel reads before any transaction: the order, its approval, the fee. Not paid, or too
        late, is a refusal; an approval is always found. */
    method FeeAndApproval(order: int, today: int, showDay: int) returns (known: Option<(int, FeeSnapshot)>)
      requires db.Valid()
      ensures AfterRead(db.State(), order, today, showDay)
              == if known.Some? then CancelRefunding(order, known.value.0, known.value.1) else Done
      ensures known.Some? <==> order in db.orders && db.orders[order].status.Paid? && today < showDay
    {
      hide Inv, ShapeInv, ItemInv, BookedInv, KeyInv, OutboxInv;
      if order !in db.orders || !db.orders[order].status.Paid? {
        return None;
      }
      var o := db.orders[order];
      assert CountOk(db.payments, order, o) && OrderOk(db.seats, db.items, order, o);
      var approved := db.ApprovedPayment(order);
      assert PaymentOk(db.orders, approved.value);
      var fee := CancelFee(o.total, today, showDay);
      FeeBands(o.total, today, showDay);
      if fee.None? {
        return None;
      }
      known := Some((approved.value.tid.value, FeeSnapshot(fee.value, o.total - fee.value)));
    }

    method ReadForCancel(d: int, order: int, today: int, showDay: int, c: Choice)
      returns (known: Option<(int, FeeSnapshot)>)
      requires Valid() && d in drivers && drivers[d] == CancelReading(order, today, showDay)
      modifies this`drivers, this`said
      ensures Valid() && W() == Step(old(W()), Go(d, c))
      ensures d in drivers && drivers[d]
              == if known.Some? then CancelRefunding(order, known.value.0, known.value.1) else Done
      ensures known.Some? <==> order in db.orders && db.orders[order].status.Paid? && today < showDay
    {
      hide Inv;
      StepInv(W(), Go(d, c));
      ghost var v := Step(W(), Go(d, c));
      TablesAreSound(W());
      known := FeeAndApproval(order, today, showDay);
      said := said + {CancelRead(order, today, showDay)};
      drivers := drivers[d := if known.Some? then CancelRefunding(order, known.value.0, known.value.1) else Done];
      assert W() == v;
    }

    method CancelRefundOnce(d: int, order: int, tid: int, fee: FeeSnapshot, c: Choice) returns (answer: Attempt)
      requires Valid() && d in drivers && drivers[d] == CancelRefunding(order, tid, fee)
      modifies this`pg, this`nextTid, this`said, this`drivers
      ensures Valid() && W() == Step(old(W()), Go(d, c))
      ensures d in drivers && drivers[d] == CancelAnswered(order, fee, answer)
    {
      hide Inv;
      StepInv(W(), Go(d, c));
      CancelRefundGo(W(), d, c);
      ghost var v := Step(W(), Go(d, c));
      answer := Refund(d, order, tid, fee.refund, c);
      drivers := drivers[d := CancelAnswered(order, fee, answer)];
      assert W() == v;
    }

    method CancelRecordOnce(d: int, order: int, fee: FeeSnapshot, answer: Attempt, c: Choice) returns (r: CancelResult)
      requires Valid() && d in drivers && drivers[d] == CancelAnswered(order, fee, answer)
      modifies this`drivers, db
      ensures Valid() && W() == Step(old(W()), Go(d, c))
      ensures d in drivers && drivers[d].Done?
      ensures r.CanceledOrder? ==> r.fee == fee.fee && Cancelled(order)
      ensures r.RefundFailed? ==> !answer.result.Approved?
      ensures r == LastCancelWord(old(W()), d, c) && (r.CanceledOrder? || r.RefundFailed? || r.CancelRaised?)
    {
      hide Inv, Apply, Advance;
      DriverKnows(W(), d);
      TablesAreSound(W());
      StepInv(W(), Go(d, c));
      CancelRecordGo(W(), d, c);
      ghost var v := Step(W(), Go(d, c));
      drivers := drivers[d := Done];
      if c.aborts {
        r := CancelRaised;
      } else {
        r := RecordAnswer(order, fee, answer);
      }
      assert W() == v;
    }

    /** The transaction of cancel that fits the answer. */
    method RecordAnswer(order: int, fee: FeeSnapshot, answer: Attempt) returns (r: CancelResult)
      requires db.Valid() && order in db.orders
      modifies db
      ensures db.State() == if answer.result.Approved? then CancelTx(old(db.State()), order, fee, answer.tid).0
                            else CancelRefusedTx(old(db.State()), order, fee).0
      ensures r == if !answer.result.Approved? then RefundFailed
                   else if CancelTx(old(db.State()), order, fee, answer.tid).1.Aborted?
                     then CancelRaised else CanceledOrder(fee.fee)
      ensures r.CanceledOrder? ==> order in db.orders && !db.orders[order].status.Paid?
    {
      hide Inv;
      var out;
      if answer.result.Approved? {
        out := RecordCancellation(db, order, fee, answer.tid);
        return if out.Aborted? then CancelRaised else CanceledOrder(fee.fee);
      }
      out := RecordRefusedRefund(db, order, fee);
      r := RefundFailed;
    }

    method CancelRefundAt(d: int, order: int, tid: int, fee: FeeSnapshot, m: Moment) returns (answer: Attempt)
      requires Valid() && AllForeign(m.others, d) && d in drivers && drivers[d] == CancelRefunding(order, tid, fee)
      modifies this, db
      ensures Valid() && W() == Next(old(W()), d, m)
      ensures d in drivers && drivers[d] == CancelAnswered(order, fee, answer)
    {
      hide Inv;
      Await(d, m.others);
      answer := CancelRefundOnce(d, order, tid, fee, m.c);
    }

    method RefundThenCancel(d: int, order: int, tid: int, fee: FeeSnapshot, plan: seq<Moment>) returns (r: CancelResult)
      requires Valid() && PlanFor(plan, d) && d in drivers && drivers[d] == CancelRefunding(order, tid, fee)
      modifies this, db
      ensures Valid() && W() == Drive(old(W()), d, plan)
      ensures r == CancelReply(old(W()), d, plan)
      ensures d in drivers && (r.CancelStopped? <==> !drivers[d].Done?)
      ensures r.CanceledOrder? ==> r.fee == fee.fee && Cancelled(order)
      ensures !r.NotCancelable?
    {
      hide Inv;
      if plan == [] {
        return CancelStopped;
      }
      ghost var w0 := W();
      var answer := CancelRefundAt(d, order, tid, fee, plan[0]);
      CancelReplyNext(w0, d, plan);
      r := RecordThenReport(d, order, fee, answer, plan[1..]);
    }

    method CancelRecordAt(d: int, order: int, fee: FeeSnapshot, answer: Attempt, m: Moment) returns (r: CancelResult)
      requires Valid() && AllForeign(m.others, d) && d in drivers && drivers[d] == CancelAnswered(order, fee, answer)
      modifies this, db
      ensures Valid() && W() == Next(old(W()), d, m)
      ensures d in drivers && drivers[d].Done?
      ensures r == LastCancelWord(Exec(old(W()), m.others), d, m.c)
              && (r.CanceledOrder? || r.RefundFailed? || r.CancelRaised?)
      ensures r.CanceledOrder? ==> r.fee == fee.fee && Cancelled(order)
    {
      hide Inv;
      Await(d, m.others);
      ghost var v := W();
      r := CancelRecordOnce(d, order, fee, answer, m.c);
      assert r == LastCancelWord(v, d, m.c);
    }

    method RecordThenReport(d: int, order: int, fee: FeeSnapshot, answer: Attempt, plan: seq<Moment>)
      returns (r: CancelResult)
      requires Valid() && PlanFor(plan, d) && d in drivers && drivers[d] == CancelAnswered(order, fee, answer)
      modifies this, db
      ensures Valid() && W() == Drive(old(W()), d, plan)
      ensures r == CancelReply(old(W()), d, plan)
      ensures d in drivers && (r.CancelStopped? <==> !drivers[d].Done?)
      ensures r.CanceledOrder? ==> r.fee == fee.fee && Cancelled(order)
      ensures !r.NotCancelable?
    {
      hide Inv;
      if plan == [] {
        return CancelStopped;
      }
      r := CancelRecordAt(d, order, fee, answer, plan[0]);
    }

    method ReadAt(d: int, order: int, today: int, showDay: int, m: Moment) returns (known: Option<(int, FeeSnapshot)>)
      requires Valid() && AllForeign(m.others, d) && d in drivers && drivers[d] == CancelReading(order, today, showDay)
      modifies this, db
      ensures Valid() && W() == Next(old(W()), d, m)
      ensures d in drivers && drivers[d]
              == if known.Some? then CancelRefunding(order, known.value.0, known.value.1) else Done
      ensures LastCancelWord(Exec(old(W()), m.others), d, m.c) == NotCancelable
    {
      hide Inv;
      Await(d, m.others);
      known := ReadForCancel(d, order, today, showDay, m.c);
    }

    method ReadThenCancel(d: int, order: int, today: int, showDay: int, plan: seq<Moment>) returns (r: CancelResult)
      requires Valid() && PlanFor(plan, d) && d in drivers && drivers[d] == CancelReading(order, today, showDay)
      modifies this, db
      ensures Valid() && W() == Drive(old(W()), d, plan)
      ensures r == CancelReply(old(W()), d, plan)
      ensures d in drivers && (r.CancelStopped? <==> !drivers[d].Done?)
      ensures r.CanceledOrder? ==> Cancelled(order)
    {
      hide Inv;
      if plan == [] {
        return CancelStopped;
      }
      var known := ReadAt(d, order, today, showDay, plan[0]);
      if known.None? {
        return NotCancelable;
      }
      r := RefundThenCancel(d, order, known.value.0, known.value.1, plan[1..]);
    }

    /** cancel. */
    method Cancel(d: int, order: int, today: int, showDay: int, plan: seq<Moment>) returns (r: CancelResult)
      requires Valid() && PlanFor(plan, d) && Unused(W(), d)
      modifies this, db
      ensures Valid()
      ensures order !in old(db.orders) ==> r.NotCancelable? && W() == old(W())
      ensures order in old(db.orders) ==>
                && W() == Drive(Step(old(W()), StartCancel(d, order, today, showDay)), d, plan)
                && r == CancelReply(Step(old(W()), StartCancel(d, order, today, showDay)), d, plan)
                && d in drivers && (r.CancelStopped? <==> !drivers[d].Done?)
      ensures r.CanceledOrder? ==> Cancelled(order)
    {
      hide Inv;
      if order !in db.orders {
        return NotCancelable;
      }
      StepInv(W(), StartCancel(d, order, today, showDay));
      drivers := drivers[d := CancelReading(order, today, showDay)];
      r := ReadThenCancel(d, order, today, showDay, plan);
    }

    // ---------------------------------------------------------------- reconcile

    /** One order of a tick of reconcile. `counted`: this call confirmed it. */
    method ReconcileOne(d: int, order: int, plan: seq<Moment>) returns (r: Ending, counted: bool)
      requires Valid() && PlanFor(plan, d) && Unused(W(), d) && order in db.orders
      modifies this, db
      ensures Valid() && W() == Drive(Step(old(W()), StartReconcile(d, order)), d, plan)
      ensures d in drivers && (r.Halted? <==> !drivers[d].Done?)
      ensures counted == Confirms(Step(old(W()), StartReconcile(d, order)), d, plan)
      ensures r.Raising? <==> Escapes(Step(old(W()), StartReconcile(d, order)), d, plan)
    {
      hide Inv;
      StepInv(W(), StartReconcile(d, order));
      drivers := drivers[d := Inquiring(order)];
      r, counted := AskAbout(d, order, plan);
    }

    method InquireAt(d: int, order: int, m: Moment) returns (answer: Attempt, total: nat)
      requires Valid() && AllForeign(m.others, d) && d in drivers && drivers[d] == Inquiring(order)
      modifies this, db
      ensures Valid() && W() == Next(old(W()), d, m)
      ensures d in drivers && drivers[d] == Judged(order, AskInquire, answer, total, "")
      ensures !ConfirmsNow(Exec(old(W()), m.others), d, m.c) && !Throws(Exec(old(W()), m.others), d, m.c)
    {
      hide Inv;
      Await(d, m.others);
      answer, total := Inquire(d, order, m.c);
    }

    method AskAbout(d: int, order: int, plan: seq<Moment>) returns (r: Ending, counted: bool)
      requires Valid() && PlanFor(plan, d) && d in drivers && drivers[d] == Inquiring(order)
      modifies this, db
      ensures Valid() && W() == Drive(old(W()), d, plan)
      ensures d in drivers && (r.Halted? <==> !drivers[d].Done?)
      ensures counted == Confirms(old(W()), d, plan)
      ensures r.Raising? <==> Escapes(old(W()), d, plan)
    {
      hide Inv;
      if plan == [] {
        return Halted, false;
      }
      var answer, total := InquireAt(d, order, plan[0]);
      r, counted := ActOnInquiry(d, order, answer, total, plan[1..]);
    }

    method JudgeInquiry(d: int, order: int, answer: Attempt, total: nat, m: Moment) returns (out: Option<Outcome>)
      requires Valid() && AllForeign(m.others, d) && d in drivers
               && drivers[d] == Judged(order, AskInquire, answer, total, "")
      modifies this, db
      ensures Valid() && W() == Next(old(W()), d, m)
      ensures out.Some? ==> answer.tid.Some? && ConfirmOutcome(out.value)
      ensures d in drivers && drivers[d] == if out.Some? then AfterConfirm(old(drivers)[d], out.value) else Done
      ensures ConfirmsNow(Exec(old(W()), m.others), d, m.c) == (out == Some(Confirmed))
      ensures Throws(Exec(old(W()), m.others), d, m.c)
              == if out.Some? then UncaughtOutcome(out.value)
                else !answer.result.Unknown? && (m.c.aborts || answer.result.Approved?)
    {
      hide Inv;
      Await(d, m.others);
      JudgedFacts(W(), d, m.c);
      out := JudgeOnce(d, order, AskInquire, answer, total, "", m.c);
    }

    method ActOnInquiry(d: int, order: int, answer: Attempt, total: nat, plan: seq<Moment>)
      returns (r: Ending, counted: bool)
      requires Valid() && PlanFor(plan, d) && d in drivers && drivers[d] == Judged(order, AskInquire, answer, total, "")
      modifies this, db
      ensures Valid() && W() == Drive(old(W()), d, plan)
      ensures d in drivers && (r.Halted? <==> !drivers[d].Done?)
      ensures counted == Confirms(old(W()), d, plan)
      ensures r.Raising? <==> Escapes(old(W()), d, plan)
    {
      hide Inv;
      if plan == [] {
        return Halted, false;
      }
      var out := JudgeInquiry(d, order, answer, total, plan[0]);
      if out.None? {
        r := if answer.result.Unknown? || (answer.result.Declined? && !plan[0].c.aborts) then Finished else Raising;
        counted := false;
      } else {
        r := AfterInquiry(d, order, answer.tid.value, out.value, plan[1..]);
        counted := out.value.Confirmed?;
      }
    }

    /** After confirm_paid: an expired hold is refunded, any other exception ends the tick. */
    method AfterInquiry(d: int, order: int, tid: int, out: Outcome, plan: seq<Moment>) returns (r: Ending)
      requires Valid() && PlanFor(plan, d) && d in drivers
      requires if out.HoldExpired? then drivers[d].Refunding? && drivers[d].order == order && drivers[d].tid == tid
               else drivers[d].Done?
      requires ConfirmOutcome(out)
      modifies this, db
      ensures Valid() && W() == Drive(old(W()), d, plan)
      ensures d in drivers && (r.Halted? <==> !drivers[d].Done?)
      ensures !Confirms(old(W()), d, plan)
      ensures r.Raising? <==> UncaughtOutcome(out) || Escapes(old(W()), d, plan)
    {
      hide Inv;
      if out.HoldExpired? {
        r := RefundAndFail(d, order, tid, None, plan);
      } else {
        r := if out.Confirmed? || out.AlreadySettled? then Finished else Raising;
      }
    }

    /** The state of a tick after `i` candidates. */
    ghost predicate Reached(w0: World, d: int, candidates: seq<int>, i: nat, plans: seq<seq<Moment>>,
                            confirmed: seq<int>)
      requires i <= |candidates| <= |plans|
      reads this, db
    {
      && Valid()
      && W() == Turns(w0, d, candidates[..i], plans)
      && confirmed == ConfirmedBy(w0, d, candidates[..i], plans)
    }

    method TakeTurn(ghost w0: World, d: int, candidates: seq<int>, i: nat, plans: seq<seq<Moment>>, confirmed: seq<int>)
      returns (r: Ending, confirmed': seq<int>)
      requires i < |candidates| <= |plans| && Reached(w0, d, candidates, i, plans, confirmed)
      requires Unused(W(), d) && AllKnown(W(), candidates) && PlanFor(plans[i], d)
      modifies this, db
      ensures Reached(w0, d, candidates, i + 1, plans, confirmed') && AllKnown(W(), candidates)
      ensures r.Halted? <==> !Unused(W(), d)
      ensures r.Raising? <==> EscapesAt(w0, d, candidates, i, plans)
    {
      hide Inv;
      OneMoreTurn(w0, d, candidates, i, plans);
      TurnKeepsOrders(W(), d, candidates[i], plans[i], candidates);
      var counted;
      r, counted := ReconcileOne(d, candidates[i], plans[i]);
      confirmed' := if counted then confirmed + [candidates[i]] else confirmed;
    }

    /** The loop of reconcile. */
    method ResolveAll(d: int, candidates: seq<int>, plans: seq<seq<Moment>>)
      returns (r: Ending, ghost turns: nat, confirmed: seq<int>)
      requires Valid() && Unused(W(), d) && AllKnown(W(), candidates)
      requires |candidates| <= |plans| && forall i :: 0 <= i < |plans| ==> PlanFor(plans[i], d)
      modifies this, db
      ensures turns <= |candidates| && Reached(old(W()), d, candidates, turns, plans, confirmed)
      ensures r.Finished? ==> turns == |candidates| && Unused(W(), d)
      ensures r.Halted? ==> !Unused(W(), d)
      ensures r.Raising? ==> turns > 0 && EscapesAt(old(W()), d, candidates, turns - 1, plans)
    {
      hide Inv;
      ghost var w0 := W();
      confirmed, turns := [], 0;
      var i := 0;
      while i < |candidates|
        invariant 0 <= i <= |candidates| && turns == i
        invariant Reached(w0, d, candidates, i, plans, confirmed)
        invariant Unused(W(), d) && AllKnown(W(), candidates)
      {
        r, confirmed := TakeTurn(w0, d, candidates, i, plans, confirmed);
        i, turns := i + 1, i + 1;
        if !r.Finished? {
          return;
        }
      }
      r := Finished;
    }

    /** The scan of reconcile, in a transaction of its own. */
    method Scan(olderThan: nat, batch: nat, locked: set<int>) returns (candidates: seq<int>)
      ensures ScansOldest(db.orders, clock - olderThan, locked, candidates, batch)
      ensures AllKnown(W(), candidates) && |candidates| <= batch
    {
      hide Inv;
      candidates := db.UnresolvedOrders(clock - olderThan, batch, locked);
      assert forall k :: 0 <= k < |candidates| ==> candidates[k] in candidates;
    }

    /** reconcile: scan, then one order after the other. An exception ends
        the tick. */
    method Reconcile(d: int, olderThan: nat, batch: nat, locked: set<int>, plans: seq<seq<Moment>>)
      returns (r: Ending, candidates: seq<int>, ghost turns: nat, confirmed: seq<int>)
      requires Valid() && Unused(W(), d) && |plans| >= batch && forall i :: 0 <= i < |plans| ==> PlanFor(plans[i], d)
      modifies this, db
      ensures turns <= |candidates| <= |plans|
      ensures forall id :: id in candidates ==>
                && id in old(db.orders) && old(db.orders)[id].status.Pending?
                && old(db.orders)[id].createdAt < old(clock) - olderThan && id !in locked
      ensures |candidates| < batch ==>
                forall id :: id in old(db.orders) && old(db.orders)[id].status.Pending?
                             && old(db.orders)[id].createdAt < old(clock) - olderThan && id !in locked ==>
                  id in candidates
      ensures ScansOldest(old(db.orders), old(clock) - olderThan, locked, candidates, batch)
      ensures Reached(old(W()), d, candidates, turns, plans, confirmed)
      ensures r.Finished? ==> turns == |candidates| && Unused(W(), d)
      ensures r.Halted? ==> !Unused(W(), d)
      ensures r.Raising? ==> turns > 0 && EscapesAt(old(W()), d, candidates, turns - 1, plans)
    {
      hide Inv;
      candidates := Scan(olderThan, batch, locked);
      assert ScansOldest(old(db.orders), old(clock) - olderThan, locked, candidates, batch);
      r, turns, confirmed := ResolveAll(d, candidates, plans);
    }
  }
}

/** The reconciler drains its backlog, whatever anybody else does meanwhile: between any two of its steps
    others may hold and release seats, place, cancel, reconcile the same orders, call webhooks, stop,
    abort, and open new orders. The gateway answers this reconciler's inquiries and honours its
    refunds. Then each turn concludes its order, a tick concludes all it scanned, oldest first, and
    n old pending orders are concluded after n / batch ticks (rounded up), but for those that other
    workers keep locked. Every order that becomes PAID meanwhile is listed once by this reconciler or
    confirmed once by somebody else. The world it starts in is any world a run of the saga reaches. */
module ReconcilerDrains {
  import opened Tables
  import opened Transactions
  import opened Invariants
  import opened History
  import opened Statements
  import opened Saga
  import opened SagaSafety
  import opened GatewayNumbers
  import opened OrderService

  const ANSWERED: Choice := Choice(0, false, true, true)

  // ------------------------------------------------------------------ the assumptions

  predicate StillPending(w: World, o: int) {
    o in w.db.orders && w.db.orders[o].status.Pending?
  }

  /** What holds in every reachable world, and a driver that has nothing to do. */
  ghost predicate Ready(w: World, d: int) {
    Inv(w) && NumberedIn(w) && Unused(w, d)
  }

  lemma ReachableIsReady(w: World, ls: seq<Label>, d: int)
    requires Start(w) && Unused(Exec(w, ls), d)
    ensures Ready(Exec(w, ls), d)
  {
    StartInv(w);
    ExecInv(w, ls);
    ExecNumbered(w, ls);
  }

  /** The charge of an open order is on no row. */
  lemma ChargeIsFree(w: World, o: int)
    requires Inv(w) && NumberedIn(w) && StillPending(w, o) && Acc(w.pg, o).tid.Some?
    ensures TidFree(w.db.payments, Acc(w.pg, o).tid.value)
  {
    assert OrderOk(w.db.seats, w.db.items, o, w.db.orders[o]);
    ChargeIsUnused(w, o);
  }

  // ------------------------------------------------------------------ any run, seen by the reconciler

  /** The pending orders created before an instant. */
  function Backlog(w: World, before: int): set<int> {
    Aged(w.db.orders, before)
  }

  function Aged(orders: Orders, before: int): set<int> {
    set id | id in orders && orders[id].status.Pending? && orders[id].createdAt < before
  }

  /** Orders stay, with the time they were created. */
  predicate SameDates(w: World, v: World) {
    forall id :: id in w.db.orders ==> id in v.db.orders && v.db.orders[id].createdAt == w.db.orders[id].createdAt
  }

  /** Concluded orders stay concluded, and what becomes pending is new. */
  ghost predicate Draining(w: World, v: World, before: int) {
    && w.clock <= v.clock && SameDates(w, v)
    && (forall id :: id in w.db.orders && !w.db.orders[id].status.Pending? ==> !v.db.orders[id].status.Pending?)
    && Backlog(v, before) <= Backlog(w, before)
  }

  lemma NewOrderIsYoung(db: Db, op: Op, now: int, id: int)
    requires id in Apply(db, op, now).0.orders && id !in db.orders
    ensures op.Open? && Apply(db, op, now).0.orders[id].createdAt == now
  {
    OnlyNamed(db, op, now, id);
  }

  /** Only a place opens orders, by the clock. */
  lemma OpensByTheClock(w: World, l: Label)
    requires |Committed(w, l)| == 1 && Committed(w, l)[0].op.Open?
    ensures Committed(w, l)[0].now == w.clock
  {}

  lemma AtMostOne(w: World, l: Label)
    ensures |Committed(w, l)| <= 1 && w.clock <= Step(w, l).clock
  {}

  lemma TablesDrain(a: Db, b: Db, before: int)
    requires Later(a, b) && forall id :: id in b.orders && id !in a.orders ==> b.orders[id].createdAt >= before
    ensures forall id :: id in a.orders ==> id in b.orders && b.orders[id].createdAt == a.orders[id].createdAt
    ensures forall id :: id in a.orders && !a.orders[id].status.Pending? ==> !b.orders[id].status.Pending?
    ensures Aged(b.orders, before) <= Aged(a.orders, before)
  {
    forall id | id in a.orders
      ensures id in b.orders && (!a.orders[id].status.Pending? ==> !b.orders[id].status.Pending?)
      ensures id in b.orders && b.orders[id].createdAt == a.orders[id].createdAt
    {
      assert OrderLater(a.orders[id], b.orders[id]);
    }
    forall id | id in Aged(b.orders, before)
      ensures id in Aged(a.orders, before)
    {
      assert id in a.orders;
    }
  }

  lemma StepDrains(w: World, l: Label, before: int)
    requires Inv(w) && before <= w.clock
    ensures Draining(w, Step(w, l), before)
  {
    hide Inv, Step, Apply, Committed, Later;
    var v := Step(w, l);
    TablesAreSound(w);
    hide DbInv;
    StepCommits(w, l);
    AtMostOne(w, l);
    HistoryKeeps(w.db, Committed(w, l));
    forall id | id in v.db.orders && id !in w.db.orders
      ensures v.db.orders[id].createdAt >= before
    {
      var t := Committed(w, l)[0];
      RunSingle(w.db, Committed(w, l));
      NewOrderIsYoung(w.db, t.op, t.now, id);
      OpensByTheClock(w, l);
    }
    TablesDrain(w.db, v.db, before);
  }

  lemma RunSingle(db: Db, ops: seq<Timed>)
    requires |ops| == 1
    ensures Run(db, ops) == Apply(db, ops[0].op, ops[0].now).0
  {
    assert ops[1..] == [];
  }

  lemma {:induction false} RunDrains(w: World, ls: seq<Label>, before: int)
    requires Inv(w) && before <= w.clock
    ensures Draining(w, Exec(w, ls), before)
    decreases |ls|
  {
    if ls != [] {
      var v := Step(w, ls[0]);
      StepInv(w, ls[0]);
      StepDrains(w, ls[0], before);
      RunDrains(v, ls[1..], before);
    }
  }

  // ------------------------------------------------------------------ one turn

  /** Where a turn of reconcile on order `o` may be. */
  predicate TurnPc(pc: Pc, o: int) {
    match pc
    case Inquiring(p) => p == o
    case Judged(p, ask, _, _, _) => p == o && ask.AskInquire?
    case Refunding(p, _, _) => p == o
    case RefundAnswered(p, _, _) => p == o
    case Done => true
    case _ => false
  }

  /** And where it is when the gateway has answered so far. */
  ghost predicate OnTurn(w: World, d: int, o: int) {
    && Inv(w) && NumberedIn(w) && d in w.drivers && TurnPc(w.drivers[d], o) && o in w.db.orders
    && (w.drivers[d].Judged? ==> !w.drivers[d].answer.result.Unknown?)
    && (w.drivers[d].RefundAnswered? ==> w.drivers[d].answer.result.Approved?)
    && (w.drivers[d].Done? ==> !w.db.orders[o].status.Pending?)
  }

  /** Steps left at most. */
  function StepsLeft(pc: Pc): nat {
    match pc
    case Inquiring(_) => 4
    case Judged(_, _, _, _, _) => 3
    case Refunding(_, _, _) => 2
    case RefundAnswered(_, _, _) => 1
    case _ => 0
  }

  /** Others change nothing about where the turn is, whatever they do. */
  lemma OthersKeepTurn(w: World, d: int, o: int, others: seq<Label>)
    requires OnTurn(w, d, o) && AllForeign(others, d)
    ensures OnTurn(Exec(w, others), d, o) && Exec(w, others).drivers[d] == w.drivers[d]
  {
    hide Inv, NumberedIn, Step;
    ForeignKeeps(w, others, d);
    ExecInv(w, others);
    ExecNumbered(w, others);
    RunDrains(w, others, w.clock);
  }

  lemma InquiryGoes(w: World, d: int, o: int)
    requires OnTurn(w, d, o) && w.drivers[d].Inquiring?
    ensures var v := Step(w, Go(d, ANSWERED));
            d in v.drivers && v.drivers[d].Judged? && TurnPc(v.drivers[d], o) && !v.drivers[d].answer.result.Unknown?
    ensures !Throws(w, d, ANSWERED)
  {}

  lemma JudgementGoes(w: World, d: int, o: int)
    requires OnTurn(w, d, o) && w.drivers[d].Judged?
    ensures var v := Step(w, Go(d, ANSWERED));
            && d in v.drivers && TurnPc(v.drivers[d], o) && (v.drivers[d].Refunding? || v.drivers[d].Done?)
            && o in v.db.orders && (v.drivers[d].Done? ==> !v.db.orders[o].status.Pending?)
    ensures !Throws(w, d, ANSWERED)
  {
    hide Inv, NumberedIn, TidFree, Confirmable, Settle, Put;
    var pc := w.drivers[d];
    DriverKnows(w, d);
    if pc.answer.result.Declined? {
      DeclinedGo(w, d, ANSWERED);
    } else {
      if StillPending(w, o) { ChargeIsFree(w, o); }
      ApprovedGo(w, d, ANSWERED);
    }
  }

  lemma RefundGoes(w: World, d: int, o: int)
    requires OnTurn(w, d, o) && w.drivers[d].Refunding?
    ensures var v := Step(w, Go(d, ANSWERED));
            && d in v.drivers && v.drivers[d].RefundAnswered? && TurnPc(v.drivers[d], o)
            && v.drivers[d].answer.result.Approved?
    ensures !Throws(w, d, ANSWERED)
  {
    DriverKnows(w, d);
    hide Inv, NumberedIn;
    RefundGo(w, d, ANSWERED);
  }

  lemma RecordGoes(w: World, d: int, o: int)
    requires OnTurn(w, d, o) && w.drivers[d].RefundAnswered?
    ensures var v := Step(w, Go(d, ANSWERED));
            && d in v.drivers && v.drivers[d].Done? && o in v.db.orders && !v.db.orders[o].status.Pending?
    ensures !Throws(w, d, ANSWERED)
  {
    DriverKnows(w, d);
    assert FreeNumber(w.db.payments, w.pg, w.nextTid, w.drivers[d].answer.tid.value);
    hide Inv, NumberedIn, TidFree;
    RefundRecordGo(w, d, ANSWERED);
  }

  /** Each own step goes on, and raises nothing. */
  lemma OwnStepGoes(w: World, d: int, o: int)
    requires OnTurn(w, d, o) && !w.drivers[d].Done?
    ensures var v := Step(w, Go(d, ANSWERED));
            OnTurn(v, d, o) && StepsLeft(v.drivers[d]) < StepsLeft(w.drivers[d]) && !Throws(w, d, ANSWERED)
  {
    hide Inv, NumberedIn, Step, Throws;
    StepInv(w, Go(d, ANSWERED));
    StepNumbered(w, Go(d, ANSWERED));
    StepDrains(w, Go(d, ANSWERED), w.clock);
    match w.drivers[d]
    case Inquiring(_) => InquiryGoes(w, d, o);
    case Judged(_, _, _, _, _) => JudgementGoes(w, d, o);
    case Refunding(_, _, _) => RefundGoes(w, d, o);
    case RefundAnswered(_, _, _) => RecordGoes(w, d, o);
  }

  /** The gateway answers this driver, as often as it may ask; others do what they want. */
  predicate Served(plan: seq<Moment>, d: int) {
    PlanFor(plan, d) && |plan| >= 4 && forall i :: 0 <= i < |plan| ==> plan[i].c == ANSWERED
  }

  lemma {:induction false} DriveEnds(w: World, d: int, o: int, plan: seq<Moment>)
    requires OnTurn(w, d, o) && PlanFor(plan, d) && |plan| >= StepsLeft(w.drivers[d])
    requires forall i :: 0 <= i < |plan| ==> plan[i].c == ANSWERED
    ensures OnTurn(Drive(w, d, plan), d, o) && Drive(w, d, plan).drivers[d].Done? && !Escapes(w, d, plan)
    decreases |plan|
  {
    hide Inv, NumberedIn, Step, Throws;
    if !w.drivers[d].Done? {
      OthersKeepTurn(w, d, o, plan[0].others);
      OwnStepGoes(Exec(w, plan[0].others), d, o);
      DriveEnds(Next(w, d, plan[0]), d, o, plan[1..]);
    }
  }

  function Begun(w: World, d: int, o: int): World {
    Step(w, StartReconcile(d, o))
  }

  lemma BegunOnTurn(w: World, d: int, o: int)
    requires Ready(w, d) && o in w.db.orders
    ensures OnTurn(Begun(w, d, o), d, o) && Begun(w, d, o) == Moved(w, d, Inquiring(o))
  {
    hide Inv, NumberedIn;
    StepInv(w, StartReconcile(d, o));
    StepNumbered(w, StartReconcile(d, o));
  }

  /** A turn concludes its order and raises nothing, whatever others do before each of its steps. */
  lemma TurnConcludes(w: World, d: int, o: int, plan: seq<Moment>, before: int)
    requires Ready(w, d) && o in w.db.orders && Served(plan, d) && before <= w.clock
    ensures var v := Drive(Begun(w, d, o), d, plan);
            && Ready(v, d) && o in v.db.orders && !v.db.orders[o].status.Pending?
            && Draining(w, v, before)
            && !Escapes(Begun(w, d, o), d, plan)
  {
    BegunOnTurn(w, d, o);
    DriveEnds(Begun(w, d, o), d, o, plan);
    CallIsARun(w, StartReconcile(d, o), d, plan);
    RunDrains(w, [StartReconcile(d, o)] + DriveLabels(Begun(w, d, o), d, plan), before);
  }

  // ------------------------------------------------------------------ one tick

  predicate AllServed(plans: seq<seq<Moment>>, d: int) {
    forall i :: 0 <= i < |plans| ==> Served(plans[i], d)
  }

  lemma DrainingTransitive(a: World, b: World, c: World, before: int)
    requires Draining(a, b, before) && Draining(b, c, before)
    ensures Draining(a, c, before)
  {}

  /** A tick goes through all its candidates and concludes them. */
  lemma {:induction false} TickConcludes(w: World, d: int, ids: seq<int>, plans: seq<seq<Moment>>, before: int)
    requires Ready(w, d) && |ids| <= |plans| && AllServed(plans, d) && before <= w.clock
    requires forall id :: id in ids ==> id in w.db.orders
    ensures var v := Turns(w, d, ids, plans);
            && Ready(v, d) && Draining(w, v, before)
            && (forall id :: id in ids ==> id in v.db.orders && !v.db.orders[id].status.Pending?)
            && (forall i :: 0 <= i < |ids| ==> !EscapesAt(w, d, ids, i, plans))
    decreases |ids|
  {
    hide Ready, Draining, Served, Drive, Escapes;
    if ids == [] {
      DrainingItself(w, before);
    } else {
      var n := |ids| - 1;
      var front := ids[..n];
      TickConcludes(w, d, front, plans, before);
      var u := Turns(w, d, front, plans);
      DrainedFacts(w, u, before, ids[n]);
      TurnConcludes(u, d, ids[n], plans[n], before);
      var v := Turns(w, d, ids, plans);
      DrainingTransitive(w, u, v, before);
      forall id | id in ids
        ensures id in v.db.orders && !v.db.orders[id].status.Pending?
      {
        if id in front { DrainedFacts(u, v, before, id); }
      }
      forall i | 0 <= i < |ids|
        ensures !EscapesAt(w, d, ids, i, plans)
      {
        if i < n { assert front[..i] == ids[..i] && !EscapesAt(w, d, front, i, plans); }
      }
    }
  }

  lemma DrainingItself(w: World, before: int)
    ensures Draining(w, w, before)
  {}

  lemma DrainedFacts(w: World, v: World, before: int, id: int)
    requires Draining(w, v, before) && id in w.db.orders
    ensures w.clock <= v.clock && id in v.db.orders
    ensures !w.db.orders[id].status.Pending? ==> !v.db.orders[id].status.Pending?
  {}

  // ------------------------------------------------------------------ many ticks

  /** What others do before a tick, the orders they have locked when it scans, what it scans, and
      what happens at each await of each of its turns. */
  datatype Round = Round(others: seq<Label>, locked: set<int>, ids: seq<int>, plans: seq<seq<Moment>>)

  predicate Planned(rs: seq<Round>) {
    forall i :: 0 <= i < |rs| ==> |rs[i].ids| <= |rs[i].plans|
  }

  function AfterRound(w: World, d: int, r: Round): World
    requires |r.ids| <= |r.plans|
  {
    Turns(Exec(w, r.others), d, r.ids, r.plans)
  }

  function AfterRounds(w: World, d: int, rs: seq<Round>): World
    requires Planned(rs)
    decreases |rs|
  {
    if rs == [] then w else AfterRounds(AfterRound(w, d, rs[0]), d, rs[1..])
  }

  /** The list a round returns, and all of them. */
  function Listed(w: World, d: int, r: Round): seq<int>
    requires |r.ids| <= |r.plans|
  {
    ConfirmedBy(Exec(w, r.others), d, r.ids, r.plans)
  }

  function AllListed(w: World, d: int, rs: seq<Round>): seq<int>
    requires Planned(rs)
    decreases |rs|
  {
    if rs == [] then [] else Listed(w, d, rs[0]) + AllListed(AfterRound(w, d, rs[0]), d, rs[1..])
  }

  /** The round scans as unresolved_orders does, and others leave this driver alone. */
  ghost predicate RoundOk(w: World, d: int, r: Round, olderThan: nat, batch: nat) {
    var v := Exec(w, r.others);
    && AllForeign(r.others, d) && AllServed(r.plans, d) && |r.ids| <= |r.plans|
    && ScansOldest(v.db.orders, v.clock - olderThan, r.locked, r.ids, batch)
  }

  ghost predicate Scanned(w: World, d: int, rs: seq<Round>, olderThan: nat, batch: nat)
    requires Planned(rs)
    decreases |rs|
  {
    rs != [] ==>
      && RoundOk(w, d, rs[0], olderThan, batch)
      && Scanned(AfterRound(w, d, rs[0]), d, rs[1..], olderThan, batch)
  }

  /** At most this many of the old orders are locked by others at any scan. */
  ghost predicate LocksWithin(w: World, d: int, rs: seq<Round>, before: int, locks: nat)
    requires Planned(rs)
    decreases |rs|
  {
    rs != [] ==>
      && |Backlog(Exec(w, rs[0].others), before) * rs[0].locked| <= locks
      && LocksWithin(AfterRound(w, d, rs[0]), d, rs[1..], before, locks)
  }

  lemma StaysAway(w: World, l: Label, d: int)
    requires d !in w.drivers && Foreign(l, d)
    ensures d !in Step(w, l).drivers
  {}

  lemma {:induction false} StaysUnused(w: World, ls: seq<Label>, d: int)
    requires Unused(w, d) && AllForeign(ls, d)
    ensures Unused(Exec(w, ls), d)
    decreases |ls|
  {
    hide Step;
    if ls != [] {
      assert Foreign(ls[0], d);
      if d in w.drivers { ForeignStep(w, ls[0], d); } else { StaysAway(w, ls[0], d); }
      StaysUnused(Step(w, ls[0]), ls[1..], d);
    }
  }

  lemma ReadyToScan(w: World, d: int, others: seq<Label>, before: int)
    requires Ready(w, d) && AllForeign(others, d) && before <= w.clock
    ensures Ready(Exec(w, others), d) && Draining(w, Exec(w, others), before)
  {
    hide Inv, NumberedIn, Draining;
    ExecInv(w, others);
    ExecNumbered(w, others);
    StaysUnused(w, others, d);
    RunDrains(w, others, before);
  }

  /** Oldest first: a full batch is taken from the old backlog, or all of it that nobody has locked,
      even when younger orders have become due. */
  lemma OldestTaken(orders: Orders, before: int, cutoff: int, locked: set<int>, ids: seq<int>, batch: nat)
    requires before <= cutoff && ScansOldest(orders, cutoff, locked, ids, batch)
    ensures var aged := set id | id in orders && orders[id].status.Pending? && orders[id].createdAt < before;
            Members(ids) >= aged - locked || (Members(ids) <= aged && |ids| == batch)
  {
    var aged := Aged(orders, before);
    if forall id :: id in aged && id !in locked ==> id in ids {
      assert aged - locked <= Members(ids);
    } else {
      var id :| id in aged && id !in locked && id !in ids;
      forall other | other in ids
        ensures other in aged
      {
        assert orders[other].createdAt <= orders[id].createdAt;
      }
    }
  }

  /** What is left of `n` after `rounds` batches, but for what is locked. */
  function Rest(n: int, rounds: nat, batch: nat, locks: nat): int {
    if n - rounds * batch > locks then n - rounds * batch else locks
  }

  lemma BacklogLess(backlog: set<int>, rest: set<int>, locked: set<int>, ids: seq<int>, batch: nat, locks: nat)
    requires Distinct(ids) && rest <= backlog - Members(ids) && |backlog * locked| <= locks
    requires Members(ids) >= backlog - locked || (Members(ids) <= backlog && |ids| == batch)
    ensures |rest| <= Rest(|backlog|, 1, batch, locks)
  {
    MembersSize(ids);
    SubsetSize(rest, backlog - Members(ids));
    if Members(ids) >= backlog - locked {
      assert rest <= backlog * locked;
      SubsetSize(rest, backlog * locked);
    } else {
      assert |backlog - Members(ids)| == |backlog| - |Members(ids)|;
    }
  }

  lemma ScannedKnown(w: World, d: int, r: Round, olderThan: nat, batch: nat)
    requires RoundOk(w, d, r, olderThan, batch)
    ensures Distinct(r.ids) && forall id :: id in r.ids ==> StillPending(Exec(w, r.others), id)
  {}

  lemma RoundShrinks(w: World, d: int, r: Round, before: int, olderThan: nat, batch: nat)
    requires Ready(w, d) && RoundOk(w, d, r, olderThan, batch) && before <= w.clock - olderThan
    ensures var u, v := Exec(w, r.others), AfterRound(w, d, r);
            && Ready(u, d) && Ready(v, d) && before <= v.clock - olderThan
            && Backlog(u, before) <= Backlog(w, before) && Backlog(v, before) <= Backlog(u, before) - Members(r.ids)
            && (forall id :: id in r.ids ==> id in v.db.orders && !v.db.orders[id].status.Pending?)
  {
    hide Ready, ScansOldest, AllServed, AllForeign, Turns;
    var u := Exec(w, r.others);
    ReadyToScan(w, d, r.others, before);
    ScannedKnown(w, d, r, olderThan, batch);
    TickConcludes(u, d, r.ids, r.plans, before);
    var v := AfterRound(w, d, r);
    forall id | id in Backlog(v, before)
      ensures id in Backlog(u, before) - Members(r.ids)
    {
      assert id in Backlog(u, before) && id !in r.ids;
    }
  }

  lemma RoundTakes(w: World, d: int, r: Round, before: int, olderThan: nat, batch: nat, locks: nat)
    requires Ready(w, d) && RoundOk(w, d, r, olderThan, batch) && before <= w.clock - olderThan
    requires |Backlog(Exec(w, r.others), before) * r.locked| <= locks
    ensures |Backlog(AfterRound(w, d, r), before)| <= Rest(|Backlog(w, before)|, 1, batch, locks)
  {
    hide Ready, Turns, AllServed, AllForeign;
    var u := Exec(w, r.others);
    RoundShrinks(w, d, r, before, olderThan, batch);
    ScannedKnown(w, d, r, olderThan, batch);
    RunClock(w, r.others);
    OldestTaken(u.db.orders, before, u.clock - olderThan, r.locked, r.ids, batch);
    BacklogLess(Backlog(u, before), Backlog(AfterRound(w, d, r), before), r.locked, r.ids, batch, locks);
    SubsetSize(Backlog(u, before), Backlog(w, before));
  }

  lemma {:induction false} RunClock(w: World, ls: seq<Label>)
    ensures w.clock <= Exec(w, ls).clock
    decreases |ls|
  {
    hide Step;
    if ls != [] {
      AtMostOne(w, ls[0]);
      RunClock(Step(w, ls[0]), ls[1..]);
    }
  }

  lemma RestStep(n: int, m: int, rounds: nat, batch: nat, locks: nat)
    requires rounds > 0 && m <= Rest(n, 1, batch, locks)
    ensures Rest(m, rounds - 1, batch, locks) <= Rest(n, rounds, batch, locks)
  {
    assert rounds * batch == batch + (rounds - 1) * batch;
    assert (rounds - 1) * batch >= 0;
  }

  lemma {:induction false} BacklogDrains(w: World, d: int, rs: seq<Round>, before: int, olderThan: nat,
                                         batch: nat, locks: nat)
    requires Ready(w, d) && Planned(rs) && before <= w.clock - olderThan
    requires Scanned(w, d, rs, olderThan, batch) && LocksWithin(w, d, rs, before, locks)
    ensures var v := AfterRounds(w, d, rs);
            && |Backlog(v, before)| <= Rest(|Backlog(w, before)|, |rs|, batch, locks)
            && SameDates(w, v)
    decreases |rs|
  {
    hide Ready, AfterRound, RoundOk, Backlog, Rest;
    if rs != [] {
      var v := AfterRound(w, d, rs[0]);
      RoundShrinks(w, d, rs[0], before, olderThan, batch);
      RoundTakes(w, d, rs[0], before, olderThan, batch, locks);
      RoundKeepsOrders(w, d, rs[0], olderThan, batch);
      BacklogDrains(v, d, rs[1..], before, olderThan, batch, locks);
      RestStep(|Backlog(w, before)|, |Backlog(v, before)|, |rs|, batch, locks);
    } else {
      NothingTaken(|Backlog(w, before)|, batch, locks);
    }
  }

  lemma NothingTaken(n: int, batch: nat, locks: nat)
    ensures n <= Rest(n, 0, batch, locks)
  {}

  lemma RoundKeepsOrders(w: World, d: int, r: Round, olderThan: nat, batch: nat)
    requires Ready(w, d) && RoundOk(w, d, r, olderThan, batch)
    ensures SameDates(w, AfterRound(w, d, r))
  {
    hide ScansOldest, AllServed, AllForeign, Turns, Ready, Backlog;
    ReadyToScan(w, d, r.others, w.clock);
    ScannedKnown(w, d, r, olderThan, batch);
    TickConcludes(Exec(w, r.others), d, r.ids, r.plans, w.clock);
  }

  /** Drained: in any world that a run of the saga reached, and whatever others do before and during the
      rounds, what was pending and old enough at first is concluded once the rounds together have
      room for it, except for as many orders as others keep locked at the scans. */
  lemma ReconcilerDrainsTheBacklog(s: World, ls: seq<Label>, d: int, rs: seq<Round>, olderThan: nat, batch: nat,
                                    locks: nat)
    requires var w := Exec(s, ls);
             && Start(s) && Unused(w, d) && Planned(rs) && Scanned(w, d, rs, olderThan, batch)
             && LocksWithin(w, d, rs, w.clock - olderThan, locks)
    ensures var w := Exec(s, ls);
            var v := AfterRounds(w, d, rs);
            var limit := w.clock - olderThan;
            var due := set id | id in w.db.orders
                                && w.db.orders[id].status.Pending? && w.db.orders[id].createdAt < limit;
            var left := set id | id in v.db.orders
                                 && v.db.orders[id].status.Pending? && v.db.orders[id].createdAt < limit;
            && (|left| <= locks || |left| <= |due| - |rs| * batch)
            && (locks == 0 && |due| <= |rs| * batch ==>
                  forall id :: id in due ==> id in v.db.orders && !v.db.orders[id].status.Pending?)
  {
    hide Ready, Start, Scanned, LocksWithin;
    var w := Exec(s, ls);
    var before := w.clock - olderThan;
    ReachableIsReady(s, ls, d);
    BacklogDrains(w, d, rs, before, olderThan, batch, locks);
    var v := AfterRounds(w, d, rs);
    if locks == 0 && |Backlog(w, before)| <= |rs| * batch {
      assert Backlog(v, before) == {};
      forall id | id in Backlog(w, before)
        ensures id in v.db.orders && !v.db.orders[id].status.Pending?
      {
        assert id !in Backlog(v, before);
      }
    }
  }

  // ------------------------------------------------------------------ who confirmed what

  /** How often others confirm an order while this driver follows its plan. */
  function OthersInTurn(w: World, d: int, plan: seq<Moment>, id: int): nat
    decreases |plan|
  {
    if plan == [] || Unused(w, d) then 0
    else
      Confirmations(w.db, CommittedIn(w, plan[0].others), id) + OthersInTurn(Next(w, d, plan[0]), d, plan[1..], id)
  }

  function OthersInTick(w: World, d: int, ids: seq<int>, plans: seq<seq<Moment>>, id: int): nat
    requires |ids| <= |plans|
  {
    if ids == [] then 0
    else
      var n := |ids| - 1;
      OthersInTick(w, d, ids[..n], plans, id)
      + OthersInTurn(Begun(Turns(w, d, ids[..n], plans), d, ids[n]), d, plans[n], id)
  }

  function OthersInRounds(w: World, d: int, rs: seq<Round>, id: int): nat
    requires Planned(rs)
    decreases |rs|
  {
    if rs == [] then 0
    else
      var r := rs[0];
      Confirmations(w.db, CommittedIn(w, r.others), id) + OthersInTick(Exec(w, r.others), d, r.ids, r.plans, id)
      + OthersInRounds(AfterRound(w, d, r), d, rs[1..], id)
  }

  /** A stretch of any steps pays as many orders as its transactions confirm. */
  lemma StretchPays(w: World, ls: seq<Label>, id: int)
    requires Inv(w)
    ensures PaidOnce(Exec(w, ls).db, id) == PaidOnce(w.db, id) + Confirmations(w.db, CommittedIn(w, ls), id)
  {
    SagaIsAHistory(w, ls);
    ConfirmedExactlyOnce(w.db, CommittedIn(w, ls), id);
  }

  lemma OwnStepMoves(w: World, d: int, o: int, c: Choice)
    requires d in w.drivers && TurnPc(w.drivers[d], o)
    ensures var v := Step(w, Go(d, c));
            d in v.drivers && TurnPc(v.drivers[d], o) && (ConfirmsNow(w, d, c) ==> v.drivers[d].Done?)
  {}

  /** An own step pays an order exactly when it confirms it. */
  lemma OwnStepPays(w: World, d: int, o: int, c: Choice, id: int)
    requires Inv(w) && d in w.drivers && TurnPc(w.drivers[d], o)
    ensures PaidOnce(Step(w, Go(d, c)).db, id)
            == PaidOnce(w.db, id) + if ConfirmsNow(w, d, c) && id == o then 1 else 0
  {
    hide Inv, Step, Apply, PaidOnce, DbInv;
    TablesAreSound(w);
    StepCommits(w, Go(d, c));
    var ops := CommittedBy(w.drivers[d], c, w.clock);
    if ops == [] {
      assert Run(w.db, ops) == w.db;
    } else {
      RunSingle(w.db, ops);
      StepConfirms(w.db, ops[0].op, ops[0].now, id);
      ConfirmsBySaying(w, d, o, c);
    }
  }

  lemma ConfirmsBySaying(w: World, d: int, o: int, c: Choice)
    requires d in w.drivers && TurnPc(w.drivers[d], o) && |CommittedBy(w.drivers[d], c, w.clock)| == 1
    ensures var t := CommittedBy(w.drivers[d], c, w.clock)[0];
            && (ConfirmsNow(w, d, c) <==> t.op.Confirm? && Apply(w.db, t.op, t.now).1.Confirmed?)
            && (t.op.Confirm? ==> t.op.order == o)
  {}

  lemma {:induction false} TurnPays(w: World, d: int, o: int, plan: seq<Moment>, id: int)
    requires Inv(w) && d in w.drivers && TurnPc(w.drivers[d], o) && PlanFor(plan, d)
    ensures PaidOnce(Drive(w, d, plan).db, id)
            == PaidOnce(w.db, id) + (if Confirms(w, d, plan) && id == o then 1 else 0) + OthersInTurn(w, d, plan, id)
    decreases |plan|
  {
    hide Inv, Step, PaidOnce, Confirmations, TurnPc, ConfirmsNow;
    if plan != [] && !Unused(w, d) {
      var m := plan[0];
      var u := Exec(w, m.others);
      ForeignKeeps(w, m.others, d);
      ExecInv(w, m.others);
      StretchPays(w, m.others, id);
      OwnStepPays(u, d, o, m.c, id);
      OwnStepMoves(u, d, o, m.c);
      StepInv(u, Go(d, m.c));
      TurnPays(Next(w, d, m), d, o, plan[1..], id);
    }
  }

  lemma {:induction false} TickPays(w: World, d: int, ids: seq<int>, plans: seq<seq<Moment>>, id: int)
    requires Ready(w, d) && |ids| <= |plans| && AllServed(plans, d)
    requires forall o :: o in ids ==> o in w.db.orders
    ensures PaidOnce(Turns(w, d, ids, plans).db, id)
            == PaidOnce(w.db, id) + multiset(ConfirmedBy(w, d, ids, plans))[id] + OthersInTick(w, d, ids, plans, id)
    decreases |ids|
  {
    hide Inv, NumberedIn, PaidOnce, Draining, OthersInTurn, Drive, Confirms;
    if ids != [] {
      var n := |ids| - 1;
      TickPays(w, d, ids[..n], plans, id);
      TickConcludes(w, d, ids[..n], plans, w.clock);
      var u := Turns(w, d, ids[..n], plans);
      DrainedFacts(w, u, w.clock, ids[n]);
      BegunTurns(u, d, ids[n]);
      TurnPays(Begun(u, d, ids[n]), d, ids[n], plans[n], id);
    }
  }

  lemma BegunTurns(w: World, d: int, o: int)
    requires Ready(w, d) && o in w.db.orders
    ensures var v := Begun(w, d, o); Inv(v) && d in v.drivers && TurnPc(v.drivers[d], o) && v.db == w.db
  {
    hide Inv, NumberedIn;
    BegunOnTurn(w, d, o);
  }

  lemma {:induction false} RoundsPay(w: World, d: int, rs: seq<Round>, olderThan: nat, batch: nat, id: int)
    requires Ready(w, d) && Planned(rs) && Scanned(w, d, rs, olderThan, batch)
    ensures PaidOnce(AfterRounds(w, d, rs).db, id)
            == PaidOnce(w.db, id) + multiset(AllListed(w, d, rs))[id] + OthersInRounds(w, d, rs, id)
    decreases |rs|
  {
    hide Inv, NumberedIn, PaidOnce, Turns, ConfirmedBy, OthersInTick, ScansOldest, Confirmations, Backlog;
    if rs != [] {
      var r := rs[0];
      ReadyToScan(w, d, r.others, w.clock);
      ScannedKnown(w, d, r, olderThan, batch);
      StretchPays(w, r.others, id);
      TickPays(Exec(w, r.others), d, r.ids, r.plans, id);
      TickConcludes(Exec(w, r.others), d, r.ids, r.plans, w.clock);
      RoundsPay(AfterRound(w, d, r), d, rs[1..], olderThan, batch, id);
    }
  }

  lemma TwiceCounts(list: seq<int>, i: nat, j: nat)
    requires i < j < |list| && list[i] == list[j]
    ensures multiset(list)[list[i]] >= 2
  {
    var front, rest := list[..i + 1], list[i + 1..];
    assert list == front + rest && front[i] == list[i] && rest[j - i - 1] == list[j];
    assert list[i] in front && list[i] in rest;
  }

  lemma OnceEach(list: seq<int>)
    requires forall x :: multiset(list)[x] <= 1
    ensures Distinct(list)
  {
    forall i, j | 0 <= i < j < |list|
      ensures list[i] != list[j]
    {
      if list[i] == list[j] {
        TwiceCounts(list, i, j);
        assert false;
      }
    }
  }

  /** The lists account for every order. Whoever interferes: an order that becomes PAID during the rounds is
      either listed, once, because this reconciler's own call confirmed it, or was confirmed, once, by
      somebody else; no order is both, none is listed that was paid before, and every listed one has
      been paid since. */
  lemma ListsAreExact(s: World, ls: seq<Label>, d: int, rs: seq<Round>, olderThan: nat, batch: nat)
    requires Start(s) && Unused(Exec(s, ls), d) && Planned(rs) && Scanned(Exec(s, ls), d, rs, olderThan, batch)
    ensures var w := Exec(s, ls);
            var v := AfterRounds(w, d, rs);
            var list := AllListed(w, d, rs);
            && (forall id ::
                  PaidOnce(v.db, id) == PaidOnce(w.db, id) + multiset(list)[id] + OthersInRounds(w, d, rs, id))
            && Distinct(list)
            && (forall id :: id in list ==>
                  && id in v.db.orders && EverPaid(v.db.orders[id])
                  && (id in w.db.orders ==> !EverPaid(w.db.orders[id]))
                  && OthersInRounds(w, d, rs, id) == 0)
  {
    hide Ready, Start, Scanned, AfterRounds, AllListed, OthersInRounds;
    var w := Exec(s, ls);
    ReachableIsReady(s, ls, d);
    forall id { RoundsPay(w, d, rs, olderThan, batch, id); }
    var list := AllListed(w, d, rs);
    assert forall id :: multiset(list)[id] <= PaidOnce(AfterRounds(w, d, rs).db, id);
    OnceEach(list);
    forall id | id in list
      ensures multiset(list)[id] >= 1
    {}
  }

  // ------------------------------------------------------------------ when nobody else acts

  /** One transaction on a sound order: no other order changes, and it changes only while it is pending. */
  lemma OpTouches(db: Db, op: Op, now: int, o: int)
    requires DbInv(db) && (op.Confirm? || op.CloseUnpaid? || op.RecordRefund?) && op.order == o && o in db.orders
    ensures var d := Apply(db, op, now).0;
            && d.orders.Keys == db.orders.Keys
            && (forall p :: p in db.orders && p != o ==> d.orders[p] == db.orders[p])
            && (if db.orders[o].status.Pending? then d.orders[o].status.Paid? == EverPaid(d.orders[o])
                else d.orders[o] == db.orders[o])
  {
    hide ShapeInv, ItemInv, BookedInv, KeyInv, RowsInv, CountInv, OutboxInv, Settle, Put, TidFree, SumPrices;
    assert OrderOk(db.seats, db.items, o, db.orders[o]);
  }

  lemma TurnCommits(w: World, d: int, o: int, c: Choice)
    requires d in w.drivers && TurnPc(w.drivers[d], o)
    ensures var ops := CommittedBy(w.drivers[d], c, w.clock);
            |ops| <= 1 && (ops != [] ==>
              var op := ops[0].op; (op.Confirm? || op.CloseUnpaid? || op.RecordRefund?) && op.order == o)
  {}

  lemma NotPaidWhilePending(w: World, o: int)
    requires Inv(w) && o in w.db.orders && w.db.orders[o].status.Pending?
    ensures !EverPaid(w.db.orders[o])
  {
    assert OrderOk(w.db.seats, w.db.items, o, w.db.orders[o]);
  }

  /** By its own steps a turn touches no order but its own, and that one only while it is pending. */
  lemma OwnStepTouches(w: World, d: int, o: int, c: Choice)
    requires Inv(w) && d in w.drivers && TurnPc(w.drivers[d], o) && o in w.db.orders
    ensures var v := Step(w, Go(d, c));
            && v.db.orders.Keys == w.db.orders.Keys
            && (forall p :: p in w.db.orders && p != o ==> v.db.orders[p] == w.db.orders[p])
            && (if w.db.orders[o].status.Pending? then v.db.orders[o].status.Paid? == EverPaid(v.db.orders[o])
                else v.db.orders[o] == w.db.orders[o])
  {
    hide Inv, DbInv, Step, Apply, TurnPc, CommittedBy, EverPaid;
    TablesAreSound(w);
    StepCommits(w, Go(d, c));
    TurnCommits(w, d, o, c);
    if w.db.orders[o].status.Pending? { NotPaidWhilePending(w, o); }
    var ops := CommittedBy(w.drivers[d], c, w.clock);
    if ops != [] {
      RunSingle(w.db, ops);
      OpTouches(w.db, ops[0].op, ops[0].now, o);
    }
  }

  lemma {:induction false} CalmDrive(w: World, d: int, o: int, plan: seq<Moment>)
    requires Inv(w) && d in w.drivers && TurnPc(w.drivers[d], o) && o in w.db.orders
    requires forall i :: 0 <= i < |plan| ==> plan[i].others == []
    requires w.db.orders[o].status.Pending? || w.db.orders[o].status.Paid? == EverPaid(w.db.orders[o])
    ensures var v := Drive(w, d, plan);
            && v.db.orders.Keys == w.db.orders.Keys
            && (forall p :: p in w.db.orders && p != o ==> v.db.orders[p] == w.db.orders[p])
            && (v.db.orders[o].status.Pending? || v.db.orders[o].status.Paid? == EverPaid(v.db.orders[o]))
    ensures forall id :: OthersInTurn(w, d, plan, id) == 0
    decreases |plan|
  {
    hide Inv, Step, TurnPc, EverPaid;
    if plan != [] && !Unused(w, d) {
      var m := plan[0];
      assert m.others == [] && Exec(w, m.others) == w && CommittedIn(w, m.others) == [];
      OwnStepTouches(w, d, o, m.c);
      OwnStepMoves(w, d, o, m.c);
      StepInv(w, Go(d, m.c));
      CalmDrive(Next(w, d, m), d, o, plan[1..]);
    }
  }

  /** A turn nobody interferes with concludes its order and touches no other, and it is counted exactly
      when it made the order PAID. */
  lemma CalmTurnIsExact(w: World, d: int, o: int, plan: seq<Moment>)
    requires Ready(w, d) && StillPending(w, o) && Served(plan, d)
    requires forall i :: 0 <= i < |plan| ==> plan[i].others == []
    ensures var v := Drive(Begun(w, d, o), d, plan);
            && v.db.orders.Keys == w.db.orders.Keys && !v.db.orders[o].status.Pending?
            && (forall p :: p in w.db.orders && p != o ==> v.db.orders[p] == w.db.orders[p])
            && (Confirms(Begun(w, d, o), d, plan) <==> v.db.orders[o].status.Paid?)
  {
    assert OrderOk(w.db.seats, w.db.items, o, w.db.orders[o]);
    hide Inv, NumberedIn;
    BegunTurns(w, d, o);
    CalmDrive(Begun(w, d, o), d, o, plan);
    TurnPays(Begun(w, d, o), d, o, plan, o);
    TurnConcludes(w, d, o, plan, w.clock);
  }
}

/** For each assumption behind money conservation a run that breaks it once and nothing else, from the
    start of any inventory with a seat that costs something, and ends with the money gone. Driver 1
    is a call of place, drivers 2 and 3 are cancels or the reconciler; the order is number 0. */
module SagaRuns {
  import opened Domain
  import opened Tables
  import opened Transactions
  import opened Invariants
  import opened Resale
  import opened Saga
  import opened SagaSafety
  import opened SagaMoney
  import opened SagaLimits

  // ------------------------------------------------------------------ runs, label by label

  /** The disciplined run `ls` leads from `w` to `v`. */
  ghost predicate Along(w: World, ls: seq<Label>, v: World) {
    DisciplinedRun(w, ls) && Exec(w, ls) == v
  }

  lemma {:induction false} Onward(w: World, ls: seq<Label>, v: World, l: Label)
    requires Along(w, ls, v) && Disciplined(v, l)
    ensures Along(w, ls + [l], Step(v, l))
    decreases |ls|
  {
    hide Step, Disciplined;
    if ls == [] {
      assert ls + [l] == [l] && [l][1..] == [];
      assert Exec(w, [l]) == Exec(Step(w, l), [l][1..]);
      assert DisciplinedRun(Step(w, l), []);
      assert DisciplinedRun(w, [l]) == (Disciplined(w, l) && DisciplinedRun(Step(w, l), [l][1..]));
    } else {
      assert (ls + [l])[0] == ls[0] && (ls + [l])[1..] == ls[1..] + [l];
      Onward(Step(w, ls[0]), ls[1..], v, l);
    }
  }

  lemma AlongNone(v: World)
    ensures Along(v, [], v)
  {}

  lemma AlongOne(v: World, a: Label)
    requires Disciplined(v, a)
    ensures Along(v, [a], Step(v, a))
  {
    hide Step, Disciplined;
    Onward(v, [], v, a);
    assert [] + [a] == [a];
  }

  lemma AlongTwo(v: World, a: Label, b: Label)
    requires Disciplined(v, a) && Disciplined(Step(v, a), b)
    ensures Along(v, [a] + [b], Step(Step(v, a), b))
  {
    hide Along, Step, Disciplined;
    AlongOne(v, a);
    Onward(v, [a], Step(v, a), b);
  }

  /** One broken assumption in a run that is disciplined before and after, and the money is gone. */
  ghost predicate LosesMoney(w: World, before: seq<Label>, slip: Label, after: seq<Label>, a: Assumption) {
    && DisciplinedRun(w, before)
    && Breaks(Exec(w, before), slip, a) && (forall b :: Breaks(Exec(w, before), slip, b) ==> b == a)
    && DisciplinedRun(Step(Exec(w, before), slip), after)
    && var v := Exec(w, before + [slip] + after);
       0 in v.db.orders && !Conserved(v, 0)
  }

  lemma Loses(w: World, before: seq<Label>, u: World, slip: Label, after: seq<Label>, v: World, a: Assumption)
    requires Along(w, before, u) && Breaks(u, slip, a) && Along(Step(u, slip), after, v)
    requires 0 in v.db.orders && !Conserved(v, 0)
    ensures LosesMoney(w, before, slip, after, a)
  {
    hide Step, Conserved, Breaks, DisciplinedRun;
    BreaksOnlyOne(u, slip, a);
    ExecAppend(w, before, [slip]);
    assert [slip][1..] == [];
    assert Exec(u, [slip]) == Exec(Step(u, slip), [slip][1..]);
    ExecAppend(w, before + [slip], after);
  }

  // ------------------------------------------------------------------ how far every run goes

  /** The seat is held, the order for it is pending, its attempt open. */
  ghost predicate Pledged(w: World, k: SeatKey, db: Db)
    requires k in w.db.seats
  {
    && db.seats == w.db.seats[k := SeatRow(Held, Some(FIRST), Some(w.clock + HOLD_TTL), w.db.seats[k].price)]
    && db.orders == map[0 := OrderFor(w.db, k, FIRST, "key", w.clock)]
    && db.items == map[]
    && db.payments == [PaymentRow(0, Requested, w.db.seats[k].price, None, None)]
  }

  function Taking(k: SeatKey, now: int): Label {
    Outside(Acquire(k.schedule, FIRST, [k.seat], MAX_SEATS_PER_ORDER, HOLD_TTL), now)
  }

  /** Hold, start place, open the order, send the approval. */
  function Sent(w: World, k: SeatKey): seq<Label> {
    [Taking(k, w.clock)] + [StartPlace(1, k.schedule, FIRST, [k.seat], "key", MIN_HOLD_REMAINING_FOR_PAYMENT)]
      + [Go(1, HEARD)] + [Go(1, HEARD)]
  }

  ghost predicate SentWorld(w: World, k: SeatKey, v: World)
    requires k in w.db.seats
  {
    && Pledged(w, k, v.db) && v.clock == w.clock && v.nextTid == w.nextTid
    && v.drivers == map[1 := Waiting(0, w.db.seats[k].price, "key")]
    && Acc(v.pg, 0) == Account(1, Some(w.db.seats[k].price), None, 0, 0)
  }

  /** The places before the request leaves. */
  lemma HoldRun(w: World, k: SeatKey)
    requires Start(w) && k in w.db.seats
    ensures var v := Exec(w, [Taking(k, w.clock)]);
            && Along(w, [Taking(k, w.clock)], v)
            && v == w.(db := w.db.(seats := w.db.seats[k := SeatRow(Held, Some(FIRST), Some(w.clock + HOLD_TTL),
                                                                    w.db.seats[k].price)]))
  {
    hide Hold, Target;
    assert Owned(w.db, k.schedule, FIRST, w.clock) == {};
    HoldOne(w.db, k, FIRST, MAX_SEATS_PER_ORDER, HOLD_TTL, w.clock);
    Onward(w, [], w, Taking(k, w.clock));
    assert [] + [Taking(k, w.clock)] == [Taking(k, w.clock)];
  }

  /** place opens the order. */
  lemma OpenGo(w: World, k: SeatKey, v: World)
    requires Start(w) && k in w.db.seats && v.clock == w.clock && v.pg == map[] && v.nextTid == w.nextTid
    requires v.db == w.db.(seats := w.db.seats[k := SeatRow(Held, Some(FIRST), Some(w.clock + HOLD_TTL),
                                                            w.db.seats[k].price)])
    requires v.drivers == map[1 := Opening(k.schedule, FIRST, [k.seat], "key", MIN_HOLD_REMAINING_FOR_PAYMENT)]
    ensures var u := Step(v, Go(1, HEARD));
            && Pledged(w, k, u.db) && u.clock == w.clock && u.pg == map[] && u.nextTid == w.nextTid
            && u.drivers == map[1 := Sending(0, w.db.seats[k].price, "key")]
  {
    hide LiveSeats, SumPrices, Wanted;
    OpenOne(v.db, k, 0, FIRST, "key", MIN_HOLD_REMAINING_FOR_PAYMENT, w.clock);
  }

  lemma SentRun(w: World, k: SeatKey)
    requires Start(w) && k in w.db.seats
    ensures Along(w, Sent(w, k), Exec(w, Sent(w, k))) && SentWorld(w, k, Exec(w, Sent(w, k)))
  {
    hide DisciplinedRun, Pledged, Apply, Advance;
    HoldRun(w, k);
    var ls := [Taking(k, w.clock)];
    var held := Exec(w, ls);
    var start := StartPlace(1, k.schedule, FIRST, [k.seat], "key", MIN_HOLD_REMAINING_FOR_PAYMENT);
    Onward(w, ls, held, start);
    var begun := Step(held, start);
    OpenGo(w, k, begun);
    Onward(w, ls + [start], begun, Go(1, HEARD));
    var ordered := Step(begun, Go(1, HEARD));
    Onward(w, ls + [start] + [Go(1, HEARD)], ordered, Go(1, HEARD));
    SendGo(ordered, 1, HEARD);
  }

  /** The approval is decided, and the order's total charged. */
  function Charged(w: World, k: SeatKey): seq<Label> {
    Sent(w, k) + [Decide(0, true)]
  }

  ghost predicate ChargedWorld(w: World, k: SeatKey, v: World)
    requires k in w.db.seats
  {
    && Pledged(w, k, v.db)
    && Acc(v.pg, 0) == Account(1, None, Some(w.nextTid), w.db.seats[k].price, 0)
  }

  lemma ChargedRun(w: World, k: SeatKey)
    requires Start(w) && k in w.db.seats
    ensures var v := Exec(w, Charged(w, k));
            && Along(w, Charged(w, k), v) && ChargedWorld(w, k, v) && v.clock == w.clock
            && v.drivers == map[1 := Waiting(0, w.db.seats[k].price, "key")]
  {
    hide Start, Pledged, DisciplinedRun, Sent;
    SentRun(w, k);
    Onward(w, Sent(w, k), Exec(w, Sent(w, k)), Decide(0, true));
  }

  /** place hears that its approval was granted. */
  lemma HearGo(v: World, price: nat, tid: int)
    requires v.drivers == map[1 := Waiting(0, price, "key")] && Acc(v.pg, 0) == Account(1, None, Some(tid), price, 0)
    ensures var u := Step(v, Go(1, HEARD));
            && u.db == v.db && u.pg == v.pg && u.clock == v.clock && Disciplined(v, Go(1, HEARD))
            && u.drivers == map[1 := Judged(0, AskApprove, Attempt(PayResult.Approved, Some(tid)), price, "key")]
  {
    AwaitGo(v, 1, HEARD);
  }

  // ---- paid, and about to be cancelled

  /** place hears the approval and confirms. */
  function PaidFor(w: World, k: SeatKey): seq<Label> {
    Charged(w, k) + [Go(1, HEARD)] + [Go(1, HEARD)]
  }

  ghost predicate PaidWorld(w: World, k: SeatKey, v: World)
    requires k in w.db.seats
  {
    && v.db.orders.Keys == {0} && v.db.orders[0].status.Paid? && v.db.orders[0].total == w.db.seats[k].price
    && ApprovedTid(v.db.payments, 0) == Some(w.nextTid)
    && Acc(v.pg, 0) == Account(1, None, Some(w.nextTid), w.db.seats[k].price, 0)
  }

  lemma Promoted(price: nat, tid: int)
    ensures var ps := [PaymentRow(0, Requested, price, None, None)];
            ApprovedTid(Approving(ps, 0, price, tid), 0) == Some(tid)
  {
    var ps := [PaymentRow(0, Requested, price, None, None)];
    CountAppend([], ps[0], 0, Requested);
    assert [] + [ps[0]] == ps;
    assert Settle(ps, 0, PayStatus.Approved, Some(tid)) == Settle(ps[..0], 0, PayStatus.Approved, Some(tid))
        + [PaymentRow(0, PayStatus.Approved, price, Some(tid), None)];
  }

  lemma PaidRun(w: World, k: SeatKey)
    requires Start(w) && k in w.db.seats
    ensures var v := Exec(w, PaidFor(w, k));
            Along(w, PaidFor(w, k), v) && PaidWorld(w, k, v)
              && v.drivers == map[1 := Replaying(0, "key", REPLAY_ATTEMPTS)]
  {
    ChargedRun(w, k);
    var price := w.db.seats[k].price;
    var charged := Exec(w, Charged(w, k));
    HearGo(charged, price, w.nextTid);
    Onward(w, Charged(w, k), charged, Go(1, HEARD));
    var told := Step(charged, Go(1, HEARD));
    Onward(w, Charged(w, k) + [Go(1, HEARD)], told, Go(1, HEARD));
    hide Start, Along, Step, ConfirmTx, Confirmable;
    ApprovedGo(told, 1, HEARD);
    PayOne(told.db, k, 0, w.nextTid, told.clock);
    Promoted(price, w.nextTid);
  }

  /** A cancel reads the paid order. */
  function Read(w: World, k: SeatKey): seq<Label> {
    PaidFor(w, k) + [StartCancel(2, 0, 0, 9)] + [Go(2, HEARD)]
  }

  lemma ReadGo(v: World, d: int, price: nat, tid: int)
    requires d in v.drivers && v.drivers[d] == CancelReading(0, 0, 9)
    requires 0 in v.db.orders && v.db.orders[0].status.Paid? && v.db.orders[0].total == price
    requires ApprovedTid(v.db.payments, 0) == Some(tid)
    ensures var u := Step(v, Go(d, HEARD));
            && u.db == v.db && u.pg == v.pg
            && u.drivers == v.drivers[d := CancelRefunding(0, tid, FeeSnapshot(0, price))]
  {
    FeeBands(price, 0, 9);
  }

  lemma ReadRun(w: World, k: SeatKey)
    requires Start(w) && k in w.db.seats
    ensures var v := Exec(w, Read(w, k));
            && Along(w, Read(w, k), v) && PaidWorld(w, k, v)
            && v.drivers == map[1 := Replaying(0, "key", REPLAY_ATTEMPTS),
                                2 := CancelRefunding(0, w.nextTid, FeeSnapshot(0, w.db.seats[k].price))]
  {
    hide Start, DisciplinedRun, PaidFor, ApprovedTid, Apply, CancelFee;
    PaidRun(w, k);
    var paid := Exec(w, PaidFor(w, k));
    Onward(w, PaidFor(w, k), paid, StartCancel(2, 0, 0, 9));
    var begun := Step(paid, StartCancel(2, 0, 0, 9));
    Onward(w, PaidFor(w, k) + [StartCancel(2, 0, 0, 9)], begun, Go(2, HEARD));
    ReadGo(begun, 2, w.db.seats[k].price, w.nextTid);
    assert begun.drivers == map[1 := Replaying(0, "key", REPLAY_ATTEMPTS), 2 := CancelReading(0, 0, 9)];
  }

  // ---- charged, and too late to be confirmed

  /** The hold runs out before place hears the approval. */
  function Told(w: World, k: SeatKey): seq<Label> {
    Charged(w, k) + [Tick(HOLD_TTL + 1)] + [Go(1, HEARD)]
  }

  ghost predicate LateWorld(w: World, k: SeatKey, v: World)
    requires k in w.db.seats
  {
    ChargedWorld(w, k, v) && v.clock == w.clock + HOLD_TTL + 1
  }

  lemma ToldRun(w: World, k: SeatKey)
    requires Start(w) && k in w.db.seats
    ensures var v := Exec(w, Told(w, k));
            && Along(w, Told(w, k), v) && LateWorld(w, k, v)
            && v.drivers == map[1 := Judged(0, AskApprove, Attempt(PayResult.Approved, Some(w.nextTid)),
                                            w.db.seats[k].price, "key")]
  {
    ChargedRun(w, k);
    hide Start, Along, Pledged;
    var charged := Exec(w, Charged(w, k));
    Onward(w, Charged(w, k), charged, Tick(HOLD_TTL + 1));
    var late := Step(charged, Tick(HOLD_TTL + 1));
    hide Step, Disciplined;
    HearGo(late, w.db.seats[k].price, w.nextTid);
    Onward(w, Charged(w, k) + [Tick(HOLD_TTL + 1)], late, Go(1, HEARD));
  }

  /** A driver that was told of the charge cannot confirm and goes on to refund. */
  lemma LateGo(w: World, k: SeatKey, v: World, d: int)
    requires k in w.db.seats && LateWorld(w, k, v) && d in v.drivers && v.drivers[d].Judged? && v.drivers[d].order == 0
    requires v.drivers[d].answer == Attempt(PayResult.Approved, Some(w.nextTid))
             && v.drivers[d].total == w.db.seats[k].price
    ensures var u := Step(v, Go(d, HEARD));
            && LateWorld(w, k, u)
            && u.drivers == v.drivers[d := Refunding(0, w.nextTid, w.db.seats[k].price)]
  {
    ApprovedGo(v, d, HEARD);
    assert !LiveHold(v.db.seats[k], FIRST, v.clock);
    assert k.seat in v.db.orders[0].seatIds && SeatKey(v.db.orders[0].schedule, k.seat) == k;
    assert !Confirmable(v.db, 0, v.clock);
  }

  function Refused(w: World, k: SeatKey): seq<Label> {
    Told(w, k) + [Go(1, HEARD)]
  }

  lemma RefusedRun(w: World, k: SeatKey)
    requires Start(w) && k in w.db.seats
    ensures var v := Exec(w, Refused(w, k));
            && Along(w, Refused(w, k), v) && LateWorld(w, k, v)
            && v.drivers == map[1 := Refunding(0, w.nextTid, w.db.seats[k].price)]
  {
    ToldRun(w, k);
    hide Start, Along, LateWorld;
    var told := Exec(w, Told(w, k));
    Onward(w, Told(w, k), told, Go(1, HEARD));
    LateGo(w, k, told, 1);
  }

  // ------------------------------------------------------------------ a slip each

  function Undecided(w: World, k: SeatKey): seq<Label> {
    Sent(w, k) + [Stop(1)] + [StartReconcile(2, 0)]
  }

  lemma UndecidedRun(w: World, k: SeatKey)
    requires Start(w) && k in w.db.seats
    ensures var v := Exec(w, Undecided(w, k));
            && Along(w, Undecided(w, k), v) && v.drivers == map[1 := Done, 2 := Inquiring(0)]
            && 0 in v.db.orders && v.db.orders[0].status.Pending? && v.db.orders[0].total == w.db.seats[k].price
            && Acc(v.pg, 0).inflight.Some?
  {
    hide Start, DisciplinedRun, Sent, Pledged;
    SentRun(w, k);
    var sent := Exec(w, Sent(w, k));
    PledgedOrder(w, k, sent.db);
    Onward(w, Sent(w, k), sent, Stop(1));
    var stopped := Step(sent, Stop(1));
    assert stopped.drivers == map[1 := Done] && Idle(stopped, 0);
    Onward(w, Sent(w, k) + [Stop(1)], stopped, StartReconcile(2, 0));
  }

  lemma PledgedOrder(w: World, k: SeatKey, db: Db)
    requires k in w.db.seats && Pledged(w, k, db)
    ensures 0 in db.orders && db.orders[0].status.Pending? && db.orders[0].total == w.db.seats[k].price
  {}

  /** The reconciler asks while the approval is undecided; then the gateway charges. */
  lemma EarlyInquiryLoses(w: World, k: SeatKey)
    requires Start(w) && k in w.db.seats && w.db.seats[k].price > 0
    ensures LosesMoney(w, Undecided(w, k), Go(2, HEARD), [Go(2, HEARD)] + [Decide(0, true)], NoEarlyInquiry)
  {
    hide Start, Inv, Conserved, Along, Undecided, Breaks;
    UndecidedRun(w, k);
    StartInv(w);
    ExecInv(w, Undecided(w, k));
    InquirySlips(w, Undecided(w, k), Exec(w, Undecided(w, k)));
  }

  lemma InquirySlips(w: World, before: seq<Label>, u: World)
    requires Along(w, before, u) && Inv(u) && u.drivers == map[1 := Done, 2 := Inquiring(0)]
    requires 0 in u.db.orders && u.db.orders[0].status.Pending? && u.db.orders[0].total > 0
    requires Acc(u.pg, 0).inflight.Some?
    ensures LosesMoney(w, before, Go(2, HEARD), [Go(2, HEARD)] + [Decide(0, true)], NoEarlyInquiry)
  {
    hide Inv, Conserved, Along, Apply;
    InquiringTooEarly(u, 2, 0);
    var slipped := Step(u, Go(2, HEARD));
    assert slipped.drivers[2].Judged?;
    AlongTwo(slipped, Go(2, HEARD), Decide(0, true));
    Loses(w, before, u, Go(2, HEARD), [Go(2, HEARD)] + [Decide(0, true)],
          Step(Step(slipped, Go(2, HEARD)), Decide(0, true)), NoEarlyInquiry);
  }

  /** A cancel whose refund goes through and whose reply is lost. */
  lemma SilentRefundLoses(w: World, k: SeatKey)
    requires Start(w) && k in w.db.seats && w.db.seats[k].price > 0
    ensures LosesMoney(w, Read(w, k), Go(2, LOST), [Go(2, HEARD)], NoSilentRefund)
  {
    ReadRun(w, k);
    StartMoney(w);
    RunMoney(w, Read(w, k));
    hide Start, Money, Along, LosesMoney;
    SilenceSlips(w, Read(w, k), Exec(w, Read(w, k)));
  }

  lemma SilenceSlips(w: World, before: seq<Label>, u: World)
    requires Along(w, before, u) && Money(u) && 2 in u.drivers && u.drivers[2].CancelRefunding?
             && u.drivers[2].order == 0
    requires 0 in u.db.orders && u.db.orders[0].total > 0
    ensures LosesMoney(w, before, Go(2, LOST), [Go(2, HEARD)], NoSilentRefund)
  {
    hide Money, Conserved, Along, LosesMoney;
    LosingARefundReply(u, 2);
    var slipped := Step(u, Go(2, LOST));
    assert slipped.drivers[2].CancelAnswered? && !HoldsRefund(slipped.drivers[2]);
    AlongOne(slipped, Go(2, HEARD));
    hide Step;
    Loses(w, before, u, Go(2, LOST), [Go(2, HEARD)], Step(slipped, Go(2, HEARD)), NoSilentRefund);
  }

  lemma GivenRun(w: World, k: SeatKey)
    requires Start(w) && k in w.db.seats
    ensures var v := Exec(w, Read(w, k) + [Go(2, HEARD)]);
            && Along(w, Read(w, k) + [Go(2, HEARD)], v) && Money(v)
            && 2 in v.drivers && v.drivers[2].CancelAnswered? && v.drivers[2].order == 0 && HoldsRefund(v.drivers[2])
            && 0 in v.db.orders && v.db.orders[0].total == w.db.seats[k].price
  {
    ReadRun(w, k);
    var read := Exec(w, Read(w, k));
    Onward(w, Read(w, k), read, Go(2, HEARD));
    StartMoney(w);
    RunMoney(w, Read(w, k) + [Go(2, HEARD)]);
    hide Money, Start;
    CancelRefundGo(read, 2, HEARD);
  }

  /** A cancel that stops between its refund and the record, or whose record aborts. */
  lemma LostRecordLoses(w: World, k: SeatKey, l: Label, a: Assumption)
    requires Start(w) && k in w.db.seats && w.db.seats[k].price > 0
    requires (l == Stop(2) && a.NoStopBeforeRecord?) || (l == Go(2, ABORTED) && a.NoAbortOfRecord?)
    ensures LosesMoney(w, Read(w, k) + [Go(2, HEARD)], l, [], a)
  {
    GivenRun(w, k);
    hide Start, Money, Along, LosesMoney;
    RecordSlips(w, Read(w, k) + [Go(2, HEARD)], Exec(w, Read(w, k) + [Go(2, HEARD)]), l, a);
  }

  lemma RecordSlips(w: World, before: seq<Label>, u: World, l: Label, a: Assumption)
    requires Along(w, before, u) && Money(u) && 2 in u.drivers && u.drivers[2].CancelAnswered?
             && u.drivers[2].order == 0
    requires HoldsRefund(u.drivers[2]) && 0 in u.db.orders && u.db.orders[0].total > 0
    requires (l == Stop(2) && a.NoStopBeforeRecord?) || (l == Go(2, ABORTED) && a.NoAbortOfRecord?)
    ensures LosesMoney(w, before, l, [], a)
  {
    hide Money, Conserved, Along, Step, LosesMoney, Breaks;
    LosingTheRecord(u, 2, l);
    RecordLost(u, l, a);
    AlongNone(Step(u, l));
    Loses(w, before, u, l, [], Step(u, l), a);
  }

  lemma RecordLost(u: World, l: Label, a: Assumption)
    requires 2 in u.drivers && u.drivers[2].CancelAnswered? && HoldsRefund(u.drivers[2])
    requires (l == Stop(2) && a.NoStopBeforeRecord?) || (l == Go(2, ABORTED) && a.NoAbortOfRecord?)
    ensures Step(u, l).db == u.db && Breaks(u, l, a)
  {}

  /** A second cancel starts before the first has refunded. */
  lemma SecondCancelLoses(w: World, k: SeatKey)
    requires Start(w) && k in w.db.seats && w.db.seats[k].price > 0
    ensures LosesMoney(w, Read(w, k), StartCancel(3, 0, 0, 9), [Go(3, HEARD)] + [Go(2, HEARD)] + [Go(3, HEARD)],
                       CancelAlone)
  {
    ReadRun(w, k);
    StartInv(w);
    ExecInv(w, Read(w, k));
    hide Start, Inv, Conserved, Along, Step, Breaks, Read, LosesMoney;
    var u := Exec(w, Read(w, k));
    var slip := StartCancel(3, 0, 0, 9);
    SecondReads(u, w.db.seats[k].price, w.nextTid);
    var both := Step(Step(u, slip), Go(3, HEARD));
    BothRefund(Step(u, slip), [Go(3, HEARD)], both, 2, 3, 0);
    Loses(w, Read(w, k), u, slip, [Go(3, HEARD)] + [Go(2, HEARD)] + [Go(3, HEARD)],
          Step(Step(both, Go(2, HEARD)), Go(3, HEARD)), CancelAlone);
  }

  lemma SecondReads(u: World, price: nat, tid: int)
    requires Inv(u) && 0 in u.db.orders && u.db.orders[0].status.Paid? && u.db.orders[0].total == price
    requires ApprovedTid(u.db.payments, 0) == Some(tid) && 3 !in u.drivers
    requires 2 in u.drivers && u.drivers[2] == CancelRefunding(0, tid, FeeSnapshot(0, price))
    ensures var slip := StartCancel(3, 0, 0, 9);
            var v := Step(Step(u, slip), Go(3, HEARD));
            && Breaks(u, slip, CancelAlone) && Along(Step(u, slip), [Go(3, HEARD)], v)
            && Inv(v) && v.db == u.db
            && v.drivers == u.drivers[3 := CancelRefunding(0, tid, FeeSnapshot(0, price))]
  {
    hide Inv, Along, Apply, Advance, ApprovedTid;
    var slip := StartCancel(3, 0, 0, 9);
    StepInv(u, slip);
    StepInv(Step(u, slip), Go(3, HEARD));
    assert Busy(u.drivers[2]) == Some(0);
    ReadGo(Step(u, slip), 3, price, tid);
    AlongRead(Step(u, slip), 3);
  }

  lemma AlongRead(v: World, d: int)
    requires d in v.drivers && v.drivers[d].CancelReading?
    ensures Along(v, [Go(d, HEARD)], Step(v, Go(d, HEARD)))
  {
    AlongOne(v, Go(d, HEARD));
  }

  /** Two drivers about to refund one order do so. */
  lemma BothRefund(w: World, ls: seq<Label>, v: World, d: int, e: int, o: int)
    requires Along(w, ls, v) && Inv(v) && d in v.drivers && e in v.drivers && d != e
    requires v.drivers[d].Refunding? || v.drivers[d].CancelRefunding?
    requires v.drivers[e].Refunding? || v.drivers[e].CancelRefunding?
    requires v.drivers[d].order == v.drivers[e].order == o && o in v.db.orders && v.db.orders[o].total > 0
    ensures var u := Step(Step(v, Go(d, HEARD)), Go(e, HEARD));
            && Along(w, ls + [Go(d, HEARD)] + [Go(e, HEARD)], u)
            && o in u.db.orders && !Conserved(u, o)
  {
    hide Inv, Conserved, Along, Step;
    AsksMost(v, d);
    RefundingTwice(v, d, e);
    hide Inv, Conserved, Along, Step;
    AsksBack(v, d);
    Onward(w, ls, v, Go(d, HEARD));
    Onward(w, ls + [Go(d, HEARD)], Step(v, Go(d, HEARD)), Go(e, HEARD));
  }

  /** The reconciler turns to an order whose place call is still at work, after the hold ran out. */
  lemma ReconcileBesideLoses(w: World, k: SeatKey)
    requires Start(w) && k in w.db.seats && w.db.seats[k].price > 0
    ensures LosesMoney(w, Told(w, k), StartReconcile(2, 0),
                       [Go(2, HEARD)] + [Go(1, HEARD)] + [Go(2, HEARD)] + [Go(1, HEARD)]
                         + [Go(2, HEARD)], ReconcileAlone)
  {
    hide Start, Inv, Conserved, Along, LateWorld, Told;
    ToldRun(w, k);
    StartInv(w);
    ExecInv(w, Told(w, k));
    var u := Exec(w, Told(w, k));
    var slip := StartReconcile(2, 0);
    BesideRun(w, k, u);
    var slipped := Step(u, slip);
    var asked := [Go(2, HEARD)] + [Go(1, HEARD)] + [Go(2, HEARD)];
    var both := Exec(slipped, asked);
    hide Step, Breaks;
    BothRefund(slipped, asked, both, 1, 2, 0);
    Loses(w, Told(w, k), u, slip, asked + [Go(1, HEARD)] + [Go(2, HEARD)],
          Step(Step(both, Go(1, HEARD)), Go(2, HEARD)), ReconcileAlone);
  }

  /** From the slip on until both are about to refund. */
  lemma BesideRun(w: World, k: SeatKey, u: World)
    requires k in w.db.seats && LateWorld(w, k, u) && Inv(u)
    requires u.drivers == map[1 := Judged(0, AskApprove, Attempt(PayResult.Approved, Some(w.nextTid)),
                                          w.db.seats[k].price, "key")]
    ensures var v := Step(u, StartReconcile(2, 0));
            var ls := [Go(2, HEARD)] + [Go(1, HEARD)] + [Go(2, HEARD)];
            && Breaks(u, StartReconcile(2, 0), ReconcileAlone) && Along(v, ls, Exec(v, ls)) && Inv(Exec(v, ls))
            && Exec(v, ls).drivers == map[1 := Refunding(0, w.nextTid, w.db.seats[k].price),
                                          2 := Refunding(0, w.nextTid, w.db.seats[k].price)]
            && 0 in Exec(v, ls).db.orders && Exec(v, ls).db.orders[0].total == w.db.seats[k].price
  {
    hide Inv, Along;
    var v := Step(u, StartReconcile(2, 0));
    assert Busy(u.drivers[1]) == Some(0);
    StepInv(u, StartReconcile(2, 0));
    assert v.drivers == u.drivers[2 := Inquiring(0)];
    BothAsk(w, k, v);
    ExecInv(v, [Go(2, HEARD)] + [Go(1, HEARD)] + [Go(2, HEARD)]);
  }

  lemma BothAsk(w: World, k: SeatKey, v: World)
    requires k in w.db.seats && LateWorld(w, k, v)
    requires v.drivers == map[1 := Judged(0, AskApprove, Attempt(PayResult.Approved, Some(w.nextTid)),
                                          w.db.seats[k].price, "key"),
                              2 := Inquiring(0)]
    ensures var ls := [Go(2, HEARD)] + [Go(1, HEARD)] + [Go(2, HEARD)];
            var u := Exec(v, ls);
            && Along(v, ls, u) && LateWorld(w, k, u)
            && u.drivers == map[1 := Refunding(0, w.nextTid, w.db.seats[k].price),
                                2 := Refunding(0, w.nextTid, w.db.seats[k].price)]
  {
    Onward(v, [], v, Go(2, HEARD));
    assert [] + [Go(2, HEARD)] == [Go(2, HEARD)];
    var asked := Step(v, Go(2, HEARD));
    assert asked.drivers[2]
      == Judged(0, AskInquire, Attempt(PayResult.Approved, Some(w.nextTid)), w.db.seats[k].price, "");
    hide LateWorld;
    Onward(v, [Go(2, HEARD)], asked, Go(1, HEARD));
    LateGo(w, k, asked, 1);
    var one := Step(asked, Go(1, HEARD));
    Onward(v, [Go(2, HEARD)] + [Go(1, HEARD)], one, Go(2, HEARD));
    LateGo(w, k, one, 2);
  }

  /** The buyer takes the seat again, and a webhook confirms the order place is about to refund. */
  lemma HookLoses(w: World, k: SeatKey)
    requires Start(w) && k in w.db.seats && w.db.seats[k].price > 0
    ensures LosesMoney(w, Refused(w, k) + [Taking(k, w.clock + HOLD_TTL + 1)], Hook(0, w.nextTid),
                       [Go(1, HEARD)] + [Go(1, HEARD)], NoHookWhileGivingBack)
  {
    RetakenRun(w, k);
    var before := Refused(w, k) + [Taking(k, w.clock + HOLD_TTL + 1)];
    StartMoney(w);
    RunMoney(w, before);
    hide Start, Money, Along, Confirmable, LosesMoney;
    HookSlips(w, before, Exec(w, before));
  }

  lemma HookSlips(w: World, before: seq<Label>, u: World)
    requires Along(w, before, u) && Money(u) && 1 in u.drivers && u.drivers[1].Refunding? && u.drivers[1].order == 0
    requires Confirmable(u.db, 0, u.clock) && u.db.orders[0].total > 0
    ensures LosesMoney(w, before, Hook(0, u.drivers[1].tid), [Go(1, HEARD)] + [Go(1, HEARD)], NoHookWhileGivingBack)
  {
    hide Money, Conserved, Along, Step, Confirmable, Breaks, LosesMoney;
    HookWhileGivingBack(u, 1);
    PayBackRun(u);
    Loses(w, before, u, Hook(0, u.drivers[1].tid), [Go(1, HEARD)] + [Go(1, HEARD)],
          Step(Step(Step(u, Hook(0, u.drivers[1].tid)), Go(1, HEARD)), Go(1, HEARD)), NoHookWhileGivingBack);
  }

  /** The refund and its record, after the webhook. */
  lemma PayBackRun(u: World)
    requires 1 in u.drivers && u.drivers[1].Refunding?
    ensures Breaks(u, Hook(u.drivers[1].order, u.drivers[1].tid), NoHookWhileGivingBack)
    ensures var v := Step(u, Hook(0, u.drivers[1].tid));
            Along(v, [Go(1, HEARD)] + [Go(1, HEARD)], Step(Step(v, Go(1, HEARD)), Go(1, HEARD)))
  {
    var v := Step(u, Hook(0, u.drivers[1].tid));
    assert GivingBack(u.drivers[1], u.drivers[1].order);
    RefundGo(v, 1, HEARD);
    AlongTwo(v, Go(1, HEARD), Go(1, HEARD));
  }

  lemma RetakenRun(w: World, k: SeatKey)
    requires Start(w) && k in w.db.seats
    ensures var ls := Refused(w, k) + [Taking(k, w.clock + HOLD_TTL + 1)];
            var v := Exec(w, ls);
            && Along(w, ls, v) && v.drivers == map[1 := Refunding(0, w.nextTid, w.db.seats[k].price)]
            && Confirmable(v.db, 0, v.clock) && v.db.orders[0].total == w.db.seats[k].price
            && Acc(v.pg, 0).tid == Some(w.nextTid)
  {
    RefusedRun(w, k);
    var u := Exec(w, Refused(w, k));
    var now := w.clock + HOLD_TTL + 1;
    Onward(w, Refused(w, k), u, Taking(k, now));
    assert Owned(u.db, k.schedule, FIRST, now) == {};
    hide Along, Start;
    HoldOne(u.db, k, FIRST, MAX_SEATS_PER_ORDER, HOLD_TTL, now);
  }

  // ------------------------------------------------------------------ none can be left out

  /** Whatever assumption is dropped: from the start of any inventory with a seat that costs something
      there is a run that is disciplined but for one step, that step breaks just this assumption, and
      in the end the money is not where the database says it is. */
  lemma EveryAssumptionIsNeeded(w: World, k: SeatKey, a: Assumption)
    requires Start(w) && k in w.db.seats && w.db.seats[k].price > 0
    ensures exists before, slip, after :: LosesMoney(w, before, slip, after, a)
  {
    match a
    case ReconcileAlone => ReconcileBesideLoses(w, k);
    case CancelAlone => SecondCancelLoses(w, k);
    case NoHookWhileGivingBack => HookLoses(w, k);
    case NoEarlyInquiry => EarlyInquiryLoses(w, k);
    case NoSilentRefund => SilentRefundLoses(w, k);
    case NoStopBeforeRecord => LostRecordLoses(w, k, Stop(2), a);
    case NoAbortOfRecord => LostRecordLoses(w, k, Go(2, ABORTED), a);
  }
}

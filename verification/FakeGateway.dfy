/** FakePG (app/infra/pg/fake.py), the gateway with injectable answers: a ledger of order numbers,
    call counters and one serial from which every transaction number comes. */
module FakeGateway {
  import opened Domain
  import opened Transactions
  import opened Saga
  import opened SagaSafety

  // ------------------------------------------------------------------ what each request does

  /** The options, the ledger of order numbers and the next number. */
  datatype Fake = Fake(approveOutcome: PayResult, loseResponse: bool, inquireOutcome: Option<PayResult>,
                       refundOutcome: PayResult, ledger: map<int, int>, serial: nat)

  function OnLedger(f: Fake, order: int): Option<int> {
    if order in f.ledger then Some(f.ledger[order]) else None
  }

  /** A number is taken even when the order keeps the one it has. */
  function ApproveFake(f: Fake, order: int): (Fake, Attempt) {
    if f.loseResponse then (f.(ledger := f.ledger[order := f.serial], serial := f.serial + 1), SILENCE)
    else if f.approveOutcome.Approved? then
      var ledger := if order in f.ledger then f.ledger else f.ledger[order := f.serial];
      (f.(ledger := ledger, serial := f.serial + 1), Attempt(PayResult.Approved, Some(ledger[order])))
    else (f, Attempt(f.approveOutcome, None))
  }

  function InquireFake(f: Fake, order: int): Attempt {
    if f.inquireOutcome.Some? then Attempt(f.inquireOutcome.value, None)
    else Truth(NOTHING.(tid := OnLedger(f, order)))
  }

  function RefundFake(f: Fake): (Fake, Attempt) {
    if f.refundOutcome.Approved? then (f.(serial := f.serial + 1), Attempt(PayResult.Approved, Some(f.serial)))
    else (f, Attempt(f.refundOutcome, None))
  }

  // ------------------------------------------------------------------ the object

  datatype Calls = Calls(approve: nat, inquire: nat, refund: nat)

  class FakePG {
    var approveOutcome: PayResult
    var loseResponse: bool
    var inquireOutcome: Option<PayResult>
    var refundOutcome: PayResult
    var ledger: map<int, int>
    var calls: Calls
    var serial: nat

    /** No number was given to two orders, and the next one is new. */
    ghost predicate Valid()
      reads this
    {
      && (forall o :: o in ledger ==> ledger[o] < serial)
      && (forall o, p :: o in ledger && p in ledger && ledger[o] == ledger[p] ==> o == p)
    }

    function State(): Fake
      reads this
    {
      Fake(approveOutcome, loseResponse, inquireOutcome, refundOutcome, ledger, serial)
    }

    constructor (approveOutcome: PayResult, loseResponse: bool, inquireOutcome: Option<PayResult>,
                 refundOutcome: PayResult)
      ensures Valid() && ledger == map[] && calls == Calls(0, 0, 0)
      ensures this.approveOutcome == approveOutcome && this.loseResponse == loseResponse
      ensures this.inquireOutcome == inquireOutcome && this.refundOutcome == refundOutcome
    {
      this.approveOutcome, this.loseResponse := approveOutcome, loseResponse;
      this.inquireOutcome, this.refundOutcome := inquireOutcome, refundOutcome;
      ledger, calls, serial := map[], Calls(0, 0, 0), 1;
    }

    method NextNumber() returns (tid: int)
      modifies this`serial
      ensures tid == old(serial) && serial == old(serial) + 1
    {
      tid := serial;
      serial := serial + 1;
    }

    /** approve: a lost response charges and says UNKNOWN; an approval of an order already on the
        ledger repeats its number; anything else leaves the ledger alone. */
    method Approve(order: int, amount: nat) returns (a: Attempt)
      requires Valid()
      modifies this`ledger, this`calls, this`serial
      ensures Valid() && calls == old(calls).(approve := old(calls).approve + 1)
      ensures (State(), a) == ApproveFake(old(State()), order)
      ensures forall o :: o != order ==> OnLedger(State(), o) == OnLedger(old(State()), o)
      ensures loseResponse ==> a == SILENCE && OnLedger(State(), order).Some?
      ensures a.result.Approved? ==>
                && a.tid == OnLedger(State(), order)
                && (OnLedger(old(State()), order).Some? ==> a.tid == OnLedger(old(State()), order))
      ensures !loseResponse && !a.result.Approved? ==> State() == old(State())
    {
      calls := calls.(approve := calls.approve + 1);
      if loseResponse {
        var lost := NextNumber();
        ledger := ledger[order := lost];
        return SILENCE;
      }
      if approveOutcome.Approved? {
        var tid := NextNumber();
        if order !in ledger {
          ledger := ledger[order := tid];
        }
        return Attempt(PayResult.Approved, Some(ledger[order]));
      }
      a := Attempt(approveOutcome, None);
    }

    /** inquire: the forced answer, or the truth. */
    method Inquire(order: int) returns (a: Attempt)
      modifies this`calls
      ensures calls == old(calls).(inquire := old(calls).inquire + 1)
      ensures a == InquireFake(State(), order)
      ensures inquireOutcome.None? ==> a == Truth(NOTHING.(tid := OnLedger(State(), order)))
      ensures inquireOutcome.Some? ==> a == Attempt(inquireOutcome.value, None)
    {
      calls := calls.(inquire := calls.inquire + 1);
      if inquireOutcome.Some? {
        return Attempt(inquireOutcome.value, None);
      }
      if order !in ledger {
        return Attempt(Declined, None);
      }
      a := Attempt(PayResult.Approved, Some(ledger[order]));
    }

    /** refund: an approved refund has a number of its own, which is nobody's charge. */
    method Refund(tid: int, amount: nat) returns (a: Attempt)
      requires Valid()
      modifies this`calls, this`serial
      ensures Valid() && calls == old(calls).(refund := old(calls).refund + 1)
      ensures (State(), a) == RefundFake(old(State()))
      ensures a.result == refundOutcome && (a.tid.Some? <==> refundOutcome.Approved?)
      ensures a.tid.Some? ==> forall o :: OnLedger(State(), o) != a.tid
    {
      calls := calls.(refund := calls.refund + 1);
      if refundOutcome.Approved? {
        var number := NextNumber();
        return Attempt(PayResult.Approved, Some(number));
      }
      a := Attempt(refundOutcome, None);
    }
  }

  // ------------------------------------------------------------------ it is a gateway of the saga

  /** The gateway of a world has the charges of this ledger and hands out the same numbers. */
  ghost predicate Mirrors(f: Fake, w: World) {
    f.serial == w.nextTid && forall o :: Acc(w.pg, o).tid == OnLedger(f, o)
  }

  /** What the network does to a reply of this kind. */
  function ReplyFate(a: Attempt): Choice {
    Choice(0, false, !a.result.Unknown?, a.result.Approved?)
  }

  /** Does this request charge? */
  predicate Charges(f: Fake) {
    f.loseResponse || f.approveOutcome.Approved?
  }

  /** The gateway's books once a first approval was sent and decided. */
  lemma SentAndDecided(w: World, d: int, c: Choice, yes: bool)
    requires Inv(w) && d in w.drivers && w.drivers[d].Sending?
    ensures var pc := w.drivers[d];
            var v := Step(Step(w, Go(d, c)), Decide(pc.order, yes));
            && v.db == w.db && v.drivers == w.drivers[d := Waiting(pc.order, pc.total, pc.key)]
            && v.nextTid == (if yes then w.nextTid + 1 else w.nextTid)
            && v.pg == w.pg[pc.order := if yes then Account(1, None, Some(w.nextTid), pc.total, 0)
                                        else Account(1, None, None, 0, 0)]
            && Acc(w.pg, pc.order) == NOTHING
  {
    hide EvidenceOk, ReturnsOk, ApprovalsOk;
    var pc := w.drivers[d];
    assert PcOk(w, pc) && Acc(w.pg, pc.order) == NOTHING;
    hide Inv;
    SendGo(w, d, c);
    assert Acc(Step(w, Go(d, c)).pg, pc.order) == NOTHING.(calls := 1, inflight := Some(pc.total));
  }

  /** An approval of the fake is one of the machine's gateway, request, decision and reply: the same
      answer, the same charge, the same number, and the ledger stays its mirror. */
  lemma FakeApproves(w: World, d: int, f: Fake)
    requires Inv(w) && d in w.drivers && w.drivers[d].Sending? && Mirrors(f, w)
    ensures var pc := w.drivers[d];
            var (g, a) := ApproveFake(f, pc.order);
            var v := Step(Step(Step(w, Go(d, ReplyFate(a))), Decide(pc.order, Charges(f))), Go(d, ReplyFate(a)));
            && Mirrors(g, v) && v.db == w.db
            && v.drivers == w.drivers[d := Judged(pc.order, AskApprove, a, pc.total, pc.key)]
            && Acc(v.pg, pc.order).charged == (if pc.order in g.ledger then pc.total else 0)
  {
    hide Inv;
    var pc := w.drivers[d];
    var (g, a) := ApproveFake(f, pc.order);
    SentAndDecided(w, d, ReplyFate(a), Charges(f));
    var decided := Step(Step(w, Go(d, ReplyFate(a))), Decide(pc.order, Charges(f)));
    assert Acc(w.pg, pc.order).tid == OnLedger(f, pc.order);
    hide Step;
    AwaitGo(decided, d, ReplyFate(a));
    var v := Step(decided, Go(d, ReplyFate(a)));
    forall o
      ensures Acc(v.pg, o).tid == OnLedger(g, o)
    {
      assert Acc(w.pg, o).tid == OnLedger(f, o);
    }
  }

  /** An inquiry is answered as the machine's gateway answers, unless the fake is told to lie: to deny
      a charge it made, or to approve, which it does without a number. */
  lemma FakeAnswers(w: World, d: int, f: Fake)
    requires d in w.drivers && w.drivers[d].Inquiring? && w.drivers[d].order in w.db.orders && Mirrors(f, w)
    ensures var o := w.drivers[d].order;
            var lies := f.inquireOutcome == Some(PayResult.Approved)
              || (f.inquireOutcome == Some(Declined) && o in f.ledger);
            var next := Judged(o, AskInquire, InquireFake(f, o), w.db.orders[o].total, "");
            (exists c :: Step(w, Go(d, c)).drivers == w.drivers[d := next]) <==> !lies
  {
    var o := w.drivers[d].order;
    var a := InquireFake(f, o);
    assert Acc(w.pg, o).tid == OnLedger(f, o);
    var v := Step(w, Go(d, ReplyFate(a)));
    assert v.drivers[d]
      == Judged(o, AskInquire, if a.result.Unknown? then SILENCE else Truth(Acc(w.pg, o)), w.db.orders[o].total, "");
    forall c
      ensures Step(w, Go(d, c)).drivers[d].answer == SILENCE
              || Step(w, Go(d, c)).drivers[d].answer == Truth(Acc(w.pg, o))
    {}
    if exists c :: Step(w, Go(d, c)).drivers == w.drivers[d := Judged(o, AskInquire, a, w.db.orders[o].total, "")] {
      var c :| Step(w, Go(d, c)).drivers == w.drivers[d := Judged(o, AskInquire, a, w.db.orders[o].total, "")];
      assert Step(w, Go(d, c)).drivers[d].answer == a;
    }
  }

  /** A refund asked for by a driver of the machine: the same answer and the same number, which the
      ledger does not know, and the money moves exactly when the answer is APPROVED. */
  lemma FakeRefunds(w: World, d: int, f: Fake)
    requires Inv(w) && d in w.drivers && (w.drivers[d].Refunding? || w.drivers[d].CancelRefunding?) && Mirrors(f, w)
    ensures var pc := w.drivers[d];
            var (g, a) := RefundFake(f);
            var v := Step(w, Go(d, ReplyFate(a)));
            var amount := if pc.Refunding? then pc.amount else pc.fee.refund;
            && Mirrors(g, v) && v.db == w.db
            && v.drivers == w.drivers[d := if pc.Refunding? then RefundAnswered(pc.order, pc.amount, a)
                                           else CancelAnswered(pc.order, pc.fee, a)]
            && Acc(v.pg, pc.order).refunded == Acc(w.pg, pc.order).refunded + if a.result.Approved? then amount else 0
  {
    var pc := w.drivers[d];
    assert PcOk(w, pc) && Acc(w.pg, pc.order).tid == Some(pc.tid);
    hide Inv, Step, Mirrors, Repaid, RefundAnswer, RefundFake;
    var (g, a) := RefundFake(f);
    RepaidAlike(w, pc.order, pc.tid, if pc.Refunding? then pc.amount else pc.fee.refund, f);
    var v := Step(w, Go(d, ReplyFate(a)));
    if pc.Refunding? {
      RefundGo(w, d, ReplyFate(a));
      MovedAlike(Repaid(w, pc.order, pc.tid, pc.amount, ReplyFate(a)), d, v.drivers[d], g);
    } else {
      CancelRefundGo(w, d, ReplyFate(a));
      MovedAlike(Repaid(w, pc.order, pc.tid, pc.fee.refund, ReplyFate(a)), d, v.drivers[d], g);
    }
  }

  lemma MovedAlike(w: World, d: int, pc: Pc, g: Fake)
    requires Mirrors(g, w)
    ensures Mirrors(g, Moved(w, d, pc))
  {}

  lemma RepaidAlike(w: World, order: int, tid: int, amount: nat, f: Fake)
    requires Mirrors(f, w) && Acc(w.pg, order).tid == Some(tid)
    ensures var (g, a) := RefundFake(f);
            var v := Repaid(w, order, tid, amount, ReplyFate(a));
            && Mirrors(g, v) && v.db == w.db && v.drivers == w.drivers && RefundAnswer(w, order, tid, ReplyFate(a)) == a
            && Acc(v.pg, order).refunded == Acc(w.pg, order).refunded + if a.result.Approved? then amount else 0
  {
    var (g, a) := RefundFake(f);
    var v := Repaid(w, order, tid, amount, ReplyFate(a));
    forall o
      ensures Acc(v.pg, o).tid == OnLedger(g, o)
    {
      assert Acc(w.pg, o).tid == OnLedger(f, o);
    }
  }
}

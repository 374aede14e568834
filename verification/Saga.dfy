/** The payment saga as a step machine (app/service/order_service.py with app/infra/pg).

    A world is the database, the gateway's own books and any number of drivers: calls of
    `place`, turns of `reconcile` on one order, calls of `cancel`. Each transaction is one
    step and reads the clock once; an approval is sent, decided by the gateway and answered
    in separate steps, so it can still be on its way when its caller has given up. Drivers
    interleave freely, any of them may stop between two steps, and any transaction may
    abort. `Step` is total: a label that makes no sense in a world changes nothing. */
module Saga {
  import opened Domain
  import opened Tables
  import opened Transactions
  import opened Invariants

  // ------------------------------------------------------------------ the gateway

  /** The gateway's books for one order. `inflight` is an approval it has not decided yet. */
  datatype Account = Account(calls: nat, inflight: Option<nat>, tid: Option<int>, charged: nat, refunded: nat)

  const NOTHING: Account := Account(0, None, None, 0, 0)

  type Books = map<int, Account>

  function Acc(pg: Books, order: int): Account {
    if order in pg then pg[order] else NOTHING
  }

  datatype Attempt = Attempt(result: PayResult, tid: Option<int>)

  /** What drivers have been told: answers of the gateway, and the two days a cancel worked with. */
  datatype Said =
    | ApproveSaid(order: int, result: PayResult)
    | InquireSaid(order: int, result: PayResult)
    | RefundSaid(order: int, result: PayResult)
    | HookSaid(order: int)
    | CancelRead(order: int, today: int, showDay: int)

  /** A truthful answer about an approval the gateway has decided. */
  function Truth(a: Account): Attempt {
    if a.tid.Some? then Attempt(PayResult.Approved, a.tid) else Attempt(Declined, None)
  }

  const SILENCE: Attempt := Attempt(Unknown, None)

  // ------------------------------------------------------------------ drivers

  /** How often `place` looks for the stored response before it answers "in progress". */
  const REPLAY_ATTEMPTS: nat := 40

  /** Where a driver is, with its local variables. */
  datatype Pc =
    | Opening(schedule: int, user: int, ids: seq<int>, key: string, minRemaining: int)
    | Sending(order: int, total: nat, key: string)
    | Waiting(order: int, total: nat, key: string)
    | Inquiring(order: int)
    | Judged(order: int, ask: PayAsk, answer: Attempt, total: nat, key: string)
    | Refunding(order: int, tid: int, amount: nat)
    | RefundAnswered(order: int, amount: nat, answer: Attempt)
    | Replaying(order: int, key: string, polls: nat)
    | CancelReading(order: int, today: int, showDay: int)
    | CancelRefunding(order: int, tid: int, fee: FeeSnapshot)
    | CancelAnswered(order: int, fee: FeeSnapshot, answer: Attempt)
    | Done

  /** A response the caller of `place` received. */
  datatype Return = Return(key: string, order: int, snapshot: Snapshot)

  datatype World = World(db: Db, clock: int, pg: Books, nextTid: int, drivers: map<int, Pc>,
                         said: set<Said>, returned: set<Return>)

  /** What the environment decides for one step of a driver: the id the sequence hands out,
      whether the transaction aborts, whether a reply arrives, whether a refund moves money. */
  datatype Choice = Choice(freshId: int, aborts: bool, heard: bool, moves: bool)

  datatype Label =
    | Tick(seconds: nat)
    | Outside(op: Op, now: int)                     // holds taken, released, swept
    | Hook(order: int, tid: int)                    // a webhook calls confirm_paid
    | Decide(order: int, yes: bool)                 // the gateway decides an approval in flight
    | StartPlace(d: int, schedule: int, user: int, ids: seq<int>, key: string, minRemaining: int)
    | StartReconcile(d: int, order: int)
    | StartCancel(d: int, order: int, today: int, showDay: int)
    | Go(d: int, c: Choice)
    | Stop(d: int)

  // ------------------------------------------------------------------ steps

  function Moved(w: World, d: int, pc: Pc): World {
    w.(drivers := w.drivers[d := pc])
  }

  function WithAccount(w: World, order: int, a: Account): World {
    w.(pg := w.pg[order := a])
  }

  function Heard(w: World, s: Said): World {
    w.(said := w.said + {s})
  }

  function AfterOpen(key: string, out: Outcome): Pc {
    if out.Opened? then Sending(out.order, out.total, key)
    else if out.Duplicate? then Replaying(out.order, key, REPLAY_ATTEMPTS) else Done
  }

  /** First transaction of place. */
  function OpenStep(w: World, d: int, pc: Pc, c: Choice): World
    requires pc.Opening?
  {
    if c.aborts then Moved(w, d, Done)
    else
      var (db, out) := Apply(w.db, Open(c.freshId, pc.schedule, pc.user, pc.ids, pc.key, pc.minRemaining), w.clock);
      Moved(w.(db := db), d, AfterOpen(pc.key, out))
  }

  /** The approval request leaves. */
  function SendStep(w: World, d: int, pc: Pc): World
    requires pc.Sending?
  {
    var a := Acc(w.pg, pc.order);
    Moved(WithAccount(w, pc.order, a.(calls := a.calls + 1, inflight := Some(pc.total))), d,
          Waiting(pc.order, pc.total, pc.key))
  }

  /** The reply, or no reply. */
  function AwaitStep(w: World, d: int, pc: Pc, c: Choice): World
    requires pc.Waiting?
  {
    if c.heard && Acc(w.pg, pc.order).inflight.Some? then w
    else
      var answer := if c.heard then Truth(Acc(w.pg, pc.order)) else SILENCE;
      Moved(Heard(w, ApproveSaid(pc.order, answer.result)), d, Judged(pc.order, AskApprove, answer, pc.total, pc.key))
  }

  /** The reconciler asks. The gateway tells what it has decided so far. */
  function InquireStep(w: World, d: int, pc: Pc, c: Choice): World
    requires pc.Inquiring?
  {
    if pc.order !in w.db.orders then Moved(w, d, Done)
    else
      var answer := if c.heard then Truth(Acc(w.pg, pc.order)) else SILENCE;
      Moved(Heard(w, InquireSaid(pc.order, answer.result)), d,
            Judged(pc.order, AskInquire, answer, w.db.orders[pc.order].total, ""))
  }

  /** place goes on to the response whether its own call confirmed or not; an expired hold is refunded. */
  function AfterConfirm(pc: Pc, out: Outcome): Pc
    requires pc.Judged? && pc.answer.tid.Some?
  {
    if out.HoldExpired? then Refunding(pc.order, pc.answer.tid.value, pc.total)
    else if (out.Confirmed? || out.AlreadySettled?) && pc.ask.AskApprove?
      then Replaying(pc.order, pc.key, REPLAY_ATTEMPTS)
    else Done
  }

  /** Acting on the answer: confirm, close, or nothing at all. */
  function JudgeStep(w: World, d: int, pc: Pc, c: Choice): World
    requires pc.Judged?
  {
    if pc.answer.result.Unknown? || c.aborts then Moved(w, d, Done)
    else if pc.answer.result.Declined? then
      Moved(w.(db := Apply(w.db, CloseUnpaid(pc.order, pc.ask), w.clock).0), d, Done)
    else if pc.answer.tid.None? then Moved(w, d, Done)
    else
      var (db, out) := Apply(w.db, Confirm(pc.order, pc.answer.tid.value), w.clock);
      Moved(w.(db := db), d, AfterConfirm(pc, out))
  }

  /** The gateway handles a refund. Money moves at most when the charge is the one named; the
      reply may be lost, whether money moved or not. */
  function RefundAnswer(w: World, order: int, tid: int, c: Choice): Attempt {
    if !c.heard then SILENCE
    else if c.moves && Acc(w.pg, order).tid == Some(tid) then Attempt(PayResult.Approved, Some(w.nextTid))
    else Attempt(Declined, None)
  }

  function Repaid(w: World, order: int, tid: int, amount: nat, c: Choice): World {
    var a := Acc(w.pg, order);
    var moved := if c.moves && a.tid == Some(tid)
                 then WithAccount(w, order, a.(refunded := a.refunded + amount)).(nextTid := w.nextTid + 1) else w;
    Heard(moved, RefundSaid(order, RefundAnswer(w, order, tid, c).result))
  }

  function RefundStep(w: World, d: int, pc: Pc, c: Choice): World
    requires pc.Refunding?
  {
    Moved(Repaid(w, pc.order, pc.tid, pc.amount, c), d,
          RefundAnswered(pc.order, pc.amount, RefundAnswer(w, pc.order, pc.tid, c)))
  }

  /** What is written down once a refund has been answered. */
  function RecordOp(pc: Pc): Op
    requires pc.RefundAnswered? || pc.CancelAnswered?
  {
    if pc.RefundAnswered? then RecordRefund(pc.order, pc.amount, pc.answer.result.Approved?, pc.answer.tid)
    else if pc.answer.result.Approved?
      then RecordCancel(pc.order, pc.fee, pc.answer.tid) else RecordRefusal(pc.order, pc.fee)
  }

  /** Second transaction of _refund_and_fail and of cancel. */
  function RecordStep(w: World, d: int, pc: Pc, c: Choice): World
    requires pc.RefundAnswered? || pc.CancelAnswered?
  {
    if c.aborts then Moved(w, d, Done)
    else Moved(w.(db := Apply(w.db, RecordOp(pc), w.clock).0), d, Done)
  }

  /** Replay: the stored response if there is one; while the order is pending, another look a
      moment later, up to a limit. */
  function ReplayStep(w: World, d: int, pc: Pc, c: Choice): World
    requires pc.Replaying?
  {
    if !c.heard || pc.order !in w.db.orders then Moved(w, d, Done)
    else
      var o := w.db.orders[pc.order];
      if o.snapshot.Some? then
        Moved(w.(returned := w.returned + {Return(pc.key, pc.order, o.snapshot.value)}), d, Done)
      else if !o.status.Pending? || pc.polls <= 1 then Moved(w, d, Done)
      else Moved(w, d, pc.(polls := pc.polls - 1))
  }

  /** cancel reads the order and its approval, outside any transaction, and works out the fee. */
  function AfterRead(db: Db, order: int, today: int, showDay: int): Pc {
    if order !in db.orders || !db.orders[order].status.Paid? then Done
    else
      var total := db.orders[order].total;
      var tid := ApprovedTid(db.payments, order);
      var fee := CancelFee(total, today, showDay);
      if tid.None? || fee.None? then Done
      else
        FeeBands(total, today, showDay);
        CancelRefunding(order, tid.value, FeeSnapshot(fee.value, total - fee.value))
  }

  function CancelReadStep(w: World, d: int, pc: Pc): World
    requires pc.CancelReading?
  {
    Moved(Heard(w, CancelRead(pc.order, pc.today, pc.showDay)), d, AfterRead(w.db, pc.order, pc.today, pc.showDay))
  }

  function CancelRefundStep(w: World, d: int, pc: Pc, c: Choice): World
    requires pc.CancelRefunding?
  {
    Moved(Repaid(w, pc.order, pc.tid, pc.fee.refund, c), d,
          CancelAnswered(pc.order, pc.fee, RefundAnswer(w, pc.order, pc.tid, c)))
  }

  function Advance(w: World, d: int, pc: Pc, c: Choice): World {
    match pc
    case Opening(_, _, _, _, _) => OpenStep(w, d, pc, c)
    case Sending(_, _, _) => SendStep(w, d, pc)
    case Waiting(_, _, _) => AwaitStep(w, d, pc, c)
    case Inquiring(_) => InquireStep(w, d, pc, c)
    case Judged(_, _, _, _, _) => JudgeStep(w, d, pc, c)
    case Refunding(_, _, _) => RefundStep(w, d, pc, c)
    case RefundAnswered(_, _, _) => RecordStep(w, d, pc, c)
    case Replaying(_, _, _) => ReplayStep(w, d, pc, c)
    case CancelReading(_, _, _) => CancelReadStep(w, d, pc)
    case CancelRefunding(_, _, _) => CancelRefundStep(w, d, pc, c)
    case CancelAnswered(_, _, _) => RecordStep(w, d, pc, c)
    case Done => w
  }

  /** The gateway decides: it charges the amount it was asked for, or it does not. */
  function DecideStep(w: World, order: int, yes: bool): World {
    var a := Acc(w.pg, order);
    if a.inflight.None? then w
    else if yes then
      WithAccount(w, order,
                  a.(inflight := None, tid := Some(w.nextTid),
                     charged := a.charged + a.inflight.value)).(nextTid := w.nextTid + 1)
    else WithAccount(w, order, a.(inflight := None))
  }

  predicate HoldOp(op: Op) {
    op.Acquire? || op.Release? || op.Sweep?
  }

  /** A driver that is not there yet or has finished may start something (else). */
  predicate Unused(w: World, d: int) {
    d in w.drivers ==> w.drivers[d].Done?
  }

  function Step(w: World, l: Label): World {
    match l
    case Tick(seconds) => w.(clock := w.clock + seconds)
    case Outside(op, now) => if HoldOp(op) then w.(db := Apply(w.db, op, now).0) else w
    case Hook(order, tid) =>
      if Acc(w.pg, order).tid != Some(tid) then w
      else Heard(w.(db := Apply(w.db, Confirm(order, tid), w.clock).0), HookSaid(order))
    case Decide(order, yes) => DecideStep(w, order, yes)
    case StartPlace(d, schedule, user, ids, key, minRemaining) =>
      if !Unused(w, d) then w else Moved(w, d, Opening(schedule, user, ids, key, minRemaining))
    case StartReconcile(d, order) => if !Unused(w, d) || order !in w.db.orders then w else Moved(w, d, Inquiring(order))
    case StartCancel(d, order, today, showDay) =>
      if !Unused(w, d) || order !in w.db.orders then w else Moved(w, d, CancelReading(order, today, showDay))
    case Go(d, c) => if d in w.drivers then Advance(w, d, w.drivers[d], c) else w
    case Stop(d) => if d in w.drivers then Moved(w, d, Done) else w
  }

  // ------------------------------------------------------------------ one step of a driver, place by place

  lemma ApprovedGo(w: World, d: int, c: Choice)
    requires d in w.drivers && w.drivers[d].Judged? && !c.aborts
    requires w.drivers[d].answer.result.Approved? && w.drivers[d].answer.tid.Some?
    ensures var pc := w.drivers[d];
            var (db, out) := ConfirmTx(w.db, pc.order, pc.answer.tid.value, w.clock);
            Step(w, Go(d, c)) == Moved(w.(db := db), d, AfterConfirm(pc, out))
  {}

  lemma SendGo(w: World, d: int, c: Choice)
    requires d in w.drivers && w.drivers[d].Sending?
    ensures var pc := w.drivers[d];
            var a := Acc(w.pg, pc.order);
            Step(w, Go(d, c)) == w.(pg := w.pg[pc.order := a.(calls := a.calls + 1, inflight := Some(pc.total))],
                                    drivers := w.drivers[d := Waiting(pc.order, pc.total, pc.key)])
  {}

  lemma DeclinedGo(w: World, d: int, c: Choice)
    requires d in w.drivers && w.drivers[d].Judged? && !c.aborts && w.drivers[d].answer.result.Declined?
    ensures var pc := w.drivers[d];
            Step(w, Go(d, c)) == Moved(w.(db := CloseTx(w.db, pc.order, ClosingStatus(pc.ask)).0), d, Done)
  {}

  lemma RefundRecordGo(w: World, d: int, c: Choice)
    requires d in w.drivers && w.drivers[d].RefundAnswered?
    ensures var pc := w.drivers[d];
            Step(w, Go(d, c)) == Moved(if c.aborts then w
                                       else w.(db := RefundTx(w.db, pc.order, pc.amount, pc.answer.result.Approved?,
                                                              pc.answer.tid).0), d, Done)
  {}

  lemma RefundGo(w: World, d: int, c: Choice)
    requires d in w.drivers && w.drivers[d].Refunding?
    ensures var pc := w.drivers[d];
            Step(w, Go(d, c)) == Moved(Repaid(w, pc.order, pc.tid, pc.amount, c), d,
                                       RefundAnswered(pc.order, pc.amount, RefundAnswer(w, pc.order, pc.tid, c)))
  {}

  lemma AwaitGo(w: World, d: int, c: Choice)
    requires d in w.drivers && w.drivers[d].Waiting?
    requires !(c.heard && Acc(w.pg, w.drivers[d].order).inflight.Some?)
    ensures var pc := w.drivers[d];
            var reply := if c.heard then Truth(Acc(w.pg, pc.order)) else SILENCE;
            Step(w, Go(d, c))
              == Moved(Heard(w, ApproveSaid(pc.order, reply.result)), d,
                       Judged(pc.order, AskApprove, reply, pc.total, pc.key))
  {}

  lemma CancelRefundGo(w: World, d: int, c: Choice)
    requires d in w.drivers && w.drivers[d].CancelRefunding?
    ensures var pc := w.drivers[d];
            Step(w, Go(d, c)) == Moved(Repaid(w, pc.order, pc.tid, pc.fee.refund, c), d,
                                       CancelAnswered(pc.order, pc.fee, RefundAnswer(w, pc.order, pc.tid, c)))
  {}

  lemma CancelRecordGo(w: World, d: int, c: Choice)
    requires d in w.drivers && w.drivers[d].CancelAnswered?
    ensures var pc := w.drivers[d];
            Step(w, Go(d, c)) == Moved(if c.aborts then w
                                       else if pc.answer.result.Approved?
                                         then w.(db := CancelTx(w.db, pc.order, pc.fee, pc.answer.tid).0)
                                       else w.(db := CancelRefusedTx(w.db, pc.order, pc.fee).0), d, Done)
  {}

  // ------------------------------------------------------------------ runs

  function Exec(w: World, ls: seq<Label>): World
    decreases |ls|
  {
    if ls == [] then w else Exec(Step(w, ls[0]), ls[1..])
  }

  lemma {:induction false} ExecAppend(w: World, a: seq<Label>, b: seq<Label>)
    ensures Exec(w, a + b) == Exec(Exec(w, a), b)
    decreases |a|
  {
    if a == [] {
      assert a + b == b;
    } else {
      assert (a + b)[0] == a[0] && (a + b)[1..] == a[1..] + b;
      ExecAppend(Step(w, a[0]), a[1..], b);
    }
  }

  /** A world before anything happened. */
  ghost predicate Start(w: World) {
    Fresh(w.db) && w.pg == map[] && w.drivers == map[] && w.said == {} && w.returned == {}
  }

  // ------------------------------------------------------------------ the database part is a history

  /** The transaction a step commits, if it commits one. */
  function Committed(w: World, l: Label): seq<Timed> {
    match l
    case Outside(op, now) => if HoldOp(op) then [At(op, now)] else []
    case Hook(order, tid) => if Acc(w.pg, order).tid == Some(tid) then [At(Confirm(order, tid), w.clock)] else []
    case Go(d, c) => if d in w.drivers then CommittedBy(w.drivers[d], c, w.clock) else []
    case Tick(_) => []
    case Decide(_, _) => []
    case StartPlace(_, _, _, _, _, _) => []
    case StartReconcile(_, _) => []
    case StartCancel(_, _, _, _) => []
    case Stop(_) => []
  }

  function CommittedBy(pc: Pc, c: Choice, now: int): seq<Timed> {
    if c.aborts then []
    else
      match pc
      case Opening(schedule, user, ids, key, minRemaining) =>
        [At(Open(c.freshId, schedule, user, ids, key, minRemaining), now)]
      case Judged(order, ask, answer, _, _) =>
        if answer.result.Unknown? then []
        else if answer.result.Declined? then [At(CloseUnpaid(order, ask), now)]
        else if answer.tid.None? then []
        else [At(Confirm(order, answer.tid.value), now)]
      case RefundAnswered(_, _, _) => [At(RecordOp(pc), now)]
      case CancelAnswered(_, _, _) => [At(RecordOp(pc), now)]
      case Sending(_, _, _) => []
      case Waiting(_, _, _) => []
      case Inquiring(_) => []
      case Refunding(_, _, _) => []
      case Replaying(_, _, _) => []
      case CancelReading(_, _, _) => []
      case CancelRefunding(_, _, _) => []
      case Done => []
  }

  function CommittedIn(w: World, ls: seq<Label>): seq<Timed>
    decreases |ls|
  {
    if ls == [] then [] else Committed(w, ls[0]) + CommittedIn(Step(w, ls[0]), ls[1..])
  }

  lemma StepCommits(w: World, l: Label)
    ensures Step(w, l).db == Run(w.db, Committed(w, l))
  {
    if |Committed(w, l)| == 1 {
      var t := Committed(w, l)[0];
      assert Run(w.db, [t]) == Run(Apply(w.db, t.op, t.now).0, [t][1..]);
      assert [t][1..] == [];
    }
  }

  /** Every run of the saga, with its stops, aborts and lost replies, is a history of committed
      transactions; whatever holds of histories holds of it. */
  lemma {:induction false} SagaIsAHistory(w: World, ls: seq<Label>)
    ensures Exec(w, ls).db == Run(w.db, CommittedIn(w, ls))
    decreases |ls|
  {
    if ls != [] {
      StepCommits(w, ls[0]);
      SagaIsAHistory(Step(w, ls[0]), ls[1..]);
      RunAppend(w.db, Committed(w, ls[0]), CommittedIn(Step(w, ls[0]), ls[1..]));
    }
  }
}

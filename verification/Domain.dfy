/** Vocabulary and rules that need no database: the seat and order transition tables
    (app/domain/seat.py, app/domain/order.py), the three payment answers
    (app/domain/payment.py) and the policy arithmetic (app/domain/policy.py). */
module Domain {

  datatype Option<+T> = None | Some(value: T)

  // ------------------------------------------------------------------ statuses

  datatype SeatStatus = Available | Held | Booked

  datatype OrderStatus = Pending | Paid | Canceled | Failed

  /** An answer of the payment gateway. `Unknown` is an answer of its own: no reply came. */
  datatype PayResult = Approved | Declined | Unknown

  /** Status of one row of `payments`. */
  datatype PayStatus = Requested | Approved | Failed | Refunded

  function SeatAllowed(src: SeatStatus): set<SeatStatus> {
    match src
    case Available => {Held}
    case Held => {Booked, Available}
    case Booked => {Available}
  }

  function OrderAllowed(src: OrderStatus): set<OrderStatus> {
    match src
    case Pending => {Paid, OrderStatus.Failed, Canceled}
    case Paid => {Canceled}
    case Canceled => {}
    case Failed => {}
  }

  predicate IsTerminal(s: OrderStatus) {
    OrderAllowed(s) == {}
  }

  // ------------------------------------------------------------------ policy

  const MAX_SEATS_PER_ORDER: nat := 4
  const HOLD_TTL: nat := 420
  const SEAT_GATE_TTL: nat := 410
  const MIN_HOLD_REMAINING_FOR_PAYMENT: nat := 60
  const SEATMAP_CACHE_TTL: nat := 3

  datatype Tier = Tier(minDays: int, percent: nat)

  const CANCEL_FEE_TIERS: seq<Tier> := [Tier(8, 0), Tier(3, 10), Tier(1, 20)]

  function DaysUntilShow(today: int, showDay: int): int {
    showDay - today
  }

  /** The first tier, top down, whose lower bound is met. */
  function FirstTier(tiers: seq<Tier>, remaining: int): Option<Tier> {
    if tiers == [] then None
    else if remaining >= tiers[0].minDays then Some(tiers[0])
    else FirstTier(tiers[1..], remaining)
  }

  /** Cancellation fee; `None` is CancelClosed. */
  function CancelFee(amount: nat, today: int, showDay: int): Option<nat> {
    var remaining := DaysUntilShow(today, showDay);
    if remaining < 1 then None
    else
      match FirstTier(CANCEL_FEE_TIERS, remaining)
      case Some(t) => Some(amount * t.percent / 100)
      case None => None
  }

  /** The three bands of the policy, and the days on which it is closed. The last `raise`
      of the code is therefore never reached: a fee exists from one day before on. */
  lemma FeeBands(amount: nat, today: int, showDay: int)
    ensures CancelFee(amount, today, showDay) ==
            if showDay - today >= 8 then Some(0)
            else if showDay - today >= 3 then Some(amount / 10)
            else if showDay - today >= 1 then Some(amount / 5)
            else None
  {
    var r := showDay - today;
    assert CANCEL_FEE_TIERS[1..] == [Tier(3, 10), Tier(1, 20)];
    assert CANCEL_FEE_TIERS[1..][1..] == [Tier(1, 20)];
    assert CANCEL_FEE_TIERS[1..][1..][1..] == [];
    assert FirstTier(CANCEL_FEE_TIERS, r) ==
           if r >= 8 then Some(Tier(8, 0)) else FirstTier(CANCEL_FEE_TIERS[1..], r);
    assert FirstTier(CANCEL_FEE_TIERS[1..], r) ==
           if r >= 3 then Some(Tier(3, 10)) else FirstTier(CANCEL_FEE_TIERS[1..][1..], r);
    assert FirstTier(CANCEL_FEE_TIERS[1..][1..], r) ==
           if r >= 1 then Some(Tier(1, 20)) else None;
  }

  /** The fee never exceeds the ticket, so fee and refund split the amount; waiting never
      makes it cheaper; a dearer ticket never has a smaller fee; and cancelling is closed
      exactly on the day of the show and after. */
  lemma FeeIsFair(amount: nat, dearer: nat, today: int, later: int, showDay: int)
    requires amount <= dearer && today <= later
    ensures CancelFee(amount, later, showDay).None? <==> later >= showDay
    ensures CancelFee(amount, later, showDay).Some? ==>
              && CancelFee(amount, later, showDay).value <= amount
              && CancelFee(amount, today, showDay).Some?
              && CancelFee(amount, today, showDay).value <= CancelFee(amount, later, showDay).value
              && CancelFee(dearer, later, showDay).Some?
              && CancelFee(amount, later, showDay).value <= CancelFee(dearer, later, showDay).value
  {
    FeeBands(amount, today, showDay);
    FeeBands(amount, later, showDay);
    FeeBands(dearer, later, showDay);
  }
}

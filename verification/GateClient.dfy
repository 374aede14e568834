/** The client of the seat gate (app/infra/redis/client.py): retry, fail open, release unless kept.
    `trips` says how each attempt goes, as many as the setting allows, and what others have done to
    the store before it arrives; the client never learns more than that a reply did not come. */
module GateClient {
  import opened Domain
  import opened Tables
  import opened SeatGate

  datatype Fate = Answered | ReplyLost | Unsent

  /** `edits` are the keys others have set or deleted since the last attempt: any change at all. */
  datatype Trip = Trip(fate: Fate, now: int, edits: map<SeatKey, Option<Entry>>)

  /** What `hold_gate` yields. */
  datatype Gate = Gate(acquired: bool, blocked: seq<int>, degraded: bool)

  /** int(hold_ttl_sec * SEAT_GATE_TTL / HOLD_TTL * 1000), at least one. */
  function GateTtl(holdTtl: int): nat {
    var scaled := holdTtl * SEAT_GATE_TTL * 1000 / HOLD_TTL;
    if scaled < 1 then 1 else scaled
  }

  /** The gate goes before the hold it stands for, for every hold of a second or more and for no
      shorter one: the floor of one millisecond outlives a hold of no seconds. */
  lemma GateDiesFirst(holdTtl: int)
    ensures GateTtl(holdTtl) < holdTtl * 1000 <==> holdTtl >= 1
  {
    var scaled := holdTtl * SEAT_GATE_TTL * 1000 / HOLD_TTL;
    if holdTtl >= 1 {
      assert scaled >= 410 * 1000 / 420;
    }
  }

  /** For a hold of a second or more the lifetime is 41 parts in 42 of the hold, rounded down to the millisecond. */
  lemma GateTtlIsTheRatio(holdTtl: int)
    requires holdTtl >= 1
    ensures 42 * GateTtl(holdTtl) <= 41 * holdTtl * 1000 < 42 * (GateTtl(holdTtl) + 1)
  {
    var scaled := holdTtl * SEAT_GATE_TTL * 1000 / HOLD_TTL;
    assert holdTtl * 410 * 1000 == 10 * (41 * holdTtl * 1000);
    assert 420 * scaled <= 10 * (41 * holdTtl * 1000) < 420 * (scaled + 1);
  }

  function Keys(schedule: int, ids: seq<int>): (ks: seq<SeatKey>)
    ensures |ks| == |ids|
  {
    seq(|ids|, i requires 0 <= i < |ids| => SeatKey(schedule, ids[i]))
  }

  // ------------------------------------------------------------------ what entering does

  /** The store and the script's answer, `None` when no attempt got a reply. */
  function Entered(store: Store, keys: seq<SeatKey>, token: int, ttl: nat, trips: seq<Trip>): (r: (Store, Option<nat>))
    ensures r.1.Some? ==> r.1.value <= |keys|
    decreases |trips|
  {
    if trips == [] then (store, None)
    else
      var t := trips[0];
      var found := Edited(store, t.edits);
      match t.fate
      case Unsent => Entered(found, keys, token, ttl, trips[1..])
      case ReplyLost => Entered(Gated(found, keys, token, ttl, t.now), keys, token, ttl, trips[1..])
      case Answered => (Gated(found, keys, token, ttl, t.now), Some(Blocker(found, keys, token, t.now)))
  }

  /** The store after leaving without keep. */
  function Left(store: Store, keys: seq<SeatKey>, token: int, trip: Trip): Store {
    var found := Edited(store, trip.edits);
    if trip.fate.Unsent? then found else Without(found, Mine(found, keys, token, trip.now))
  }

  class Client {
    const redis: RedisStore

    constructor (redis: RedisStore)
      ensures this.redis == redis
    {
      this.redis := redis;
    }

    /** hold_gate up to its yield. */
    method Enter(connected: bool, schedule: int, user: int, ordered: seq<int>, holdTtl: int, trips: seq<Trip>)
      returns (gate: Gate)
      modifies redis
      ensures var after := if connected
              then Entered(old(redis.store), Keys(schedule, ordered), user, GateTtl(holdTtl), trips)
                           else (old(redis.store), None);
              && redis.store == after.0
              && gate == match after.1
                         case None => Gate(true, [], true)
                         case Some(b) => if b == 0 then Gate(true, [], false) else Gate(false, [ordered[b - 1]], false)
    {
      if !connected {
        return Gate(true, [], true);
      }
      var keys, ttl := Keys(schedule, ordered), GateTtl(holdTtl);
      ghost var all := Entered(redis.store, keys, user, ttl, trips);
      var i := 0;
      while i < |trips|
        invariant 0 <= i <= |trips|
        invariant Entered(redis.store, keys, user, ttl, trips[i..]) == all
      {
        var t := trips[i];
        assert trips[i..][1..] == trips[i + 1..];
        redis.Interfere(t.edits);
        if !t.fate.Unsent? {
          var answer := redis.AcquireScript(keys, user, ttl, t.now);
          if t.fate.Answered? {
            return if answer == 0 then Gate(true, [], false) else Gate(false, [ordered[answer - 1]], false);
          }
        }
        i := i + 1;
      }
      gate := Gate(true, [], true);
    }

    /** _release, best effort. */
    method Release(schedule: int, user: int, ordered: seq<int>, trip: Trip) returns (removed: nat)
      modifies redis
      ensures redis.store == Left(old(redis.store), Keys(schedule, ordered), user, trip)
      ensures removed == if trip.fate.Answered?
              then |Mine(Edited(old(redis.store), trip.edits), Keys(schedule, ordered), user, trip.now)| else 0
    {
      redis.Interfere(trip.edits);
      if ordered == [] {
        return 0;
      }
      if trip.fate.Unsent? {
        return 0;
      }
      removed := redis.ReleaseScript(Keys(schedule, ordered), user, trip.now);
      if trip.fate.ReplyLost? {
        removed := 0;
      }
    }
  }

  // ------------------------------------------------------------------ leaving without keep

  predicate InOrder(trips: seq<Trip>, from: int) {
    forall i :: 0 <= i < |trips| ==>
      from <= trips[i].now && forall j :: i < j < |trips| ==> trips[i].now <= trips[j].now
  }

  predicate GotAnswer(trips: seq<Trip>) {
    trips != [] && (trips[0].fate.Answered? || GotAnswer(trips[1..]))
  }

  /** When the attempt that is answered arrives. */
  function AnsweredAt(trips: seq<Trip>): int {
    if trips == [] then 0 else if trips[0].fate.Answered? then trips[0].now else AnsweredAt(trips[1..])
  }

  /** The store after an attempt that is not answered. */
  function AfterTrip(store: Store, keys: seq<SeatKey>, token: int, ttl: nat, t: Trip): Store {
    var found := Edited(store, t.edits);
    if t.fate.Unsent? then found else Gated(found, keys, token, ttl, t.now)
  }

  /** The store that the attempt that is answered finds. */
  function FoundBy(store: Store, keys: seq<SeatKey>, token: int, ttl: nat, trips: seq<Trip>): Store
    decreases |trips|
  {
    if trips == [] then store
    else if trips[0].fate.Answered? then Edited(store, trips[0].edits)
    else FoundBy(AfterTrip(store, keys, token, ttl, trips[0]), keys, token, ttl, trips[1..])
  }

  /** The deadline an attempt gave to all the keys without the client learning of it. */
  function Lost(store: Store, keys: seq<SeatKey>, token: int, ttl: nat, t: Trip): set<int> {
    if t.fate.ReplyLost? && Blocker(Edited(store, t.edits), keys, token, t.now) == 0 then {t.now + ttl} else {}
  }

  /** The deadlines that unanswered attempts gave to all the keys. */
  function LostDeadlines(store: Store, keys: seq<SeatKey>, token: int, ttl: nat, trips: seq<Trip>): set<int>
    decreases |trips|
  {
    if trips == [] || trips[0].fate.Answered? then {}
    else
      Lost(store, keys, token, ttl, trips[0])
      + LostDeadlines(AfterTrip(store, keys, token, ttl, trips[0]), keys, token, ttl, trips[1..])
  }

  lemma {:induction false} EnteredAnswers(store: Store, keys: seq<SeatKey>, token: int, ttl: nat, trips: seq<Trip>)
    ensures var (after, r) := Entered(store, keys, token, ttl, trips);
            && (r.Some? <==> GotAnswer(trips))
            && (r.Some? ==>
                  var found, now := FoundBy(store, keys, token, ttl, trips), AnsweredAt(trips);
                  r.value == Blocker(found, keys, token, now) && after == Gated(found, keys, token, ttl, now))
    decreases |trips|
  {
    if trips != [] {
      EnteredAnswers(AfterTrip(store, keys, token, ttl, trips[0]), keys, token, ttl, trips[1..]);
    }
  }

  // ---- what others may do to this token's keys

  /** Every live key of this token among those named that is in `b` is in `a`. */
  predicate OwnWithin(b: Store, a: Store, keys: seq<SeatKey>, token: int, now: int) {
    forall k :: k in keys && Owner(b, k, now) == Some(token) ==> k in a && a[k] == b[k]
  }

  /** Between the attempts others may delete live keys of this token, but set none of those asked for. */
  predicate NobodyAdds(store: Store, keys: seq<SeatKey>, token: int, ttl: nat, trips: seq<Trip>)
    decreases |trips|
  {
    trips != [] ==>
      && OwnWithin(Edited(store, trips[0].edits), store, keys, token, trips[0].now)
      && (!trips[0].fate.Answered? ==>
            NobodyAdds(AfterTrip(store, keys, token, ttl, trips[0]), keys, token, ttl, trips[1..]))
  }

  /** Nor do they delete any. */
  predicate NobodyRemoves(store: Store, keys: seq<SeatKey>, token: int, ttl: nat, trips: seq<Trip>)
    decreases |trips|
  {
    trips != [] ==>
      && OwnWithin(store, Edited(store, trips[0].edits), keys, token, trips[0].now)
      && (!trips[0].fate.Answered? ==>
            NobodyRemoves(AfterTrip(store, keys, token, ttl, trips[0]), keys, token, ttl, trips[1..]))
  }

  /** A live key of this token, of those asked for, was there at first, or an unanswered attempt set it. */
  predicate Known(s0: Store, deadlines: set<int>, store: Store, keys: seq<SeatKey>, token: int, now: int) {
    forall k :: k in keys && Owner(store, k, now) == Some(token) ==>
      (k in s0 && s0[k] == store[k]) || store[k].until in deadlines
  }

  lemma KnownLater(s0: Store, ds: set<int>, store: Store, found: Store, keys: seq<SeatKey>, token: int, from: int,
                   now: int)
    requires Known(s0, ds, store, keys, token, from) && from <= now
    requires OwnWithin(found, store, keys, token, now)
    ensures Known(s0, ds, found, keys, token, now)
  {}

  lemma TripKnown(s0: Store, ds: set<int>, store: Store, keys: seq<SeatKey>, token: int, ttl: nat, t: Trip)
    requires !t.fate.Answered? && Known(s0, ds, Edited(store, t.edits), keys, token, t.now)
    ensures Known(s0, ds + Lost(store, keys, token, ttl, t), AfterTrip(store, keys, token, ttl, t), keys, token, t.now)
  {
    var found, next := Edited(store, t.edits), AfterTrip(store, keys, token, ttl, t);
    forall k | k in keys && Owner(next, k, t.now) == Some(token)
      ensures (k in s0 && s0[k] == next[k]) || next[k].until in ds + Lost(store, keys, token, ttl, t)
    {
      assert next[k].until in Lost(store, keys, token, ttl, t) || (k in found && next[k] == found[k]);
    }
  }

  lemma {:induction false} FoundIsKnown(s0: Store, ds: set<int>, store: Store, keys: seq<SeatKey>, token: int, ttl: nat,
                                        trips: seq<Trip>, from: int)
    requires ttl > 0 && InOrder(trips, from) && GotAnswer(trips)
    requires Known(s0, ds, store, keys, token, from) && NobodyAdds(store, keys, token, ttl, trips)
    ensures Known(s0, ds + LostDeadlines(store, keys, token, ttl, trips), FoundBy(store, keys, token, ttl, trips),
                  keys, token, AnsweredAt(trips))
    decreases |trips|
  {
    hide Known, OwnWithin, Edited, AfterTrip, Lost;
    var t := trips[0];
    KnownLater(s0, ds, store, Edited(store, t.edits), keys, token, from, t.now);
    if t.fate.Answered? {
      assert ds + {} == ds;
    } else {
      var next, more := AfterTrip(store, keys, token, ttl, t), ds + Lost(store, keys, token, ttl, t);
      TripKnown(s0, ds, store, keys, token, ttl, t);
      FoundIsKnown(s0, more, next, keys, token, ttl, trips[1..], t.now);
      assert ds + LostDeadlines(store, keys, token, ttl, trips)
          == more + LostDeadlines(next, keys, token, ttl, trips[1..]);
    }
  }

  /** Is this live key of the token one that was not there, with this deadline, before the call? */
  predicate IsNew(store: Store, after: Store, k: SeatKey, token: int, now: int) {
    k in after && Owner(after, k, now) == Some(token) && !(k in store && store[k] == after[k])
  }

  /** What a blocked answer leaves behind, exactly: a key that was not there before stays if and only if it
      lies behind the blocker and still carries the live entry that an unanswered attempt gave it. */
  lemma LeftBehindExactly(store: Store, keys: seq<SeatKey>, token: int, ttl: nat, trips: seq<Trip>, from: int,
                          k: SeatKey)
    requires ttl > 0 && InOrder(trips, from) && NobodyAdds(store, keys, token, ttl, trips)
    requires var r := Entered(store, keys, token, ttl, trips).1; r.Some? && r.value > 0
    requires k in keys
    ensures var (after, r) := Entered(store, keys, token, ttl, trips);
            var found, now := FoundBy(store, keys, token, ttl, trips), AnsweredAt(trips);
            IsNew(store, after, k, token, now)
            <==> && k in keys[r.value..] && k !in keys[..r.value - 1]
                 && IsNew(store, found, k, token, now)
                 && found[k].until in LostDeadlines(store, keys, token, ttl, trips)
  {
    hide Known, FoundBy, LostDeadlines, NobodyAdds, Entered, Blocker, Edited;
    EnteredAnswers(store, keys, token, ttl, trips);
    var b := Entered(store, keys, token, ttl, trips).1.value;
    var found, now := FoundBy(store, keys, token, ttl, trips), AnsweredAt(trips);
    KnownAtFirst(store, keys, token, from);
    FoundIsKnown(store, {}, store, keys, token, ttl, trips, from);
    if IsNew(store, found, k, token, now) {
      KnownOrNew(store, LostDeadlines(store, keys, token, ttl, trips), found, keys, token, now, k);
    }
    if k in keys[..b - 1] {
      assert k in KeySet(keys[..b - 1]);
    } else if k != keys[b - 1] {
      KeysBehind(keys, b, k);
    }
  }

  lemma KnownAtFirst(store: Store, keys: seq<SeatKey>, token: int, from: int)
    ensures Known(store, {}, store, keys, token, from)
  {}

  lemma KnownOrNew(s0: Store, ds: set<int>, found: Store, keys: seq<SeatKey>, token: int, now: int, k: SeatKey)
    requires Known(s0, {} + ds, found, keys, token, now) && k in keys && IsNew(s0, found, k, token, now)
    ensures found[k].until in ds
  {}

  lemma KeysBehind(keys: seq<SeatKey>, b: nat, k: SeatKey)
    requires 0 < b <= |keys| && k in keys && k !in keys[..b - 1] && k != keys[b - 1]
    ensures k in keys[b..]
  {
    assert keys == keys[..b - 1] + [keys[b - 1]] + keys[b..];
  }

  /** Once all keys are this token's until `u`, a blocked answer comes only after `u`. */
  lemma {:induction false} WholeIsNotBlocked(store: Store, keys: seq<SeatKey>, token: int, ttl: nat, trips: seq<Trip>,
                                             from: int, u: int)
    requires ttl > 0 && InOrder(trips, from) && NobodyRemoves(store, keys, token, ttl, trips) && u <= from + ttl
    requires forall k :: k in keys ==> k in store && store[k] == Entry(token, u)
    ensures var r := Entered(store, keys, token, ttl, trips).1; r.Some? && r.value > 0 ==> u <= AnsweredAt(trips)
    decreases |trips|
  {
    EnteredAnswers(store, keys, token, ttl, trips);
    if trips != [] && GotAnswer(trips) {
      var t := trips[0];
      var found := Edited(store, t.edits);
      AnswerComesLater(trips, from);
      if t.now < u {
        forall k | k in keys
          ensures k in found && found[k] == Entry(token, u)
        {
          assert Owner(store, k, t.now) == Some(token);
        }
        assert forall j :: 0 <= j < |keys| ==> keys[j] in keys;
        assert Blocker(found, keys, token, t.now) == 0;
        if !t.fate.Answered? {
          var next := AfterTrip(store, keys, token, ttl, t);
          WholeIsNotBlocked(next, keys, token, ttl, trips[1..], t.now, if t.fate.Unsent? then u else t.now + ttl);
        }
      }
    }
  }

  lemma {:induction false} AnswerComesLater(trips: seq<Trip>, from: int)
    requires InOrder(trips, from) && GotAnswer(trips)
    ensures trips[0].now <= AnsweredAt(trips)
  {
    if !trips[0].fate.Answered? {
      AnswerComesLater(trips[1..], trips[0].now);
    }
  }

  /** When nobody deletes this token's keys, what unanswered attempts set has run out before a blocked answer. */
  lemma {:induction false} LostHaveRunOut(store: Store, keys: seq<SeatKey>, token: int, ttl: nat, trips: seq<Trip>,
                                          from: int)
    requires ttl > 0 && InOrder(trips, from) && NobodyRemoves(store, keys, token, ttl, trips)
    requires var r := Entered(store, keys, token, ttl, trips).1; r.Some? && r.value > 0
    ensures forall u :: u in LostDeadlines(store, keys, token, ttl, trips) ==> u <= AnsweredAt(trips)
    decreases |trips|
  {
    var t := trips[0];
    if !t.fate.Answered? {
      var next := AfterTrip(store, keys, token, ttl, t);
      LostHaveRunOut(next, keys, token, ttl, trips[1..], t.now);
      if t.fate.ReplyLost? && Blocker(Edited(store, t.edits), keys, token, t.now) == 0 {
        WholeIsNotBlocked(next, keys, token, ttl, trips[1..], t.now, t.now + ttl);
      }
    }
  }

  /** Some interference set this entry. */
  predicate SetByOthers(trips: seq<Trip>, k: SeatKey, e: Entry) {
    exists i :: 0 <= i < |trips| && k in trips[i].edits && trips[i].edits[k] == Some(e)
  }

  /** Keys not asked for, and entries that are not this token's, are as they were or as others set them. */
  lemma {:induction false} OthersAreTheirOwn(store: Store, keys: seq<SeatKey>, token: int, ttl: nat, trips: seq<Trip>,
                                             k: SeatKey)
    requires k in Entered(store, keys, token, ttl, trips).0
    requires k !in keys || Entered(store, keys, token, ttl, trips).0[k].owner != token
    ensures var e := Entered(store, keys, token, ttl, trips).0[k];
            (k in store && store[k] == e) || SetByOthers(trips, k, e)
    decreases |trips|
  {
    if trips != [] {
      var t := trips[0];
      var e := Entered(store, keys, token, ttl, trips).0[k];
      var next := AfterTrip(store, keys, token, ttl, t);
      if !t.fate.Answered? {
        OthersAreTheirOwn(next, keys, token, ttl, trips[1..], k);
        if SetByOthers(trips[1..], k, e) {
          var i :| 0 <= i < |trips[1..]| && k in trips[1..][i].edits && trips[1..][i].edits[k] == Some(e);
          assert trips[i + 1].edits[k] == Some(e);
        }
      }
      if k in t.edits && t.edits[k] == Some(e) { assert trips[0].edits[k] == Some(e); }
    }
  }

  /** Entering and leaving without keep while Redis answers, if nobody else sets live keys of this token
      among those asked for, nor deletes any before a blocked answer, and whatever others do
      otherwise: no live key of this token is there afterwards that was not there, with that
      deadline, before, and every other entry is as it was or as others set it. */
  lemma LeavingAddsNothing(store: Store, keys: seq<SeatKey>, token: int, ttl: nat, trips: seq<Trip>, from: int,
                           leave: Trip, k: SeatKey)
    requires ttl > 0 && InOrder(trips, from) && GotAnswer(trips)
    requires !leave.fate.Unsent? && AnsweredAt(trips) <= leave.now
    requires NobodyAdds(store, keys, token, ttl, trips)
    requires Entered(store, keys, token, ttl, trips).1 == Some(0) || NobodyRemoves(store, keys, token, ttl, trips)
    requires var after := Entered(store, keys, token, ttl, trips).0;
             OwnWithin(Edited(after, leave.edits), after, keys, token, leave.now)
    ensures var (after, r) := Entered(store, keys, token, ttl, trips);
            r.Some? &&
            var final := if r.value == 0 then Left(after, keys, token, leave) else after;
            && (k in keys ==> !IsNew(store, final, k, token, leave.now))
            && (k in final && (k !in keys || final[k].owner != token) ==>
                  (k in store && store[k] == final[k]) || SetByOthers(trips + [leave], k, final[k]))
  {
    EnteredAnswers(store, keys, token, ttl, trips);
    FoundIsKnown(store, {}, store, keys, token, ttl, trips, from);
    var (after, r) := Entered(store, keys, token, ttl, trips);
    var final := if r.value == 0 then Left(after, keys, token, leave) else after;
    if r.value > 0 && k in keys {
      LeftBehindExactly(store, keys, token, ttl, trips, from, k);
      LostHaveRunOut(store, keys, token, ttl, trips, from);
    }
    if k in final && (k !in keys || final[k].owner != token) {
      if k in after && after[k] == final[k] {
        OthersAreTheirOwn(store, keys, token, ttl, trips, k);
        if SetByOthers(trips, k, final[k]) {
          var i :| 0 <= i < |trips| && k in trips[i].edits && trips[i].edits[k] == Some(final[k]);
          assert (trips + [leave])[i].edits[k] == Some(final[k]);
        }
      } else {
        assert (trips + [leave])[|trips|].edits[k] == Some(final[k]);
      }
    }
  }

  /** If somebody deletes one it fails. The first attempt takes three keys and its reply is
      lost; the user gives the middle seat back and somebody else takes it; the second attempt is
      blocked there. The script lets the first key go, the client lets nothing go, and the third
      key stays for its whole lifetime. */
  lemma KeyLeftBehind(k1: SeatKey, k2: SeatKey, k3: SeatKey, user: int, other: int, ttl: nat)
    requires k1 != k2 && k2 != k3 && k1 != k3 && user != other && ttl > 1
    ensures var keys := [k1, k2, k3];
            var once := Gated(map[], keys, user, ttl, 0);
            var edits := map[k2 := Some(Entry(other, 1 + ttl))];
            var trips := [Trip(ReplyLost, 0, map[]), Trip(Answered, 1, edits)];
            var (after, r) := Entered(map[], keys, user, ttl, trips);
            && Edited(once, edits) == Gated(Without(once, Mine(once, [k2], user, 1)), [k2], other, ttl, 1)
            && NobodyAdds(map[], keys, user, ttl, trips) && !NobodyRemoves(map[], keys, user, ttl, trips)
            && r == Some(2) && k1 !in after && IsNew(map[], after, k3, user, 1) && after[k3].until == ttl
  {
    var keys := [k1, k2, k3];
    var once := map[k1 := Entry(user, ttl), k2 := Entry(user, ttl), k3 := Entry(user, ttl)];
    var edits := map[k2 := Some(Entry(other, 1 + ttl))];
    var first, second := Trip(ReplyLost, 0, map[]), Trip(Answered, 1, edits);
    assert [first, second][1..] == [second];
    assert Edited(map[], map[]) == map[];
    assert Gated(map[], keys, user, ttl, 0) == once;
    GivenAway(k1, k2, k3, user, other, ttl);
    BlockedInTheMiddle(k1, k2, k3, user, other, ttl);
  }

  /** What a release of the middle seat by the user and an acquire by the other leave. */
  lemma GivenAway(k1: SeatKey, k2: SeatKey, k3: SeatKey, user: int, other: int, ttl: nat)
    requires k1 != k2 && k2 != k3 && k1 != k3 && user != other && ttl > 1
    ensures var once := map[k1 := Entry(user, ttl), k2 := Entry(user, ttl), k3 := Entry(user, ttl)];
            Edited(once, map[k2 := Some(Entry(other, 1 + ttl))])
            == Gated(Without(once, Mine(once, [k2], user, 1)), [k2], other, ttl, 1)
  {
    var once := map[k1 := Entry(user, ttl), k2 := Entry(user, ttl), k3 := Entry(user, ttl)];
    assert Mine(once, [k2], user, 1) == {k2};
    assert Blocker(Without(once, {k2}), [k2], other, 1) == 0;
    assert KeySet([k2]) == {k2};
  }

  lemma BlockedInTheMiddle(k1: SeatKey, k2: SeatKey, k3: SeatKey, user: int, other: int, ttl: nat)
    requires k1 != k2 && k2 != k3 && k1 != k3 && user != other && ttl > 1
    ensures var keys := [k1, k2, k3];
            var once := map[k1 := Entry(user, ttl), k2 := Entry(user, ttl), k3 := Entry(user, ttl)];
            var found := Edited(once, map[k2 := Some(Entry(other, 1 + ttl))]);
            && found == map[k1 := Entry(user, ttl), k2 := Entry(other, 1 + ttl), k3 := Entry(user, ttl)]
            && Blocker(found, keys, user, 1) == 2
            && Gated(found, keys, user, ttl, 1) == map[k2 := Entry(other, 1 + ttl), k3 := Entry(user, ttl)]
  {
    var keys := [k1, k2, k3];
    var found := map[k1 := Entry(user, ttl), k2 := Entry(other, 1 + ttl), k3 := Entry(user, ttl)];
    assert !HeldByOther(found, keys[0], user, 1) && HeldByOther(found, keys[1], user, 1);
    assert KeySet(keys[..1]) == {k1} by { assert keys[..1] == [k1]; }
  }
}

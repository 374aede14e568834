/** acquire, release and sweep_expired (app/service/hold_service.py): the gate in front of the
    database. The database statements are atomic here; HoldProtocol takes acquire apart. */
module HoldService {
  import opened Domain
  import opened Tables
  import opened Transactions
  import opened Invariants
  import opened History
  import opened Statements
  import opened SeatGate
  import opened GateClient

  /** How Redis behaves during one call. */
  datatype Weather = Weather(connected: bool, trips: seq<Trip>, leave: Trip)

  datatype HoldOutcome = GateSaysTaken(seat: int) | Decided(out: Outcome)

  // ------------------------------------------------------------------ both stores together

  datatype Site = Site(db: Db, redis: Store)

  datatype Move =
    | GatedAcquire(schedule: int, user: int, ids: seq<int>, max: int, ttl: int, now: int, weather: Weather)
    | GatedRelease(schedule: int, user: int, ids: seq<int>, leave: Trip)
    | Plain(op: Op, now: int)
    | RedisMoves(redis: Store)      // flush, restart, expiry, other clients: any store at all

  function SeatOrder(ids: seq<int>): seq<int> {
    Sorted(Members(ids))
  }

  /** The gate part of an acquire. */
  function AtGate(redis: Store, m: Move): (Store, Option<nat>)
    requires m.GatedAcquire?
  {
    if !WellAsked(m.ids, m.max) || !m.weather.connected then (redis, None)
    else Entered(redis, Keys(m.schedule, SeatOrder(m.ids)), m.user, GateTtl(m.ttl), m.weather.trips)
  }

  predicate Blocked(redis: Store, m: Move) {
    m.GatedAcquire? && AtGate(redis, m).1.Some? && AtGate(redis, m).1.value > 0
  }

  function Do(s: Site, m: Move): Site {
    match m
    case GatedAcquire(schedule, user, ids, max, ttl, now, weather) =>
      var (after, answer) := AtGate(s.redis, m);
      if Blocked(s.redis, m) then s.(redis := after)
      else
        var (db, out) := AcquireTx(s.db, schedule, user, ids, max, ttl, now);
        Site(db, if answer.None? || out.HoldGranted? then after
             else Left(after, Keys(schedule, SeatOrder(ids)), user, weather.leave))
    case GatedRelease(schedule, user, ids, leave) =>
      var (db, out) := ReleaseTx(s.db, schedule, user, ids);
      var freed := HeldSeats(s.db, schedule, user, ids);
      Site(db, if freed == {} then s.redis else Left(s.redis, Keys(schedule, SeatIds(freed)), user, leave))
    case Plain(op, now) => s.(db := Apply(s.db, op, now).0)
    case RedisMoves(redis) => s.(redis := redis)
  }

  function SeatIds(ks: set<SeatKey>): seq<int> {
    Sorted(set k | k in ks :: k.seat)
  }

  // ------------------------------------------------------------------ the service

  class Holds {
    const db: Database
    const redis: RedisStore
    const client: Client

    function S(): Site
      reads db, redis
    {
      Site(db.State(), redis.store)
    }

    constructor (db: Database, redis: RedisStore)
      ensures this.db == db && this.redis == redis && client.redis == redis
    {
      this.db, this.redis := db, redis;
      client := new Client(redis);
    }

    /** acquire. Whatever Redis does, either the gate turns the request away and the database is not
        touched, or the database decides exactly as it would without a gate. */
    method Acquire(schedule: int, user: int, ids: seq<int>, holdTtl: Option<int>, max: int, now: int, weather: Weather)
      returns (r: HoldOutcome)
      requires client.redis == redis
      modifies db, redis
      ensures var ttl := if holdTtl.Some? then holdTtl.value else HOLD_TTL;
              S() == Do(old(S()), GatedAcquire(schedule, user, ids, max, ttl, now, weather))
      ensures r.Decided? ==>
                var ttl := if holdTtl.Some? then holdTtl.value else HOLD_TTL;
                (db.State(), r.out) == AcquireTx(old(db.State()), schedule, user, ids, max, ttl, now)
      ensures r.GateSaysTaken? ==>
                && db.State() == old(db.State()) && r.seat in ids && weather.connected
                && HeldByOther(redis.store, SeatKey(schedule, r.seat), user, AnsweredAt(weather.trips))
    {
      if ids == [] {
        return Decided(BadRequest);
      }
      MembersSize(ids);
      if |Members(ids)| != |ids| {
        return Decided(BadRequest);
      }
      if |ids| > max {
        return Decided(QuotaExceeded(ids));
      }
      var ttl := if holdTtl.Some? then holdTtl.value else HOLD_TTL;
      r := AcquireThroughGate(schedule, user, ids, ttl, max, now, weather);
    }

    /** `async with hold_gate(...)` and its body. */
    method AcquireThroughGate(schedule: int, user: int, ids: seq<int>, ttl: int, max: int, now: int, weather: Weather)
      returns (r: HoldOutcome)
      requires client.redis == redis && WellAsked(ids, max)
      modifies db, redis
      ensures S() == Do(old(S()), GatedAcquire(schedule, user, ids, max, ttl, now, weather))
      ensures r.Decided? ==> (db.State(), r.out) == AcquireTx(old(db.State()), schedule, user, ids, max, ttl, now)
      ensures r.GateSaysTaken? ==>
                && db.State() == old(db.State()) && r.seat in ids && weather.connected
                && HeldByOther(redis.store, SeatKey(schedule, r.seat), user, AnsweredAt(weather.trips))
    {
      ghost var s0, move := S(), GatedAcquire(schedule, user, ids, max, ttl, now, weather);
      var ordered := SeatOrder(ids);
      var gate := client.Enter(weather.connected, schedule, user, ordered, ttl, weather.trips);
      if !gate.acquired {
        assert gate.blocked[0] in ordered;
        assert gate.blocked[0] in Members(ids);
        BlockedNamesTheSeat(s0, move);
        return GateSaysTaken(gate.blocked[0]);
      }
      var out := HoldInDatabase(schedule, user, ids, max, ttl, now);
      if !out.HoldGranted? && !gate.degraded {
        var removed := client.Release(schedule, user, ordered, weather.leave);
      }
      r := Decided(out);
    }

    /** The part of acquire inside the gate. The advisory lock it begins with has no effect on rows. */
    method HoldInDatabase(schedule: int, user: int, ids: seq<int>, max: int, ttl: int, now: int) returns (out: Outcome)
      requires WellAsked(ids, max)
      modifies db
      ensures (db.State(), out) == AcquireTx(old(db.State()), schedule, user, ids, max, ttl, now)
      ensures redis.store == old(redis.store)
    {
      var rows := db.HoldSeats(schedule, user, ids, max, ttl, now);
      if |rows| == 0 {
        var unavailable := db.FindUnavailableSeats(schedule, ids, now);
        return if unavailable != {} then SeatTaken(unavailable) else QuotaExceeded([]);
      }
      out := HoldGranted(rows);
    }

    /** release: the rows first, then their gate keys. */
    method Release(schedule: int, user: int, ids: seq<int>, leave: Trip) returns (freed: set<SeatKey>)
      requires client.redis == redis
      modifies db, redis
      ensures S() == Do(old(S()), GatedRelease(schedule, user, ids, leave))
      ensures ReleaseTx(old(db.State()), schedule, user, ids) == (db.State(), Freed(freed))
    {
      freed := db.ReleaseHold(schedule, user, ids);
      if freed != {} {
        var removed := client.Release(schedule, user, SeatIds(freed), leave);
      }
    }

    /** sweep_expired. */
    method SweepExpired(batch: nat, locked: set<SeatKey>, now: int) returns (freed: set<SeatKey>)
      modifies db
      ensures SweepTx(old(db.State()), freed, now) == (db.State(), Freed(freed))
      ensures SweepsOldest(old(db.seats), freed, locked, batch, now)
      ensures db.seats.Keys == old(db.seats).Keys
      ensures forall k :: k in db.seats ==>
                db.seats[k] == if k in freed then SeatRow(Available, None, None, old(db.seats)[k].price)
                               else old(db.seats)[k]
    {
      freed := db.SweepExpiredHolds(batch, locked, now);
    }
  }

  // ------------------------------------------------------------------ the gate around one acquire

  /** An acquire that the gate let through: Redis answered 0. */
  predicate LetThrough(s: Site, m: Move) {
    m.GatedAcquire? && WellAsked(m.ids, m.max) && m.weather.connected && AtGate(s.redis, m).1 == Some(0)
  }

  /** Every seat asked for has its key, in order of the ids. */
  lemma KeyOfSeat(schedule: int, ids: seq<int>, seat: int)
    ensures var keys := Keys(schedule, SeatOrder(ids));
            forall i, j :: 0 <= i < j < |keys| ==> keys[i].schedule == keys[j].schedule && keys[i].seat < keys[j].seat
    ensures seat in ids <==> SeatKey(schedule, seat) in Keys(schedule, SeatOrder(ids))
  {
    var ordered, keys := SeatOrder(ids), Keys(schedule, SeatOrder(ids));
    assert seat in ids <==> seat in Members(ids);
    if seat in ids {
      var i :| 0 <= i < |ordered| && ordered[i] == seat;
      assert keys[i] == SeatKey(schedule, seat);
    }
    if SeatKey(schedule, seat) in keys {
      var i :| 0 <= i < |keys| && keys[i] == SeatKey(schedule, seat);
      assert ordered[i] == seat;
    }
  }

  /** A grant keeps the gate: the rows are the user's until now + ttl, and every seat asked for has the user's key
      for the gate's lifetime from the answer on. */
  lemma GrantKeepsTheGate(s: Site, m: Move, seat: int)
    requires LetThrough(s, m) && seat in m.ids
    requires AcquireTx(s.db, m.schedule, m.user, m.ids, m.max, m.ttl, m.now).1.HoldGranted?
    ensures var v := Do(s, m);
            var k := SeatKey(m.schedule, seat);
            && k in v.redis && v.redis[k] == Entry(m.user, AnsweredAt(m.weather.trips) + GateTtl(m.ttl))
            && k in v.db.seats && v.db.seats[k].status.Held? && v.db.seats[k].heldBy == Some(m.user)
            && v.db.seats[k].expires == Some(m.now + m.ttl)
  {
    var keys := Keys(m.schedule, SeatOrder(m.ids));
    EnteredAnswers(s.redis, keys, m.user, GateTtl(m.ttl), m.weather.trips);
    KeyOfSeat(m.schedule, m.ids, seat);
    AcquireVerdict(s.db, m.schedule, m.user, m.ids, m.max, m.ttl, m.now);
    assert SeatKey(m.schedule, seat) in Wanted(m.schedule, m.ids);
  }

  /** A refusal by the database gives the gate back: if the request to do so arrives, the user has no live key
      on any seat asked for, and the tables are as they were. */
  lemma RefusalGivesBack(s: Site, m: Move, seat: int)
    requires LetThrough(s, m) && seat in m.ids && !m.weather.leave.fate.Unsent?
    requires !AcquireTx(s.db, m.schedule, m.user, m.ids, m.max, m.ttl, m.now).1.HoldGranted?
    ensures var v := Do(s, m);
            Owner(v.redis, SeatKey(m.schedule, seat), m.weather.leave.now) != Some(m.user) && v.db == s.db
  {
    KeyOfSeat(m.schedule, m.ids, seat);
    AcquireVerdict(s.db, m.schedule, m.user, m.ids, m.max, m.ttl, m.now);
  }

  /** A blocked request names a seat it asked for on which somebody else has the key, and changes no table. */
  lemma BlockedNamesTheSeat(s: Site, m: Move)
    requires m.GatedAcquire? && WellAsked(m.ids, m.max) && Blocked(s.redis, m)
    ensures var b := AtGate(s.redis, m).1.value;
            var v := Do(s, m);
            && 0 < b <= |SeatOrder(m.ids)| && SeatOrder(m.ids)[b - 1] in m.ids && v.db == s.db
            && HeldByOther(v.redis, SeatKey(m.schedule, SeatOrder(m.ids)[b - 1]), m.user, AnsweredAt(m.weather.trips))
  {
    var keys, trips := Keys(m.schedule, SeatOrder(m.ids)), m.weather.trips;
    EnteredAnswers(s.redis, keys, m.user, GateTtl(m.ttl), trips);
    var found := FoundBy(s.redis, keys, m.user, GateTtl(m.ttl), trips);
    GateIsAllOrNothing(found, keys, m.user, GateTtl(m.ttl), AnsweredAt(trips));
    assert SeatOrder(m.ids)[AtGate(s.redis, m).1.value - 1] in SeatOrder(m.ids);
    assert forall x :: x in SeatOrder(m.ids) ==> x in Members(m.ids);
  }

  /** A release leaves the user no live key on the seats it freed, if the request arrives, and takes nobody
      else's key and none of a seat it did not free. */
  lemma ReleaseOpensTheGate(s: Site, m: Move, k: SeatKey)
    requires m.GatedRelease? && !m.leave.fate.Unsent?
    ensures var v := Do(s, m);
            var freed := k in s.db.seats && k.schedule == m.schedule && k.seat in m.ids
                         && s.db.seats[k].status.Held? && s.db.seats[k].heldBy == Some(m.user);
            && (freed ==> Owner(v.redis, k, m.leave.now) != Some(m.user) && v.db.seats[k].status.Available?)
            && (v.redis == s.redis || (
                  var found := Edited(s.redis, m.leave.edits);
                  k in found && (!freed || found[k].owner != m.user) ==> k in v.redis && v.redis[k] == found[k]))
  {
    var freed := HeldSeats(s.db, m.schedule, m.user, m.ids);
    assert k.schedule == m.schedule && k.seat in m.ids ==> k in Wanted(m.schedule, m.ids) by {
      assert k == SeatKey(k.schedule, k.seat);
    }
    var seats := set j | j in freed :: j.seat;
    var ids := SeatIds(freed);
    var keys := Keys(m.schedule, ids);
    assert k in freed ==> k in keys by {
      if k in freed {
        assert k.seat in seats && k.seat in ids;
        var i :| 0 <= i < |ids| && ids[i] == k.seat;
        assert keys[i] == k;
      }
    }
    assert k in keys ==> k in freed by {
      if k in keys {
        var i :| 0 <= i < |keys| && keys[i] == k;
        assert ids[i] in ids && ids[i] in seats;
        var j :| j in freed && j.seat == ids[i];
        assert j == k;
      }
    }
  }

  // ------------------------------------------------------------------ transparency

  function RunSite(s: Site, ms: seq<Move>): Site
    decreases |ms|
  {
    if ms == [] then s else RunSite(Do(s, ms[0]), ms[1..])
  }

  /** What reaches the database, as transactions nobody knows a gate of. */
  function Reaching(s: Site, m: Move): seq<Timed> {
    match m
    case GatedAcquire(schedule, user, ids, max, ttl, now, _) =>
      if Blocked(s.redis, m) then [] else [At(Acquire(schedule, user, ids, max, ttl), now)]
    case GatedRelease(schedule, user, ids, leave) => [At(Release(schedule, user, ids), leave.now)]
    case Plain(op, now) => [At(op, now)]
    case RedisMoves(_) => []
  }

  function AllReaching(s: Site, ms: seq<Move>): seq<Timed>
    decreases |ms|
  {
    if ms == [] then [] else Reaching(s, ms[0]) + AllReaching(Do(s, ms[0]), ms[1..])
  }

  lemma MoveReaches(s: Site, m: Move)
    ensures Do(s, m).db == Run(s.db, Reaching(s, m))
  {
    if |Reaching(s, m)| == 1 {
      var t := Reaching(s, m)[0];
      assert [t][1..] == [];
      assert Run(s.db, [t]) == Run(Apply(s.db, t.op, t.now).0, [t][1..]);
    }
  }

  /** The gate is transparent: whatever Redis does and forgets, the tables end up as in a history
      without any gate, in which the turned-away requests were never made. Every state the
      database can reach with Redis it can reach without, so all its invariants carry over. */
  lemma {:induction false} GateIsTransparent(s: Site, ms: seq<Move>)
    ensures RunSite(s, ms).db == Run(s.db, AllReaching(s, ms))
    ensures DbInv(s.db) ==> DbInv(RunSite(s, ms).db)
    decreases |ms|
  {
    if ms != [] {
      MoveReaches(s, ms[0]);
      GateIsTransparent(Do(s, ms[0]), ms[1..]);
      RunAppend(s.db, Reaching(s, ms[0]), AllReaching(Do(s, ms[0]), ms[1..]));
    }
    if DbInv(s.db) { RunInv(s.db, AllReaching(s, ms)); }
  }

  /** While somebody's key guards a seat, nobody else's request for it gets as far as the database,
      if Redis answers. */
  lemma LosersStayOut(s: Site, m: Move, k: SeatKey)
    requires m.GatedAcquire? && WellAsked(m.ids, m.max) && m.weather.connected
    requires m.weather.trips != [] && m.weather.trips[0].fate.Answered?
    requires k.schedule == m.schedule && k.seat in m.ids
    requires var t := m.weather.trips[0]; HeldByOther(Edited(s.redis, t.edits), k, m.user, t.now)
    ensures Blocked(s.redis, m) && Do(s, m).db == s.db
  {
    var ordered := SeatOrder(m.ids);
    assert k.seat in Members(m.ids);
    assert k.seat in ordered;
    var i :| 0 <= i < |ordered| && ordered[i] == k.seat;
    assert Keys(m.schedule, ordered)[i] == k;
  }
}

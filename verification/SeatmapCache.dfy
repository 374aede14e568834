/** The seatmap and its cache (app/service/seatmap_service.py): a lock per schedule, a second look
    under the lock, a lifetime in Redis. One schedule in one process; any number of requests,
    interleaved at every await, while the database changes underneath, Redis forgets, reads and
    writes of the cache fail, and requests are cancelled. Times are seconds. */
module SeatmapCache {
  import opened Domain
  import opened Tables

  // ------------------------------------------------------------------ payload

  datatype Row = Row(seat: int, zone: string, rowLabel: string, col: int, grade: string, price: int, status: string)

  /** The label is its three parts; the words around them are left out. */
  datatype Cell = Cell(seat: int, zone: string, rowLabel: string, col: int, grade: string, price: int, status: string)

  /** A JSON document, as far as this cache uses one. */
  datatype Json = Num(n: int) | Str(s: string) | Arr(items: seq<Json>) | Obj(fields: map<string, Json>)

  function ToCell(r: Row): Cell {
    Cell(r.seat, r.zone, r.rowLabel, r.col, r.grade, r.price, r.status)
  }

  /** _to_seats on rows straight from the database. */
  function ToSeats(rows: seq<Row>): (cells: seq<Cell>)
    ensures |cells| == |rows|
  {
    seq(|rows|, i requires 0 <= i < |rows| => ToCell(rows[i]))
  }

  function EncodeRow(r: Row): Json {
    Arr([Num(r.seat), Str(r.zone), Str(r.rowLabel), Num(r.col), Str(r.grade), Num(r.price), Str(r.status)])
  }

  function EncodeRows(rows: seq<Row>): (items: seq<Json>)
    ensures |items| == |rows|
  {
    seq(|rows|, i requires 0 <= i < |rows| => EncodeRow(rows[i]))
  }

  /** What _cache_write stores. */
  function Encode(etag: string, rows: seq<Row>): Json {
    Obj(map["etag" := Str(etag), "rows" := Arr(EncodeRows(rows))])
  }

  /** One row of _to_seats on a payload: seven values of the right kinds, or a ValueError. */
  function DecodeRow(j: Json): Option<Cell> {
    if j.Arr? && |j.items| == 7 && j.items[0].Num? && j.items[1].Str? && j.items[2].Str? && j.items[3].Num?
       && j.items[4].Str? && j.items[5].Num? && j.items[6].Str?
    then Some(Cell(j.items[0].n, j.items[1].s, j.items[2].s, j.items[3].n, j.items[4].s, j.items[5].n, j.items[6].s))
    else None
  }

  function DecodeRows(items: seq<Json>): Option<seq<Cell>> {
    if items == [] then Some([])
    else
      match (DecodeRow(items[0]), DecodeRows(items[1..]))
      case (Some(c), Some(cs)) => Some([c] + cs)
      case _ => None
  }

  /** _cache_read on a document: the seatmap it holds, or nothing if the shape is not the expected one. */
  function Decode(j: Json): Option<(string, seq<Cell>)> {
    if !j.Obj? || "etag" !in j.fields || "rows" !in j.fields then None
    else if !j.fields["etag"].Str? || !j.fields["rows"].Arr? then None
    else
      match DecodeRows(j.fields["rows"].items)
      case Some(cells) => Some((j.fields["etag"].s, cells))
      case None => None
  }

  lemma {:induction false} RowsRoundTrip(rows: seq<Row>)
    ensures DecodeRows(EncodeRows(rows)) == Some(ToSeats(rows))
  {
    if rows != [] {
      RowsRoundTrip(rows[1..]);
      var items := EncodeRows(rows);
      assert items[1..] == EncodeRows(rows[1..]);
      assert DecodeRow(items[0]) == Some(ToCell(rows[0]));
      assert ToSeats(rows) == [ToCell(rows[0])] + ToSeats(rows[1..]);
    } else {
      assert ToSeats(rows) == [];
    }
  }

  /** A hit shows exactly what the miss that filled the cache showed. */
  lemma PayloadRoundTrip(etag: string, rows: seq<Row>)
    ensures Decode(Encode(etag, rows)) == Some((etag, ToSeats(rows)))
  {
    RowsRoundTrip(rows);
  }

  // ------------------------------------------------------------------ the process

  /** What the cache holds: the document, which version of the rows it was made from, when those were
      read and when it was written. */
  datatype Copy = Copy(doc: Json, version: nat, readAt: int, writtenAt: int)

  /** A response. */
  datatype Shown = Shown(etag: string, cells: seq<Cell>, fromCache: bool, version: nat, readAt: int, writtenAt: int,
                         at: int)

  datatype Phase =
    | Arrived
    | Queueing                                 // for the lock
    | Rechecking                               // holds the lock
    | Querying                                 // holds the lock, missed again
    | Storing(rows: seq<Row>, version: nat, readAt: int)
    | Served(shown: Shown)
    | Abandoned

  /** What the query returns from the instant `since` on, until the next content. */
  datatype Content = Content(rows: seq<Row>, since: int)

  /** `past` is every content the schedule ever had, oldest first; `dbReads` and `losses` are counted. */
  datatype Process = Process(past: seq<Content>, clock: int, cache: Option<Copy>, lock: Option<nat>, reqs: seq<Phase>,
                             dbReads: nat, losses: nat)

  datatype Label =
    | Tick(seconds: nat)
    | Change(rows: seq<Row>)                   // a transaction commits
    | Flush
    | Arrive
    | Look(i: nat, ok: bool)                   // the first read of the cache
    | Enter(i: nat)
    | LookAgain(i: nat, ok: bool)
    | Query(i: nat)
    | Store(i: nat, landed: bool)              // whether the write reached the cache; the reply is not used
    | Cancel(i: nat)

  type Etag = seq<Row> -> string

  predicate HoldsLock(p: Phase) {
    p.Rechecking? || p.Querying? || p.Storing?
  }

  predicate Enabled(p: Process, l: Label) {
    match l
    case Look(i, _) => i < |p.reqs| && p.reqs[i].Arrived?
    case Enter(i) => i < |p.reqs| && p.reqs[i].Queueing? && p.lock.None?
    case LookAgain(i, _) => i < |p.reqs| && p.reqs[i].Rechecking?
    case Query(i) => i < |p.reqs| && p.reqs[i].Querying? && p.past != []
    case Store(i, _) => i < |p.reqs| && p.reqs[i].Storing?
    case Cancel(i) => i < |p.reqs| && !p.reqs[i].Served? && !p.reqs[i].Abandoned?
    case _ => true
  }

  function To(p: Process, i: nat, phase: Phase): Process
    requires i < |p.reqs|
  {
    p.(reqs := p.reqs[i := phase])
  }

  /** A hit, if there is a document of the expected shape. */
  function Hit(p: Process): Option<Shown> {
    if p.cache.None? then None
    else
      match Decode(p.cache.value.doc)
      case Some(found) =>
        Some(Shown(found.0, found.1, true, p.cache.value.version, p.cache.value.readAt, p.cache.value.writtenAt,
                   p.clock))
      case None => None
  }

  function Do(e: Etag, p: Process, l: Label): Process
    requires Enabled(p, l)
  {
    match l
    case Tick(seconds) =>
      var later := p.clock + seconds;
      if p.cache.Some? && later >= p.cache.value.writtenAt + SEATMAP_CACHE_TTL
      then p.(clock := later, cache := None, losses := p.losses + 1) else p.(clock := later)
    case Change(rows) => p.(past := p.past + [Content(rows, p.clock)])
    case Flush => if p.cache.Some? then p.(cache := None, losses := p.losses + 1) else p
    case Arrive => p.(reqs := p.reqs + [Arrived])
    case Look(i, ok) =>
      var hit := if ok then Hit(p) else None;
      To(p, i, if hit.Some? then Served(hit.value) else Queueing)
    case Enter(i) => To(p, i, Rechecking).(lock := Some(i))
    case LookAgain(i, ok) =>
      var hit := if ok then Hit(p) else None;
      if hit.Some? then To(p, i, Served(hit.value)).(lock := None)
      else To(p, i, Querying).(losses := p.losses + if p.cache.Some? then 1 else 0)
    case Query(i) =>
      To(p, i, Storing(p.past[|p.past| - 1].rows, |p.past| - 1, p.clock)).(dbReads := p.dbReads + 1)
    case Store(i, landed) =>
      var f := p.reqs[i];
      var shown := Shown(e(f.rows), ToSeats(f.rows), false, f.version, f.readAt, p.clock, p.clock);
      var q := To(p, i, Served(shown)).(lock := None);
      if landed then q.(cache := Some(Copy(Encode(e(f.rows), f.rows), f.version, f.readAt, p.clock)))
      else q.(losses := p.losses + 1)
    case Cancel(i) =>
      var q := To(p, i, Abandoned).(lock := if p.lock == Some(i) then None else p.lock);
      if p.reqs[i].Storing? then q.(losses := p.losses + 1) else q
  }

  function Step(e: Etag, p: Process, l: Label): Process {
    if Enabled(p, l) then Do(e, p, l) else p
  }

  function Exec(e: Etag, p: Process, ls: seq<Label>): Process
    decreases |ls|
  {
    if ls == [] then p else Exec(e, Step(e, p, ls[0]), ls[1..])
  }

  // ------------------------------------------------------------------ single flight

  /** Exactly the lock's holder is past the lock. */
  ghost predicate LockOk(p: Process) {
    && (p.lock.Some? ==> p.lock.value < |p.reqs| && HoldsLock(p.reqs[p.lock.value]))
    && forall i :: 0 <= i < |p.reqs| && HoldsLock(p.reqs[i]) ==> p.lock == Some(i)
  }

  /** Is another read of the database already paid for by a loss, or is it the first? */
  predicate MayRead(p: Process) {
    if p.lock.Some? && p.lock.value < |p.reqs| && p.reqs[p.lock.value].Storing? then false
    else p.cache.None? || (p.lock.Some? && p.lock.value < |p.reqs| && p.reqs[p.lock.value].Querying?)
  }

  ghost predicate ReadsOk(p: Process) {
    p.dbReads + (if MayRead(p) then 1 else 0) <= 1 + p.losses
  }

  /** The contents follow each other in time, up to now. */
  ghost predicate PastOk(p: Process) {
    && (forall i, j :: 0 <= i <= j < |p.past| ==> p.past[i].since <= p.past[j].since)
    && (forall i :: 0 <= i < |p.past| ==> p.past[i].since <= p.clock)
  }

  /** This content was what the query returned at the instant `t`. */
  ghost predicate Current(past: seq<Content>, version: nat, t: int) {
    && version < |past| && past[version].since <= t
    && (version + 1 < |past| ==> t <= past[version + 1].since)
  }

  /** A document in the cache is a true copy of what a read found, and still within its time. */
  ghost predicate CopyOk(e: Etag, p: Process) {
    p.cache.Some? ==>
      var c := p.cache.value;
      && Current(p.past, c.version, c.readAt)
      && c.doc == Encode(e(p.past[c.version].rows), p.past[c.version].rows)
      && c.readAt <= c.writtenAt <= p.clock < c.writtenAt + SEATMAP_CACHE_TTL
  }

  ghost predicate PhaseOk(e: Etag, p: Process, f: Phase) {
    match f
    case Storing(rows, version, readAt) =>
      Current(p.past, version, readAt) && rows == p.past[version].rows && readAt <= p.clock
    case Served(shown) => Truthful(e, p, shown)
    case _ => true
  }

  /** What a response may be: what the query returned when some request read it, fresh, or no older
      than the lifetime since that read was stored; and the same cells and tag either way. */
  ghost predicate Truthful(e: Etag, p: Process, s: Shown) {
    && Current(p.past, s.version, s.readAt)
    && s.cells == ToSeats(p.past[s.version].rows) && s.etag == e(p.past[s.version].rows)
    && s.readAt <= s.writtenAt <= s.at <= p.clock
    && (if s.fromCache then s.at < s.writtenAt + SEATMAP_CACHE_TTL else s.at == s.writtenAt)
  }

  ghost predicate PhasesOk(e: Etag, p: Process) {
    forall i :: 0 <= i < |p.reqs| ==> PhaseOk(e, p, p.reqs[i])
  }

  ghost predicate Inv(e: Etag, p: Process) {
    LockOk(p) && ReadsOk(p) && PastOk(p) && CopyOk(e, p) && PhasesOk(e, p)
  }

  /** A content that comes later takes effect no earlier than now. */
  ghost predicate Continues(p: Process, q: Process) {
    p.past <= q.past && p.clock <= q.clock && forall i :: |p.past| <= i < |q.past| ==> q.past[i].since >= p.clock
  }

  lemma PhaseStable(e: Etag, p: Process, q: Process, f: Phase)
    requires PhaseOk(e, p, f) && Continues(p, q)
    ensures PhaseOk(e, q, f)
  {}

  lemma HitIsTrue(e: Etag, p: Process)
    requires CopyOk(e, p) && Hit(p).Some?
    ensures Truthful(e, p, Hit(p).value)
  {
    var c := p.cache.value;
    PayloadRoundTrip(e(p.past[c.version].rows), p.past[c.version].rows);
  }

  lemma CopyIsReadable(e: Etag, p: Process)
    requires CopyOk(e, p) && p.cache.Some?
    ensures Hit(p).Some?
  {
    var c := p.cache.value;
    PayloadRoundTrip(e(p.past[c.version].rows), p.past[c.version].rows);
  }

  lemma StepKeepsLock(e: Etag, p: Process, l: Label)
    requires LockOk(p)
    ensures LockOk(Step(e, p, l))
  {}

  lemma StepKeepsReads(e: Etag, p: Process, l: Label)
    requires LockOk(p) && ReadsOk(p) && CopyOk(e, p)
    ensures ReadsOk(Step(e, p, l))
  {
    if p.cache.Some? { CopyIsReadable(e, p); }
  }

  lemma StepKeepsPast(e: Etag, p: Process, l: Label)
    requires PastOk(p)
    ensures PastOk(Step(e, p, l)) && Continues(p, Step(e, p, l))
  {}

  lemma StepKeepsCopy(e: Etag, p: Process, l: Label)
    requires PastOk(p) && CopyOk(e, p) && PhasesOk(e, p)
    ensures CopyOk(e, Step(e, p, l))
  {
    if l.Store? && Enabled(p, l) { assert PhaseOk(e, p, p.reqs[l.i]); }
  }

  /** The phase a request moves to. */
  lemma MovedPhase(e: Etag, p: Process, l: Label, i: nat)
    requires PastOk(p) && CopyOk(e, p) && PhasesOk(e, p) && Enabled(p, l)
    requires l.Look? || l.Enter? || l.LookAgain? || l.Query? || l.Store? || l.Cancel?
    requires i < |p.reqs| && Do(e, p, l).reqs[i] != p.reqs[i]
    ensures PhaseOk(e, Do(e, p, l), Do(e, p, l).reqs[i])
  {
    assert i == l.i && PhaseOk(e, p, p.reqs[i]);
    if Hit(p).Some? { HitIsTrue(e, p); }
  }

  lemma StepKeepsPhases(e: Etag, p: Process, l: Label)
    requires PastOk(p) && CopyOk(e, p) && PhasesOk(e, p)
    ensures PhasesOk(e, Step(e, p, l))
  {
    hide PastOk, CopyOk, PhaseOk, Continues;
    var q := Step(e, p, l);
    StepKeepsPast(e, p, l);
    forall i | 0 <= i < |q.reqs|
      ensures PhaseOk(e, q, q.reqs[i])
    {
      if i >= |p.reqs| { NewPhase(e, q); }
      else if q.reqs[i] != p.reqs[i] { MovedPhase(e, p, l, i); }
      else { PhaseStable(e, p, q, p.reqs[i]); }
    }
  }

  lemma NewPhase(e: Etag, p: Process)
    ensures PhaseOk(e, p, Arrived)
  {}

  lemma StepInv(e: Etag, p: Process, l: Label)
    requires Inv(e, p)
    ensures Inv(e, Step(e, p, l))
  {
    StepKeepsLock(e, p, l);
    StepKeepsReads(e, p, l);
    StepKeepsPast(e, p, l);
    StepKeepsCopy(e, p, l);
    StepKeepsPhases(e, p, l);
  }

  lemma {:induction false} ExecInv(e: Etag, p: Process, ls: seq<Label>)
    requires Inv(e, p)
    ensures Inv(e, Exec(e, p, ls))
    decreases |ls|
  {
    if ls != [] {
      StepInv(e, p, ls[0]);
      ExecInv(e, Step(e, p, ls[0]), ls[1..]);
    }
  }

  ghost predicate Start(p: Process) {
    && p.cache.None? && p.lock.None? && p.reqs == [] && p.dbReads == 0 && p.losses == 0
    && |p.past| == 1 && p.past[0].since == p.clock
  }

  /** However many requests crowd in: the database is read at most once more than the cache lost
      something, and every response is the seatmap as the query returned it when it was read, stored
      after that read and shown within the lifetime of the copy. */
  lemma OneFlightPerLoss(e: Etag, p: Process, ls: seq<Label>, i: nat)
    requires Start(p)
    ensures var q := Exec(e, p, ls);
            && q.dbReads <= 1 + q.losses
            && (i < |q.reqs| && q.reqs[i].Served? ==> Truthful(e, q, q.reqs[i].shown))
  {
    ExecInv(e, p, ls);
    var q := Exec(e, p, ls);
    if i < |q.reqs| { assert PhaseOk(e, q, q.reqs[i]); }
  }

  /** A request that finds a copy is served from it, at the first look without touching the lock, at the second look
      letting it go; neither reads the database. */
  lemma CopyServes(e: Etag, p: Process, ls: seq<Label>, i: nat)
    requires Start(p) && i < |Exec(e, p, ls).reqs| && Exec(e, p, ls).cache.Some?
    ensures var q := Exec(e, p, ls);
            && (q.reqs[i].Arrived? ==>
                  var v := Step(e, q, Look(i, true));
                  v.reqs[i].Served? && v.reqs[i].shown.fromCache && v.lock == q.lock && v.dbReads == q.dbReads)
            && (q.reqs[i].Rechecking? ==>
                  var v := Step(e, q, LookAgain(i, true));
                  v.reqs[i].Served? && v.reqs[i].shown.fromCache && v.lock.None? && v.dbReads == q.dbReads)
  {
    ExecInv(e, p, ls);
    CopyIsReadable(e, Exec(e, p, ls));
  }

  /** What can go wrong with the cache, label by label. */
  predicate IsFault(l: Label) {
    match l
    case Flush => true
    case Cancel(_) => true
    case LookAgain(_, ok) => !ok
    case Store(_, landed) => !landed
    case _ => false
  }

  function Faults(ls: seq<Label>): nat {
    if ls == [] then 0 else (if IsFault(ls[0]) then 1 else 0) + Faults(ls[1..])
  }

  /** Losses beyond the faults are copies that lived out their time, one after the other. */
  ghost predicate Explained(p: Process, faults: nat, expired: nat, start: int) {
    && p.losses <= faults + expired
    && start + expired * SEATMAP_CACHE_TTL <= (if p.cache.Some? then p.cache.value.writtenAt else p.clock)
  }

  lemma StepExplained(e: Etag, p: Process, l: Label, faults: nat, expired: nat, start: int)
    requires CopyOk(e, p) && Explained(p, faults, expired, start)
    ensures var q := Step(e, p, l);
            var more := faults + if IsFault(l) then 1 else 0;
            Explained(q, more, expired, start) || Explained(q, more, expired + 1, start)
  {
    assert (expired + 1) * SEATMAP_CACHE_TTL == expired * SEATMAP_CACHE_TTL + SEATMAP_CACHE_TTL;
    if p.cache.Some? { CopyIsReadable(e, p); }
  }

  lemma {:induction false} RunExplained(e: Etag, p: Process, ls: seq<Label>, faults: nat, expired: nat, start: int)
    returns (all: nat)
    requires Inv(e, p) && Explained(p, faults, expired, start)
    ensures Explained(Exec(e, p, ls), faults + Faults(ls), all, start)
    decreases |ls|
  {
    hide Inv, Explained, Step;
    if ls == [] {
      all := expired;
    } else {
      var q := Step(e, p, ls[0]);
      var f := faults + if IsFault(ls[0]) then 1 else 0;
      CopyOfInv(e, p);
      StepInv(e, p, ls[0]);
      StepExplained(e, p, ls[0], faults, expired, start);
      if Explained(q, f, expired, start) {
        all := RunExplained(e, q, ls[1..], f, expired, start);
      } else {
        all := RunExplained(e, q, ls[1..], f, expired + 1, start);
      }
    }
  }

  lemma CopyOfInv(e: Etag, p: Process)
    requires Inv(e, p)
    ensures CopyOk(e, p)
  {}

  /** Single flight, counted from outside: however many requests crowd in, the database is read at most once to
      begin with, once more for every fault (a flush, a cancelled request, a failed read under the lock, a
      failed write), and once more for every full lifetime of a copy that has passed. */
  lemma ReadsPerFaultAndLifetime(e: Etag, p: Process, ls: seq<Label>)
    requires Start(p)
    ensures var q := Exec(e, p, ls);
            q.dbReads <= 1 + Faults(ls) + (q.clock - p.clock) / SEATMAP_CACHE_TTL
  {
    assert Explained(p, 0, 0, p.clock);
    var expired := RunExplained(e, p, ls, 0, 0, p.clock);
    ExecInv(e, p, ls);
    var q := Exec(e, p, ls);
    assert expired * SEATMAP_CACHE_TTL <= q.clock - p.clock;
  }

  /** What a response shows, column by column: one cell for each row the query returned when it was read, in the
      same order, with that row's seat, zone, row, column, grade, price and status, fresh or cached. */
  lemma ResponsesShowTheRows(e: Etag, p: Process, ls: seq<Label>, i: nat)
    requires Start(p) && i < |Exec(e, p, ls).reqs| && Exec(e, p, ls).reqs[i].Served?
    ensures var q := Exec(e, p, ls);
            var s := q.reqs[i].shown;
            && s.version < |q.past| && q.past[s.version].since <= s.readAt
            && (s.version + 1 < |q.past| ==> s.readAt <= q.past[s.version + 1].since)
            && var rows := q.past[s.version].rows;
               && |s.cells| == |rows| && s.etag == e(rows)
               && forall j :: 0 <= j < |rows| ==>
                    && s.cells[j].seat == rows[j].seat && s.cells[j].zone == rows[j].zone
                    && s.cells[j].rowLabel == rows[j].rowLabel && s.cells[j].col == rows[j].col
                    && s.cells[j].grade == rows[j].grade && s.cells[j].price == rows[j].price
                    && s.cells[j].status == rows[j].status
  {
    OneFlightPerLoss(e, p, ls, i);
  }

  /** The status column as text. */
  function StatusText(st: SeatStatus): string {
    match st
    case Available => "AVAILABLE"
    case Held => "HELD"
    case Booked => "BOOKED"
  }

  /** The rows that the seatmap query returns on these tables: every seat of the schedule once, with its price and
      status; the seat's place in the hall comes from elsewhere. */
  ghost predicate Queried(db: Db, schedule: int, rows: seq<Row>) {
    && (forall j :: 0 <= j < |rows| ==>
          var k := SeatKey(schedule, rows[j].seat);
          k in db.seats && rows[j].price == db.seats[k].price && rows[j].status == StatusText(db.seats[k].status))
    && (forall i, j :: 0 <= i < j < |rows| ==> rows[i].seat != rows[j].seat)
    && (forall k :: k in db.seats && k.schedule == schedule ==> exists j :: 0 <= j < |rows| && rows[j].seat == k.seat)
  }

  /** Held against the tables: if the contents are what the query returns on the tables of their times, a response
      shows every seat of the schedule exactly once, with the price and status it had when it was read. */
  lemma ResponsesShowTheStock(e: Etag, p: Process, ls: seq<Label>, i: nat, tables: seq<Db>, schedule: int)
    requires Start(p) && i < |Exec(e, p, ls).reqs| && Exec(e, p, ls).reqs[i].Served?
    requires var q := Exec(e, p, ls);
             |tables| == |q.past| && forall v :: 0 <= v < |q.past| ==> Queried(tables[v], schedule, q.past[v].rows)
    ensures var q := Exec(e, p, ls);
            var s := q.reqs[i].shown;
            && s.version < |tables|
            && (forall k :: k in tables[s.version].seats && k.schedule == schedule ==>
                  exists j :: 0 <= j < |s.cells| && s.cells[j].seat == k.seat
                              && s.cells[j].price == tables[s.version].seats[k].price
                              && s.cells[j].status == StatusText(tables[s.version].seats[k].status))
            && (forall j :: 0 <= j < |s.cells| ==> SeatKey(schedule, s.cells[j].seat) in tables[s.version].seats)
            && (forall j, l :: 0 <= j < l < |s.cells| ==> s.cells[j].seat != s.cells[l].seat)
  {
    ResponsesShowTheRows(e, p, ls, i);
    var q := Exec(e, p, ls);
    var s := q.reqs[i].shown;
    var rows, db := q.past[s.version].rows, tables[s.version];
    assert Queried(db, schedule, rows);
    forall k | k in db.seats && k.schedule == schedule
      ensures exists j :: 0 <= j < |s.cells| && s.cells[j].seat == k.seat
                          && s.cells[j].price == db.seats[k].price
                          && s.cells[j].status == StatusText(db.seats[k].status)
    {
      var j :| 0 <= j < |rows| && rows[j].seat == k.seat;
      assert SeatKey(schedule, rows[j].seat) == k;
      assert s.cells[j].seat == k.seat;
    }
  }

  /** How stale a response can be. A response that shows rows superseded at the instant `t` was given
      less than the lifetime after `t`, plus the time its reader took from the query to the write; and
      the content it shows is not older than that: no change committed before the read is missing. */
  lemma StaleForALifetime(e: Etag, p: Process, ls: seq<Label>, i: nat, v: nat)
    requires Start(p) && i < |Exec(e, p, ls).reqs| && Exec(e, p, ls).reqs[i].Served?
    requires v < |Exec(e, p, ls).past|
    ensures var q := Exec(e, p, ls);
            var s := q.reqs[i].shown;
            var t := q.past[v].since;
            && (v > s.version ==>
                  && s.readAt <= t
                  && s.at - t <= (s.writtenAt - s.readAt) + (if s.fromCache then SEATMAP_CACHE_TTL - 1 else 0))
            && (t < s.readAt ==> v <= s.version)
  {
    OneFlightPerLoss(e, p, ls, i);
    ExecInv(e, p, ls);
    var q := Exec(e, p, ls);
    var s := q.reqs[i].shown;
    if v > s.version { assert q.past[s.version + 1].since <= q.past[v].since; }
  }

  lemma {:induction false} ExecAppend(e: Etag, p: Process, a: seq<Label>, b: seq<Label>)
    ensures Exec(e, p, a + b) == Exec(e, Exec(e, p, a), b)
    decreases |a|
  {
    if a == [] {
      assert a + b == b;
    } else {
      assert (a + b)[0] == a[0] && (a + b)[1..] == a[1..] + b;
      ExecAppend(e, Step(e, p, a[0]), a[1..], b);
    }
  }

  lemma ExecSnoc(e: Etag, p: Process, ls: seq<Label>, l: Label)
    ensures Exec(e, p, ls + [l]) == Step(e, Exec(e, p, ls), l)
  {
    ExecAppend(e, p, ls, [l]);
    assert [l][1..] == [];
    assert Exec(e, Exec(e, p, ls), [l]) == Exec(e, Step(e, Exec(e, p, ls), l), [l][1..]);
  }

  /** A miss up to its read of the rows. */
  const MISS: seq<Label> := [Arrive] + [Look(0, true)] + [Enter(0)] + [LookAgain(0, true)] + [Query(0)]

  lemma MissReads(e: Etag, p: Process)
    requires Start(p)
    ensures Exec(e, p, MISS)
            == p.(lock := Some(0), reqs := [Storing(p.past[0].rows, 0, p.clock)], dbReads := 1)
  {
    var a, b, c, d := [Arrive], [Look(0, true)], [Enter(0)], [LookAgain(0, true)];
    ExecSnoc(e, p, [], Arrive);
    assert [] + a == a;
    ExecSnoc(e, p, a, Look(0, true));
    ExecSnoc(e, p, a + b, Enter(0));
    ExecSnoc(e, p, a + b + c, LookAgain(0, true));
    ExecSnoc(e, p, a + b + c + d, Query(0));
  }

  /** The miss goes on: the rows change, `latency` passes, the copy is stored; then it is read at the
      end of its lifetime. */
  function StaleRun(rows: seq<Row>, latency: nat): seq<Label> {
    MISS + [Change(rows)] + [Tick(latency)] + [Store(0, true)] + [Tick(SEATMAP_CACHE_TTL - 1)] + [Arrive]
      + [Look(1, true)]
  }

  lemma CopyStored(e: Etag, p: Process, rows: seq<Row>, latency: nat)
    requires Start(p)
    ensures var q := Exec(e, p, MISS + [Change(rows)] + [Tick(latency)] + [Store(0, true)]);
            && q.past == p.past + [Content(rows, p.clock)] && q.clock == p.clock + latency && |q.reqs| == 1
            && q.cache == Some(Copy(Encode(e(p.past[0].rows), p.past[0].rows), 0, p.clock, q.clock))
  {
    MissReads(e, p);
    ExecSnoc(e, p, MISS, Change(rows));
    ExecSnoc(e, p, MISS + [Change(rows)], Tick(latency));
    ExecSnoc(e, p, MISS + [Change(rows)] + [Tick(latency)], Store(0, true));
  }

  /** The cap on staleness that the documentation gives, the lifetime, counts from the write and not
      from the read. From any start and for any time between the two there is a run that shows rows
      superseded that much earlier than the cap allows, so StaleForALifetime cannot be improved. */
  lemma StalerThanTheCap(e: Etag, p: Process, rows: seq<Row>, latency: nat)
    requires Start(p)
    ensures var q := Exec(e, p, StaleRun(rows, latency));
            && |q.reqs| == 2 && q.reqs[1].Served? && |q.past| == 2
            && var s := q.reqs[1].shown;
               && s.fromCache && s.version == 0 && s.writtenAt - s.readAt == latency
               && s.cells == ToSeats(p.past[0].rows)
               && s.at - q.past[1].since == SEATMAP_CACHE_TTL - 1 + latency
  {
    CopyStored(e, p, rows, latency);
    var ls := MISS + [Change(rows)] + [Tick(latency)] + [Store(0, true)];
    ExecSnoc(e, p, ls, Tick(SEATMAP_CACHE_TTL - 1));
    ExecSnoc(e, p, ls + [Tick(SEATMAP_CACHE_TTL - 1)], Arrive);
    ExecSnoc(e, p, ls + [Tick(SEATMAP_CACHE_TTL - 1)] + [Arrive], Look(1, true));
    PayloadRoundTrip(e(p.past[0].rows), p.past[0].rows);
  }

  /** A hit on a copy stored `latency` after its rows were read, when content `v` had superseded them. */
  predicate StaleHit(q: Process, i: nat, v: nat, latency: nat) {
    && i < |q.reqs| && q.reqs[i].Served? && q.reqs[i].shown.fromCache
    && q.reqs[i].shown.writtenAt - q.reqs[i].shown.readAt == latency
    && q.reqs[i].shown.version < v < |q.past|
  }

  /** How long ago the rows it shows were superseded. */
  function Lag(q: Process, i: nat, v: nat): int
    requires i < |q.reqs| && q.reqs[i].Served? && v < |q.past|
  {
    q.reqs[i].shown.at - q.past[v].since
  }

  /** A cap on that, over all runs and all hits, is met exactly when it leaves room for the latency: the lag
      is always less than the lifetime if and only if copies are stored the instant they are read,
      and never more than the lifetime if and only if that takes at most a second. */
  lemma CapIsLifetimeAndLatency(e: Etag, p: Process, latency: nat, cap: int)
    requires Start(p)
    ensures (forall ls, i: nat, v: nat :: StaleHit(Exec(e, p, ls), i, v, latency) ==> Lag(Exec(e, p, ls), i, v) <= cap)
            <==> SEATMAP_CACHE_TTL + latency <= cap + 1
  {
    if SEATMAP_CACHE_TTL + latency <= cap + 1 {
      forall ls, i: nat, v: nat | StaleHit(Exec(e, p, ls), i, v, latency)
        ensures Lag(Exec(e, p, ls), i, v) <= cap
      {
        StaleForALifetime(e, p, ls, i, v);
      }
    } else {
      StalerThanTheCap(e, p, [], latency);
      assert StaleHit(Exec(e, p, StaleRun([], latency)), 1, 1, latency);
    }
  }

  // ------------------------------------------------------------------ get, as a program

  /** What others do before this request goes on, and whether the cache answers it. */
  datatype Moment = Moment(others: seq<Label>, ok: bool)

  /** The next step of a request. */
  function Own(f: Phase, i: nat, ok: bool): Label {
    match f
    case Arrived => Look(i, ok)
    case Queueing => Enter(i)
    case Rechecking => LookAgain(i, ok)
    case Querying => Query(i)
    case Storing(_, _, _) => Store(i, ok)
    case Served(_) => Tick(0)
    case Abandoned => Tick(0)
  }

  /** A label that is not a step of request `i`. */
  predicate Apart(l: Label, i: nat) {
    match l
    case Look(j, _) => j != i
    case Enter(j) => j != i
    case LookAgain(j, _) => j != i
    case Query(j) => j != i
    case Store(j, _) => j != i
    case Cancel(j) => j != i
    case _ => true
  }

  predicate AllApart(ls: seq<Label>, i: nat) {
    forall k :: 0 <= k < |ls| ==> Apart(ls[k], i)
  }

  predicate PlanFor(plan: seq<Moment>, i: nat) {
    forall k :: 0 <= k < |plan| ==> AllApart(plan[k].others, i)
  }

  function Next(e: Etag, p: Process, i: nat, m: Moment): Process {
    var v := Exec(e, p, m.others);
    if i < |v.reqs| then Step(e, v, Own(v.reqs[i], i, m.ok)) else v
  }

  /** The machine following a plan until the request is served or the plan is over. */
  function Follow(e: Etag, p: Process, i: nat, plan: seq<Moment>): Process
    decreases |plan|
  {
    if plan == [] || i >= |p.reqs| || p.reqs[i].Served? then p else Follow(e, Next(e, p, i, plan[0]), i, plan[1..])
  }

  /** The run that following a plan amounts to. */
  function FollowLabels(e: Etag, p: Process, i: nat, plan: seq<Moment>): seq<Label>
    decreases |plan|
  {
    if plan == [] || i >= |p.reqs| || p.reqs[i].Served? then []
    else
      var v := Exec(e, p, plan[0].others);
      plan[0].others + (if i < |v.reqs| then [Own(v.reqs[i], i, plan[0].ok)] else [])
      + FollowLabels(e, Next(e, p, i, plan[0]), i, plan[1..])
  }

  /** So what OneFlightPerLoss says of runs it says of every use of `get`. */
  lemma {:induction false} FollowIsARun(e: Etag, p: Process, i: nat, plan: seq<Moment>)
    ensures Follow(e, p, i, plan) == Exec(e, p, FollowLabels(e, p, i, plan))
    decreases |plan|
  {
    if plan != [] && i < |p.reqs| && !p.reqs[i].Served? {
      var v := Exec(e, p, plan[0].others);
      var own := if i < |v.reqs| then [Own(v.reqs[i], i, plan[0].ok)] else [];
      var rest := FollowLabels(e, Next(e, p, i, plan[0]), i, plan[1..]);
      if own != [] { assert own[1..] == [] && Exec(e, v, own) == Exec(e, Step(e, v, own[0]), own[1..]); }
      FollowIsARun(e, Next(e, p, i, plan[0]), i, plan[1..]);
      ExecAppend(e, p, plan[0].others, own);
      ExecAppend(e, p, plan[0].others + own, rest);
    }
  }

  lemma {:induction false} ApartKeeps(e: Etag, p: Process, ls: seq<Label>, i: nat)
    requires i < |p.reqs| && AllApart(ls, i) && p.past != []
    ensures i < |Exec(e, p, ls).reqs| && Exec(e, p, ls).reqs[i] == p.reqs[i] && Exec(e, p, ls).past != []
    decreases |ls|
  {
    if ls != [] {
      assert Apart(ls[0], i);
      ApartKeeps(e, Step(e, p, ls[0]), ls[1..], i);
    }
  }

  class Seatmaps {
    var past: seq<Content>
    var clock: int
    var cache: Option<Copy>
    var lock: Option<nat>
    var reqs: seq<Phase>
    var dbReads: nat
    var losses: nat

    function P(): Process
      reads this
    {
      Process(past, clock, cache, lock, reqs, dbReads, losses)
    }

    constructor (rows: seq<Row>, now: int)
      ensures Start(P()) && past == [Content(rows, now)] && clock == now
    {
      past, clock, cache, lock, reqs, dbReads, losses := [Content(rows, now)], now, None, None, [], 0, 0;
    }

    method Await(e: Etag, i: nat, others: seq<Label>)
      requires i < |reqs| && AllApart(others, i) && past != []
      modifies this
      ensures P() == Exec(e, old(P()), others)
      ensures i < |reqs| && reqs[i] == old(reqs)[i] && past != []
    {
      ApartKeeps(e, P(), others, i);
      var v := Exec(e, P(), others);
      past, clock, cache, lock := v.past, v.clock, v.cache, v.lock;
      reqs, dbReads, losses := v.reqs, v.dbReads, v.losses;
    }

    /** _cache_read. */
    method CacheRead(ok: bool) returns (hit: Option<Shown>)
      ensures hit == if ok then Hit(P()) else None
    {
      if !ok || cache.None? {
        return None;
      }
      var c := cache.value;
      var found := Decode(c.doc);
      if found.None? {
        return None;
      }
      hit := Some(Shown(found.value.0, found.value.1, true, c.version, c.readAt, c.writtenAt, clock));
    }

    /** get: look, wait for the lock, look again, and only then ask the database. */
    method Get(e: Etag, plan: seq<Moment>) returns (i: nat, shown: Option<Shown>)
      requires past != [] && PlanFor(plan, |reqs|)
      modifies this
      ensures i == |old(reqs)| && P() == Follow(e, Step(e, old(P()), Arrive), i, plan)
      ensures i < |reqs| && (shown.Some? <==> reqs[i].Served?) && (shown.Some? ==> reqs[i] == Served(shown.value))
    {
      i, shown := |reqs|, None;
      reqs := reqs + [Arrived];
      if plan == [] {
        return;
      }
      Await(e, i, plan[0].others);
      var cached := CacheRead(plan[0].ok);
      if cached.Some? {
        reqs := reqs[i := Served(cached.value)];
        return i, cached;
      }
      reqs := reqs[i := Queueing];
      shown := WaitForLock(e, i, plan[1..]);
    }

    method WaitForLock(e: Etag, i: nat, plan: seq<Moment>) returns (shown: Option<Shown>)
      requires past != [] && PlanFor(plan, i) && i < |reqs| && reqs[i] == Queueing
      modifies this
      ensures P() == Follow(e, old(P()), i, plan)
      ensures i < |reqs| && (shown.Some? <==> reqs[i].Served?) && (shown.Some? ==> reqs[i] == Served(shown.value))
    {
      ghost var p0 := P();
      var k := 0;
      assert plan[0..] == plan;
      while k < |plan|
        invariant 0 <= k <= |plan| && past != [] && i < |reqs| && reqs[i] == Queueing
        invariant Follow(e, p0, i, plan) == Follow(e, P(), i, plan[k..])
      {
        assert plan[k..][1..] == plan[k + 1..];
        assert AllApart(plan[k].others, i);
        Await(e, i, plan[k].others);
        k := k + 1;
        if lock.None? {
          lock, reqs := Some(i), reqs[i := Rechecking];
          shown := UnderLock(e, i, plan[k..]);
          return;
        }
      }
      shown := None;
    }

    /** The body of `async with _lock_for(...)`. */
    method UnderLock(e: Etag, i: nat, plan: seq<Moment>) returns (shown: Option<Shown>)
      requires past != [] && PlanFor(plan, i) && i < |reqs| && reqs[i] == Rechecking
      modifies this
      ensures P() == Follow(e, old(P()), i, plan)
      ensures i < |reqs| && (shown.Some? <==> reqs[i].Served?) && (shown.Some? ==> reqs[i] == Served(shown.value))
    {
      if plan == [] {
        return None;
      }
      var cached := Recheck(e, i, plan[0]);
      if cached.Some? {
        return cached;
      }
      shown := ReadAndStore(e, i, plan[1..]);
    }

    /** The second look. */
    method Recheck(e: Etag, i: nat, m: Moment) returns (cached: Option<Shown>)
      requires past != [] && AllApart(m.others, i) && i < |reqs| && reqs[i] == Rechecking
      modifies this
      ensures P() == Next(e, old(P()), i, m)
      ensures past != [] && i < |reqs| && reqs[i] == if cached.Some? then Served(cached.value) else Querying
    {
      Await(e, i, m.others);
      cached := CacheRead(m.ok);
      if cached.Some? {
        lock, reqs := None, reqs[i := Served(cached.value)];
      } else {
        losses := losses + if cache.Some? then 1 else 0;
        reqs := reqs[i := Querying];
      }
    }

    method ReadAndStore(e: Etag, i: nat, plan: seq<Moment>) returns (shown: Option<Shown>)
      requires past != [] && PlanFor(plan, i) && i < |reqs| && reqs[i] == Querying
      modifies this
      ensures P() == Follow(e, old(P()), i, plan)
      ensures i < |reqs| && (shown.Some? <==> reqs[i].Served?) && (shown.Some? ==> reqs[i] == Served(shown.value))
    {
      if plan == [] {
        return None;
      }
      var version := ReadRows(e, i, plan[0]);
      shown := StoreAndShow(e, i, past[version].rows, version, clock, plan[1..]);
    }

    /** The read of the database. */
    method ReadRows(e: Etag, i: nat, m: Moment) returns (version: nat)
      requires past != [] && AllApart(m.others, i) && i < |reqs| && reqs[i] == Querying
      modifies this
      ensures P() == Next(e, old(P()), i, m)
      ensures version < |past| && i < |reqs| && reqs[i] == Storing(past[version].rows, version, clock)
    {
      Await(e, i, m.others);
      version := |past| - 1;
      dbReads, reqs := dbReads + 1, reqs[i := Storing(past[version].rows, version, clock)];
    }

    /** _cache_write, best effort: a write that lands while its reply is lost has landed. And the response. */
    method StoreAndShow(e: Etag, i: nat, rows: seq<Row>, version: nat, readAt: int, plan: seq<Moment>)
      returns (shown: Option<Shown>)
      requires past != [] && PlanFor(plan, i) && i < |reqs| && reqs[i] == Storing(rows, version, readAt)
      modifies this
      ensures P() == Follow(e, old(P()), i, plan)
      ensures i < |reqs| && (shown.Some? <==> reqs[i].Served?) && (shown.Some? ==> reqs[i] == Served(shown.value))
    {
      if plan == [] {
        return None;
      }
      Await(e, i, plan[0].others);
      if plan[0].ok {
        cache := Some(Copy(Encode(e(rows), rows), version, readAt, clock));
      } else {
        losses := losses + 1;
      }
      var response := Shown(e(rows), ToSeats(rows), false, version, readAt, clock, clock);
      lock, reqs := None, reqs[i := Served(response)];
      shown := Some(response);
    }
  }
}

/** Why a stepwise acquire is refused, and that it refuses no more than it must: a refusal rests on the
    quota at the snapshot or on a seat that could not be had, and a transaction that is not interfered
    with ends as the one-shot acquire on the same tables. */
module HoldRefusals {
  import opened Tables
  import opened Transactions
  import opened Invariants
  import opened HoldProtocol
  import opened HoldTheorems

  // ------------------------------------------------------------------ reasons

  /** With the seats asked for the user would own more than the limit. */
  predicate NoRoom(w: Hall, t: Tx) {
    |Owned(w.db, t.schedule, t.user, t.now)| + |t.ids| > t.max
  }

  /** This seat was asked for and does not exist or cannot be claimed. */
  predicate CannotHave(w: Hall, t: Tx, seat: int) {
    && seat in t.ids
    && (SeatKey(t.schedule, seat) !in w.db.seats || !Claimable(w.db.seats[SeatKey(t.schedule, seat)], t.now))
  }

  /** In this step transaction `i` meets something that stands in its way, or gives up. */
  ghost predicate Hindered(w: Hall, l: Label, i: nat) {
    i < |w.txs| &&
    match l
    case Snap(j) => j == i && (NoRoom(w, w.txs[i]) || exists seat :: CannotHave(w, w.txs[i], seat))
    case Row(j, seat) => j == i && CannotHave(w, w.txs[i], seat)
    case Rollback(j) => j == i
    case _ => false
  }

  function KeysOf(schedule: int, seats: set<int>): set<SeatKey> {
    set s | s in seats :: SeatKey(schedule, s)
  }

  /** Nothing has stood in its way so far. */
  ghost predicate OnCourse(t: Tx) {
    match t.phase
    case Locking(owned, todo, got) =>
      got + KeysOf(t.schedule, todo) == Wanted(t.schedule, t.ids) && owned + |t.ids| <= t.max
    case Refused => false
    case Finished(granted) => granted
    case _ => true
  }

  lemma SnapOnCourse(h: Hash, w: Hall, i: nat)
    requires Enabled(h, w, Snap(i)) && !Hindered(w, Snap(i), i)
    ensures OnCourse(Do(h, w, Snap(i)).txs[i])
  {
    var t := w.txs[i];
    var target := Target(w.db, t.schedule, t.ids, t.now);
    forall k | k in Wanted(t.schedule, t.ids)
      ensures k in target
    {
      assert !CannotHave(w, t, k.seat);
    }
    assert target == Wanted(t.schedule, t.ids);
    assert KeysOf(t.schedule, SeatsOf(target)) == target by {
      forall k | k in target
        ensures k in KeysOf(t.schedule, SeatsOf(target))
      {
        assert k.seat in SeatsOf(target) && k == SeatKey(t.schedule, k.seat);
      }
    }
    assert {} + target == target;
  }

  lemma RowOnCourse(h: Hash, w: Hall, i: nat, seat: int)
    requires Enabled(h, w, Row(i, seat)) && OnCourse(w.txs[i]) && !Hindered(w, Row(i, seat), i)
    ensures OnCourse(Do(h, w, Row(i, seat)).txs[i])
  {
    var t := w.txs[i];
    var k := SeatKey(t.schedule, seat);
    assert k in KeysOf(t.schedule, t.phase.todo);
    assert k in Wanted(t.schedule, t.ids) && seat in t.ids;
    assert KeysOf(t.schedule, t.phase.todo - {seat}) + {k} == KeysOf(t.schedule, t.phase.todo);
    var u := Do(h, w, Row(i, seat)).txs[i];
    assert u.phase.got + KeysOf(t.schedule, u.phase.todo) == t.phase.got + KeysOf(t.schedule, t.phase.todo);
  }

  lemma WriteOnCourse(h: Hash, w: Hall, i: nat)
    requires Enabled(h, w, Write(i)) && OnCourse(w.txs[i]) && WellAsked(w.txs[i].ids, w.txs[i].max)
    ensures Do(h, w, Write(i)).txs[i].phase.Written?
  {
    var t := w.txs[i];
    WantedSize(t.schedule, t.ids);
    assert KeysOf(t.schedule, t.phase.todo) == {};
    assert t.phase.got == Wanted(t.schedule, t.ids);
  }

  lemma StaysOnCourse(h: Hash, w: Hall, l: Label, i: nat)
    requires TxsOk(w) && i < |w.txs| && OnCourse(w.txs[i]) && !Hindered(w, l, i)
    ensures i < |Step(h, w, l).txs| && OnCourse(Step(h, w, l).txs[i])
  {
    if Enabled(h, w, l) {
      match l
      case Snap(j) => if j == i { SnapOnCourse(h, w, i); }
      case Row(j, seat) => if j == i { RowOnCourse(h, w, i, seat); }
      case Write(j) => if j == i { WriteOnCourse(h, w, i); }
      case _ =>
    }
  }

  lemma {:induction false} OffCourseForAReason(h: Hash, w: Hall, ls: seq<Label>, i: nat)
    requires HallInv(h, w) && (i < |w.txs| ==> OnCourse(w.txs[i]))
    requires i < |Exec(h, w, ls).txs| && !OnCourse(Exec(h, w, ls).txs[i])
    ensures exists n :: 0 <= n < |ls| && Hindered(Exec(h, w, ls[..n]), ls[n], i)
    decreases |ls|
  {
    hide HallInv, Hindered, OnCourse;
    if ls != [] {
      assert Exec(h, w, ls[..0]) == w;
      if !Hindered(w, ls[0], i) {
        var v := Step(h, w, ls[0]);
        StepInv(h, w, ls[0]);
        StepOnCourse(h, w, ls[0], i);
        OffCourseForAReason(h, v, ls[1..], i);
        var n :| 0 <= n < |ls[1..]| && Hindered(Exec(h, v, ls[1..][..n]), ls[1..][n], i);
        assert ls[..n + 1][0] == ls[0] && ls[..n + 1][1..] == ls[1..][..n];
        assert Exec(h, w, ls[..n + 1]) == Exec(h, v, ls[1..][..n]);
        assert Hindered(Exec(h, w, ls[..n + 1]), ls[n + 1], i);
      }
    }
  }

  lemma StepOnCourse(h: Hash, w: Hall, l: Label, i: nat)
    requires HallInv(h, w) && (i < |w.txs| ==> OnCourse(w.txs[i])) && !Hindered(w, l, i)
    ensures i < |Step(h, w, l).txs| ==> OnCourse(Step(h, w, l).txs[i])
  {
    if i < |w.txs| { StaysOnCourse(h, w, l, i); }
  }

  /** No refusal without a reason. In every run, from tables where nobody holds: a transaction that was refused, or
      ended without a grant, gave up, or found at its snapshot that the quota or some requested seat was
      not to be had, or found so when it locked that seat's row. */
  lemma RefusalHasAReason(h: Hash, w: Hall, ls: seq<Label>, i: nat)
    requires DbInv(w.db) && NobodyHolds(w) && i < |Exec(h, w, ls).txs|
    requires var p := Exec(h, w, ls).txs[i].phase; p == Refused || p == Finished(false)
    ensures exists n :: 0 <= n < |ls| &&
              var u := Exec(h, w, ls[..n]);
              i < |u.txs| &&
              var t := u.txs[i];
              || ls[n] == Rollback(i)
              || (ls[n] == Snap(i) && |Owned(u.db, t.schedule, t.user, t.now)| + |t.ids| > t.max)
              || (exists seat :: (ls[n] == Snap(i) || ls[n] == Row(i, seat)) && CannotHave(u, t, seat))
  {
    ReachableHall(h, w, []);
    OffCourseForAReason(h, w, ls, i);
    var n :| 0 <= n < |ls| && Hindered(Exec(h, w, ls[..n]), ls[n], i);
    var u := Exec(h, w, ls[..n]);
    match ls[n]
    case Snap(_) =>
      if !NoRoom(u, u.txs[i]) {
        var seat :| CannotHave(u, u.txs[i], seat);
        assert CannotHave(u, u.txs[i], seat);
      }
    case Row(_, seat) =>
      assert (ls[n] == Snap(i) || ls[n] == Row(i, seat)) && CannotHave(u, u.txs[i], seat);
    case Rollback(_) =>
  }

  // ------------------------------------------------------------------ undisturbed

  /** A step of this transaction, and no giving up. */
  predicate OwnForward(l: Label, i: nat) {
    match l
    case Lock(j) => j == i
    case Snap(j) => j == i
    case Row(j, _) => j == i
    case Write(j) => j == i
    case Finish(j) => j == i
    case _ => false
  }

  /** What a transaction has found on tables that did not change. */
  ghost predicate Undisturbed(db: Db, t: Tx) {
    var target := Target(db, t.schedule, t.ids, t.now);
    match t.phase
    case WaitLock => true
    case Snapshotting => true
    case Locking(owned, todo, got) =>
      owned == |Owned(db, t.schedule, t.user, t.now)| && got + KeysOf(t.schedule, todo) == target && got <= target
    case Written(rows) => rows == target && AcquireTx(db, t.schedule, t.user, t.ids, t.max, t.ttl, t.now).1.HoldGranted?
    case Refused => !AcquireTx(db, t.schedule, t.user, t.ids, t.max, t.ttl, t.now).1.HoldGranted?
    case Finished(_) => false
  }

  lemma OneShotGrants(db: Db, t: Tx)
    requires WellAsked(t.ids, t.max)
    ensures AcquireTx(db, t.schedule, t.user, t.ids, t.max, t.ttl, t.now).1.HoldGranted?
            <==> && |Target(db, t.schedule, t.ids, t.now)| == |t.ids|
                 && |Owned(db, t.schedule, t.user, t.now)| + |t.ids| <= t.max
  {}

  lemma SnapUndisturbed(h: Hash, w: Hall, i: nat)
    requires Enabled(h, w, Snap(i))
    ensures Undisturbed(w.db, Do(h, w, Snap(i)).txs[i])
  {
    hide AcquireTx, Owned, Claimable;
    var t := w.txs[i];
    var target := Target(w.db, t.schedule, t.ids, t.now);
    forall k | k in target
      ensures k in KeysOf(t.schedule, SeatsOf(target))
    {
      assert k.seat in SeatsOf(target) && k == SeatKey(t.schedule, k.seat);
    }
    assert KeysOf(t.schedule, SeatsOf(target)) == target;
    assert {} + target == target;
  }

  lemma RowUndisturbed(h: Hash, w: Hall, i: nat, seat: int)
    requires Enabled(h, w, Row(i, seat)) && Undisturbed(w.db, w.txs[i])
    ensures Undisturbed(w.db, Do(h, w, Row(i, seat)).txs[i])
  {
    hide AcquireTx, Owned;
    var t := w.txs[i];
    var k := SeatKey(t.schedule, seat);
    assert k in KeysOf(t.schedule, t.phase.todo);
    assert k in Target(w.db, t.schedule, t.ids, t.now);
    assert KeysOf(t.schedule, t.phase.todo - {seat}) + {k} == KeysOf(t.schedule, t.phase.todo);
    var u := Do(h, w, Row(i, seat)).txs[i];
    assert u.phase.got + KeysOf(t.schedule, u.phase.todo) == t.phase.got + KeysOf(t.schedule, t.phase.todo);
  }

  lemma WriteUndisturbed(h: Hash, w: Hall, i: nat)
    requires Enabled(h, w, Write(i)) && Undisturbed(w.db, w.txs[i]) && WellAsked(w.txs[i].ids, w.txs[i].max)
    ensures Undisturbed(w.db, Do(h, w, Write(i)).txs[i])
  {
    hide AcquireTx, Owned, Target;
    var t := w.txs[i];
    OneShotGrants(w.db, t);
    assert KeysOf(t.schedule, t.phase.todo) == {};
    assert t.phase.got == Target(w.db, t.schedule, t.ids, t.now);
  }

  lemma OwnStepUndisturbed(h: Hash, w: Hall, l: Label, i: nat)
    requires HallInv(h, w) && i < |w.txs| && Undisturbed(w.db, w.txs[i]) && OwnForward(l, i) && Enabled(h, w, l)
             && !l.Finish?
    ensures var v := Do(h, w, l);
            && v.db == w.db && i < |v.txs| && v.txs[i] == w.txs[i].(phase := v.txs[i].phase)
            && Undisturbed(v.db, v.txs[i])
  {
    hide AcquireTx, Owned, Target, DbInv, LocksOk, PhaseOk;
    match l
    case Lock(_) =>
    case Snap(_) => SnapUndisturbed(h, w, i);
    case Row(_, seat) => RowUndisturbed(h, w, i, seat);
    case Write(_) => WriteUndisturbed(h, w, i);
  }

  lemma FinishUndisturbed(h: Hash, w: Hall, i: nat)
    requires HallInv(h, w) && i < |w.txs| && Undisturbed(w.db, w.txs[i]) && Enabled(h, w, Finish(i))
    ensures var t := w.txs[i];
            var v := Do(h, w, Finish(i));
            var (d, out) := AcquireTx(w.db, t.schedule, t.user, t.ids, t.max, t.ttl, t.now);
            && i < |v.txs| && v.txs[i].phase == Finished(out.HoldGranted?) && v.db == d
  {
    if w.txs[i].phase.Written? { CommitIsAnAcquire(h, w, i); }
  }

  lemma {:induction false} FinishedStays(h: Hash, w: Hall, ls: seq<Label>, i: nat)
    requires i < |w.txs| && w.txs[i].phase.Finished? && forall k :: 0 <= k < |ls| ==> OwnForward(ls[k], i)
    ensures Exec(h, w, ls) == w
    decreases |ls|
  {
    if ls != [] {
      assert OwnForward(ls[0], i) && !Enabled(h, w, ls[0]);
      FinishedStays(h, w, ls[1..], i);
    }
  }

  /** Steps of one transaction while nobody else moves amount to the one-shot acquire: if it ends, it is granted
      exactly when the tables grant it, and leaves the tables that acquire leaves. */
  lemma {:induction false} AloneLikeOneShot(h: Hash, w: Hall, ls: seq<Label>, i: nat)
    requires HallInv(h, w) && i < |w.txs| && Undisturbed(w.db, w.txs[i])
    requires forall k :: 0 <= k < |ls| ==> OwnForward(ls[k], i)
    ensures var t := w.txs[i];
            var v := Exec(h, w, ls);
            var (d, out) := AcquireTx(w.db, t.schedule, t.user, t.ids, t.max, t.ttl, t.now);
            && i < |v.txs|
            && (v.txs[i].phase.Finished? ==> (v.txs[i].phase == Finished(true) <==> out.HoldGranted?) && v.db == d)
    decreases |ls|
  {
    hide HallInv, AcquireTx;
    if ls != [] {
      assert OwnForward(ls[0], i);
      if Enabled(h, w, ls[0]) {
        StepInv(h, w, ls[0]);
        if ls[0].Finish? {
          FinishUndisturbed(h, w, i);
          FinishedStays(h, Do(h, w, ls[0]), ls[1..], i);
        } else {
          OwnStepUndisturbed(h, w, ls[0], i);
          AloneLikeOneShot(h, Do(h, w, ls[0]), ls[1..], i);
        }
      } else {
        AloneLikeOneShot(h, w, ls[1..], i);
      }
    }
  }

  /** So a new acquire that runs alone ends as the one-shot acquire by its clock. */
  lemma AloneFromTheStart(h: Hash, w: Hall, schedule: int, user: int, ids: seq<int>, max: int, ttl: int, ls: seq<Label>)
    requires HallInv(h, w) && WellAsked(ids, max)
    requires forall k :: 0 <= k < |ls| ==> OwnForward(ls[k], |w.txs|)
    ensures var v := Exec(h, Step(h, w, Begin(schedule, user, ids, max, ttl)), ls);
            var (d, out) := AcquireTx(w.db, schedule, user, ids, max, ttl, w.clock);
            && |w.txs| < |v.txs|
            && (v.txs[|w.txs|].phase.Finished? ==>
                  (v.txs[|w.txs|].phase == Finished(true) <==> out.HoldGranted?) && v.db == d)
  {
    StepInv(h, w, Begin(schedule, user, ids, max, ttl));
    AloneLikeOneShot(h, Step(h, w, Begin(schedule, user, ids, max, ttl)), ls, |w.txs|);
  }
}

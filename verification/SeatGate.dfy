/** The Redis seat gate: the two Lua scripts (app/infra/redis/lua) over a key store, and the client
    around them (app/infra/redis/client.py). A key is the row it guards, an owner token is the user
    it is made from, times are milliseconds. A key whose deadline has passed is not there. */
module SeatGate {
  import opened Domain
  import opened Tables

  datatype Entry = Entry(owner: int, until: int)

  type Store = map<SeatKey, Entry>

  /** GET: the owner of a key that has not expired. */
  function Owner(store: Store, k: SeatKey, now: int): Option<int> {
    if k in store && now < store[k].until then Some(store[k].owner) else None
  }

  predicate HeldByOther(store: Store, k: SeatKey, token: int, now: int) {
    Owner(store, k, now).Some? && Owner(store, k, now) != Some(token)
  }

  // ------------------------------------------------------------------ what the scripts compute

  /** The 1-based place of the first key somebody else owns; 0 if there is none. */
  function Blocker(store: Store, keys: seq<SeatKey>, token: int, now: int): (b: nat)
    ensures b <= |keys|
    ensures b == 0 <==> forall j :: 0 <= j < |keys| ==> !HeldByOther(store, keys[j], token, now)
    ensures b > 0 ==> HeldByOther(store, keys[b - 1], token, now)
    ensures b > 0 ==> forall j :: 0 <= j < b - 1 ==> !HeldByOther(store, keys[j], token, now)
  {
    if keys == [] then 0
    else if HeldByOther(store, keys[0], token, now) then 1
    else
      var rest := Blocker(store, keys[1..], token, now);
      if rest == 0 then 0 else rest + 1
  }

  /** Every key taken or renewed. */
  function Taken(store: Store, ks: set<SeatKey>, token: int, until: int): Store {
    map k | k in store.Keys + ks :: if k in ks then Entry(token, until) else store[k]
  }

  /** The store without some keys. */
  function Without(store: Store, gone: set<SeatKey>): Store {
    map k | k in store && k !in gone :: store[k]
  }

  function KeySet(keys: seq<SeatKey>): set<SeatKey> {
    set k | k in keys
  }

  /** All, or none of them and those before the blocker are let go, even if they were held before. */
  function Gated(store: Store, keys: seq<SeatKey>, token: int, ttl: nat, now: int): Store {
    var b := Blocker(store, keys, token, now);
    if b == 0 then Taken(store, KeySet(keys), token, now + ttl) else Without(store, KeySet(keys[..b - 1]))
  }

  /** The store after others have set and deleted some keys. */
  function Edited(store: Store, edits: map<SeatKey, Option<Entry>>): Store {
    map k | k in store.Keys + edits.Keys && (k in edits ==> edits[k].Some?) ::
      if k in edits then edits[k].value else store[k]
  }

  /** The keys a release deletes. */
  function Mine(store: Store, keys: seq<SeatKey>, token: int, now: int): set<SeatKey> {
    set k | k in keys && Owner(store, k, now) == Some(token)
  }

  // ------------------------------------------------------------------ the scripts

  class RedisStore {
    var store: Store

    constructor ()
      ensures store == map[]
    {
      store := map[];
    }

    /** What other clients do before a request arrives. */
    method Interfere(edits: map<SeatKey, Option<Entry>>)
      modifies this
      ensures store == Edited(old(store), edits)
    {
      store := Edited(store, edits);
    }

    /** SET key token NX PX ttl. */
    method SetIfAbsent(k: SeatKey, token: int, ttl: nat, now: int) returns (set_: bool)
      modifies this
      ensures set_ == Owner(old(store), k, now).None?
      ensures store == if set_ then old(store)[k := Entry(token, now + ttl)] else old(store)
    {
      set_ := Owner(store, k, now).None?;
      if set_ {
        store := store[k := Entry(token, now + ttl)];
      }
    }

    /** PEXPIRE key ttl, on a key that is there. */
    method Renew(k: SeatKey, ttl: nat, now: int)
      requires Owner(store, k, now).Some?
      modifies this
      ensures store == old(store)[k := Entry(old(store)[k].owner, now + ttl)]
    {
      store := store[k := Entry(store[k].owner, now + ttl)];
    }

    /** DEL key. */
    method Delete(k: SeatKey)
      modifies this
      ensures store == Without(old(store), {k})
    {
      store := map j | j in store && j != k :: store[j];
    }

    /** One key of seat_gate.lua: set it if it is free, renew it if it is this token's already. */
    method TryKey(k: SeatKey, token: int, ttl: nat, now: int) returns (mine: bool)
      requires ttl > 0
      modifies this
      ensures mine == !HeldByOther(old(store), k, token, now)
      ensures store == if mine then old(store)[k := Entry(token, now + ttl)] else old(store)
    {
      mine := SetIfAbsent(k, token, ttl, now);
      if !mine && Owner(store, k, now) == Some(token) {
        Renew(k, ttl, now);
        mine := true;
      }
    }

    /** seat_gate.lua. */
    method AcquireScript(keys: seq<SeatKey>, token: int, ttl: nat, now: int) returns (blocked: nat)
      requires ttl > 0
      modifies this
      ensures blocked == Blocker(old(store), keys, token, now)
      ensures store == Gated(old(store), keys, token, ttl, now)
    {
      hide Blocker;
      ghost var s0 := store;
      var acquired: seq<SeatKey> := [];
      var i := 0;
      while i < |keys|
        invariant 0 <= i <= |keys| && acquired == keys[..i]
        invariant Passed(s0, keys, token, now, i)
        invariant store == Taken(s0, KeySet(keys[..i]), token, now + ttl)
      {
        OneKeyMore(s0, keys, token, ttl, now, i);
        var mine := TryKey(keys[i], token, ttl, now);
        if mine {
          acquired := acquired + [keys[i]];
        } else {
          BlockedHere(s0, keys, token, now, ttl, i);
          Undo(s0, acquired, token, now, now + ttl);
          return i + 1;
        }
        i := i + 1;
      }
      AllPassed(s0, keys, token, ttl, now);
      blocked := 0;
    }

    /** The rollback loop of seat_gate.lua: delete what this token holds among the keys just taken. */
    method Undo(ghost s0: Store, acquired: seq<SeatKey>, token: int, now: int, until: int)
      requires now < until && store == Taken(s0, KeySet(acquired), token, until)
      modifies this
      ensures store == Without(s0, KeySet(acquired))
    {
      var j := 0;
      while j < |acquired|
        invariant 0 <= j <= |acquired|
        invariant store == Without(Taken(s0, KeySet(acquired), token, until), KeySet(acquired[..j]))
      {
        assert KeySet(acquired[..j + 1]) == KeySet(acquired[..j]) + {acquired[j]};
        if Owner(store, acquired[j], now) == Some(token) {
          Delete(acquired[j]);
        }
        j := j + 1;
      }
      assert acquired[..|acquired|] == acquired;
    }

    /** seat_gate_release.lua. */
    method ReleaseScript(keys: seq<SeatKey>, token: int, now: int) returns (removed: nat)
      modifies this
      ensures store == Without(old(store), Mine(old(store), keys, token, now))
      ensures removed == |Mine(old(store), keys, token, now)|
    {
      ghost var s0 := store;
      removed := 0;
      var i := 0;
      while i < |keys|
        invariant 0 <= i <= |keys|
        invariant store == Without(s0, Mine(s0, keys[..i], token, now))
        invariant removed == |Mine(s0, keys[..i], token, now)|
      {
        MineGrows(s0, keys, token, now, i);
        if Owner(store, keys[i], now) == Some(token) {
          Delete(keys[i]);
          removed := removed + 1;
        }
        i := i + 1;
      }
      assert keys[..|keys|] == keys;
    }
  }

  /** The first `i` keys are free or this token's. */
  predicate Passed(s0: Store, keys: seq<SeatKey>, token: int, now: int, i: nat)
    requires i <= |keys|
  {
    forall j :: 0 <= j < i ==> !HeldByOther(s0, keys[j], token, now)
  }

  lemma AllPassed(s0: Store, keys: seq<SeatKey>, token: int, ttl: nat, now: int)
    requires Passed(s0, keys, token, now, |keys|)
    ensures Blocker(s0, keys, token, now) == 0
    ensures Gated(s0, keys, token, ttl, now) == Taken(s0, KeySet(keys[..|keys|]), token, now + ttl)
  {
    assert keys[..|keys|] == keys;
  }

  /** One more key looked at: still this token's, and deleted, or not and left. */
  lemma MineGrows(s0: Store, keys: seq<SeatKey>, token: int, now: int, i: nat)
    requires i < |keys|
    ensures var k, before, after := keys[i], Mine(s0, keys[..i], token, now), Mine(s0, keys[..i + 1], token, now);
            if Owner(Without(s0, before), k, now) == Some(token)
            then k !in before && after == before + {k} && Without(s0, after) == Without(s0, before) - {k}
            else after == before
  {
    assert keys[..i + 1] == keys[..i] + [keys[i]];
  }

  /** After the first `i` keys: the next one is blocked exactly when it was at the start. */
  lemma OneKeyMore(s0: Store, keys: seq<SeatKey>, token: int, ttl: nat, now: int, i: nat)
    requires i < |keys| && Passed(s0, keys, token, now, i)
    ensures var t := Taken(s0, KeySet(keys[..i]), token, now + ttl);
            && (HeldByOther(t, keys[i], token, now) <==> HeldByOther(s0, keys[i], token, now))
            && t[keys[i] := Entry(token, now + ttl)] == Taken(s0, KeySet(keys[..i + 1]), token, now + ttl)
    ensures !HeldByOther(s0, keys[i], token, now) ==> Passed(s0, keys, token, now, i + 1)
  {
    assert keys[..i + 1] == keys[..i] + [keys[i]];
    assert KeySet(keys[..i + 1]) == KeySet(keys[..i]) + {keys[i]};
    if keys[i] in keys[..i] {
      var j :| 0 <= j < i && keys[..i][j] == keys[i];
      assert keys[j] == keys[i];
    }
  }

  /** The first key the loop fails on is the blocker. */
  lemma BlockedHere(s0: Store, keys: seq<SeatKey>, token: int, now: int, ttl: nat, i: nat)
    requires i < |keys| && HeldByOther(s0, keys[i], token, now) && Passed(s0, keys, token, now, i)
    ensures Blocker(s0, keys, token, now) == i + 1
    ensures Gated(s0, keys, token, ttl, now) == Without(s0, KeySet(keys[..i]))
  {}

  // ------------------------------------------------------------------ what that means

  /** Result 0: every key is this token's until the new deadline. Result i: key i is the first that
      somebody else owns, the keys before it are free, and no key was added. Keys of other owners,
      and keys not named, are as they were either way. */
  lemma GateIsAllOrNothing(store: Store, keys: seq<SeatKey>, token: int, ttl: nat, now: int)
    requires ttl > 0
    ensures var b, after := Blocker(store, keys, token, now), Gated(store, keys, token, ttl, now);
            && (b == 0 ==> forall k :: k in keys ==> k in after && after[k] == Entry(token, now + ttl))
            && (b > 0 ==>
                  && HeldByOther(after, keys[b - 1], token, now)
                  && (forall j :: 0 <= j < b - 1 ==> Owner(after, keys[j], now).None?)
                  && (forall k :: k in after ==> k in store && after[k] == store[k]))
            && (forall k :: HeldByOther(store, k, token, now) || k !in keys ==>
                  (k in after <==> k in store) && (k in store ==> after[k] == store[k]))
  {
    var b := Blocker(store, keys, token, now);
    if b > 0 {
      forall j | 0 <= j < b - 1
        ensures keys[j] in KeySet(keys[..b - 1])
      {
        assert keys[..b - 1][j] == keys[j];
      }
      forall k | k in KeySet(keys[..b - 1])
        ensures k in keys && !HeldByOther(store, k, token, now)
      {
        var j :| 0 <= j < b - 1 && keys[..b - 1][j] == k;
        assert keys[j] == k;
      }
    }
  }

  /** Running the script again with the same token, while what blocked it is still there, gives the
      same answer and the same owners: a retry after a lost reply is safe. */
  lemma RetryIsSafe(store: Store, keys: seq<SeatKey>, token: int, ttl: nat, now: int, later: int)
    requires now <= later < now + ttl
    requires Blocker(store, keys, token, now) > 0 ==> later < store[keys[Blocker(store, keys, token, now) - 1]].until
    ensures var once := Gated(store, keys, token, ttl, now);
            var twice := Gated(once, keys, token, ttl, later);
            && Blocker(once, keys, token, later) == Blocker(store, keys, token, now)
            && (Blocker(store, keys, token, now) > 0 ==> twice == once)
            && (Blocker(store, keys, token, now) == 0 ==>
                  forall k :: k in keys ==>
                    Owner(once, k, later) == Some(token) && Owner(twice, k, later) == Some(token))
  {
    var b, once := Blocker(store, keys, token, now), Gated(store, keys, token, ttl, now);
    GateIsAllOrNothing(store, keys, token, ttl, now);
    var c := Blocker(once, keys, token, later);
    if b == 0 {
      assert forall j :: 0 <= j < |keys| ==> Owner(once, keys[j], later) == Some(token);
      GateIsAllOrNothing(once, keys, token, ttl, later);
    } else {
      assert HeldByOther(once, keys[b - 1], token, later);
      forall j | 0 <= j < b - 1
        ensures !HeldByOther(once, keys[j], token, later)
      {
        assert keys[..b - 1][j] == keys[j];
        assert keys[j] in KeySet(keys[..b - 1]);
      }
      assert c == b;
      assert Without(Without(store, KeySet(keys[..b - 1])), KeySet(keys[..b - 1])) == once;
    }
  }
}

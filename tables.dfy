/**
  The allocation table of one dimension, as the allocator's examples in
  spec/softbin_allocator_spec.rb fix it: a per-name cache, manual reservations,
  and per-value recency for reclaiming the least recently referenced value once
  the pool is exhausted.
*/
module Tables {
  import opened Wrappers
  import opened Pools

  /**
    `byName` maps every known name to its value; once the pool is exhausted,
    a reclaimed value is shared by its earlier holders and the new name.
    `manual` holds the values claimed by a caller-supplied override.
    `refs` maps every occupied value to the clock reading of its latest reference.
  */
  datatype Table = Table(byName: map<string, int>, manual: set<int>, refs: map<int, nat>)

  const Empty: Table := Table(map[], {}, map[])

  /**
    The table is consistent with a clock reading: the occupied values are exactly
    the assigned ones, a manual value is held by one name only, and every
    reference happened before `clock`.
  */
  predicate Valid(t: Table, clock: nat) {
    && t.refs.Keys == t.byName.Values
    && t.manual <= t.refs.Keys
    && (forall n, m | n in t.byName && m in t.byName && t.byName[n] in t.manual && t.byName[m] == t.byName[n] :: n == m)
    && (forall v | v in t.refs :: t.refs[v] < clock)
  }

  predicate Occupied(t: Table, v: int) {
    v in t.refs
  }

  /** An occupied value that automatic allocation may take over: not manually reserved. */
  predicate Reclaimable(t: Table, v: int) {
    v in t.refs && v !in t.manual
  }

  /** The first pool value, in pool order, that no name holds. */
  function FirstFree(pool: seq<int>, t: Table): (r: Option<int>)
    ensures r.Some? ==> r.value in pool && !Occupied(t, r.value)
  {
    if pool == [] then None
    else if !Occupied(t, pool[0]) then Some(pool[0])
    else FirstFree(pool[1..], t)
  }

  /** The reclaimable pool value with the oldest reference; the earliest in pool order wins a tie. */
  function Oldest(pool: seq<int>, t: Table): (r: Option<int>)
    ensures r.Some? ==> r.value in pool && Reclaimable(t, r.value)
  {
    if pool == [] then None else Older(t, pool[0], Oldest(pool[1..], t))
  }

  /** `v` when it is reclaimable and referenced no later than the best so far, else the best so far. */
  function Older(t: Table, v: int, best: Option<int>): Option<int>
    requires best.Some? ==> best.value in t.refs
  {
    if Reclaimable(t, v) && (best.None? || t.refs[v] <= t.refs[best.value]) then Some(v) else best
  }

  /** Forgets every name holding `v`. */
  function Evict(m: map<string, int>, v: int): map<string, int> {
    map n | n in m && m[n] != v :: m[n]
  }

  /**
    One request for `name` at clock reading `now`, with an optional
    caller-supplied value:
    - a known name gets its value back (an explicit value is ignored) and the
      value's recency is refreshed;
    - a new name with an explicit value gets exactly that value, reserved as
      manual; every other name holding it is forgotten;
    - a new name without one gets the first free pool value, or else the
      reclaimable pool value referenced longest ago, which its earlier holders
      keep sharing; when neither exists it gets no value and nothing changes.
  */
  function Ref(t: Table, pool: seq<int>, name: string, explicit: Option<int>, now: nat): (r: (Table, Option<int>))
    ensures name in t.byName ==> r.1 == Some(t.byName[name])
    ensures name !in t.byName && explicit.Some? ==> r.1 == explicit && explicit.value in r.0.manual
    ensures name !in t.byName && explicit.None? && r.1.Some? ==> r.1.value in pool
    ensures r.1.Some? ==> name in r.0.byName && r.0.byName[name] == r.1.value && r.0.refs == t.refs[r.1.value := now]
    ensures r.1.None? ==> r.0 == t
  {
    if name in t.byName then
      var v := t.byName[name];
      (t.(refs := t.refs[v := now]), Some(v))
    else if explicit.Some? then
      var v := explicit.value;
      (Table(Evict(t.byName, v)[name := v], t.manual + {v}, t.refs[v := now]), Some(v))
    else
      var free := FirstFree(pool, t);
      var pick := if free.Some? then free else Oldest(pool, t);
      if pick.Some? then
        (Table(t.byName[name := pick.value], t.manual, t.refs[pick.value := now]), pick)
      else
        (t, None)
  }

  /** Automatic requests for `names` in order, one clock tick each. */
  function RefAll(t: Table, pool: seq<int>, names: seq<string>, now: nat): (r: (Table, seq<Option<int>>))
    ensures |r.1| == |names|
    decreases |names|
  {
    if names == [] then (t, [])
    else
      var (t1, r) := Ref(t, pool, names[0], None, now);
      var (t2, rs) := RefAll(t1, pool, names[1..], now + 1);
      (t2, [r] + rs)
  }

  // ---------------------------------------------------------------------------
  // Scans, as loops: the allocator runs these per request.

  method FindFree(pool: seq<int>, t: Table) returns (r: Option<int>)
    ensures r == FirstFree(pool, t)
  {
    var i := 0;
    while i < |pool|
      invariant 0 <= i <= |pool|
      invariant FirstFree(pool, t) == FirstFree(pool[i..], t)
    {
      assert pool[i..][1..] == pool[i + 1..];
      if !Occupied(t, pool[i]) {
        return Some(pool[i]);
      }
      i := i + 1;
    }
    return None;
  }

  /** Scans the pool from its high end, so that an earlier value replaces a tie. */
  method FindOldest(pool: seq<int>, t: Table) returns (r: Option<int>)
    ensures r == Oldest(pool, t)
  {
    r := None;
    var i := |pool|;
    while i > 0
      invariant 0 <= i <= |pool|
      invariant r == Oldest(pool[i..], t)
    {
      i := i - 1;
      assert pool[i..][1..] == pool[i + 1..];
      var v := pool[i];
      if Reclaimable(t, v) && (r.None? || t.refs[v] <= t.refs[r.value]) {
        r := Some(v);
      }
    }
    assert pool[0..] == pool;
  }

  /** The allocator's per-request update of one table. */
  method Reference(t: Table, pool: seq<int>, name: string, explicit: Option<int>, now: nat)
    returns (t': Table, r: Option<int>)
    ensures (t', r) == Ref(t, pool, name, explicit, now)
  {
    if name in t.byName {
      var v := t.byName[name];
      t', r := t.(refs := t.refs[v := now]), Some(v);
    } else if explicit.Some? {
      var v := explicit.value;
      var kept := map n | n in t.byName && t.byName[n] != v :: t.byName[n];
      t', r := Table(kept[name := v], t.manual + {v}, t.refs[v := now]), Some(v);
    } else {
      r := FindFree(pool, t);
      if r.None? {
        r := FindOldest(pool, t);
      }
      if r.Some? {
        t' := Table(t.byName[name := r.value], t.manual, t.refs[r.value := now]);
      } else {
        t' := t;
      }
    }
  }

  // ---------------------------------------------------------------------------
  // What the scans find.

  /** The first free value is the lowest unoccupied pool value; none is found exactly when every pool value is occupied. */
  lemma {:induction false} FirstFreeIsLowest(pool: seq<int>, t: Table)
    ensures Increasing(pool) && FirstFree(pool, t).Some? ==> forall u | u in pool && !Occupied(t, u) :: FirstFree(pool, t).value <= u
    ensures FirstFree(pool, t).None? <==> forall u | u in pool :: Occupied(t, u)
  {
    if pool != [] {
      if Increasing(pool) {
        IncreasingTail(pool);
      }
      FirstFreeIsLowest(pool[1..], t);
      forall u | u in pool
        ensures u == pool[0] || u in pool[1..]
      {
        InHeadOrTail(pool, u);
      }
      forall u | Increasing(pool) && u in pool[1..]
        ensures pool[0] < u
      {
        var k :| 0 <= k < |pool[1..]| && pool[1..][k] == u;
        assert pool[k + 1] == u;
      }
    }
  }

  /** The oldest reclaimable value has the smallest recency among the reclaimable pool values, and the smallest value among those that tie. */
  lemma {:induction false} OldestIsLeastRecent(pool: seq<int>, t: Table)
    ensures Increasing(pool) && Oldest(pool, t).Some? ==>
      forall w | w in pool && Reclaimable(t, w) ::
        t.refs[Oldest(pool, t).value] < t.refs[w] ||
        (t.refs[Oldest(pool, t).value] == t.refs[w] && Oldest(pool, t).value <= w)
    ensures Oldest(pool, t).None? <==> forall w | w in pool :: !Reclaimable(t, w)
  {
    if pool != [] {
      if Increasing(pool) {
        IncreasingTail(pool);
      }
      OldestIsLeastRecent(pool[1..], t);
      forall u | u in pool
        ensures u == pool[0] || u in pool[1..]
      {
        InHeadOrTail(pool, u);
      }
      forall u | Increasing(pool) && u in pool[1..]
        ensures pool[0] < u
      {
        var k :| 0 <= k < |pool[1..]| && pool[1..][k] == u;
        assert pool[k + 1] == u;
      }
    }
  }

  /** Conversely, the lowest unoccupied value of an ascending pool is the one found. */
  lemma FirstFreeFinds(pool: seq<int>, t: Table, v: int)
    requires Increasing(pool) && v in pool && !Occupied(t, v)
    requires forall u | u in pool && u < v :: Occupied(t, u)
    ensures FirstFree(pool, t) == Some(v)
  {
    FirstFreeIsLowest(pool, t);
  }

  /** Conversely, the reclaimable value whose reference is strictly the oldest is the one found. */
  lemma OldestFinds(pool: seq<int>, t: Table, v: int)
    requires Increasing(pool) && v in pool && Reclaimable(t, v)
    requires forall u | u in pool && Reclaimable(t, u) && u != v :: t.refs[v] < t.refs[u]
    ensures Oldest(pool, t) == Some(v)
  {
    OldestIsLeastRecent(pool, t);
  }

  lemma IncreasingTail(pool: seq<int>)
    requires Increasing(pool) && pool != []
    ensures Increasing(pool[1..])
  {
    forall i, j | 0 <= i < j < |pool[1..]|
      ensures pool[1..][i] < pool[1..][j]
    {
      assert pool[1..][i] == pool[i + 1] && pool[1..][j] == pool[j + 1];
    }
  }

  lemma InHeadOrTail(pool: seq<int>, u: int)
    requires u in pool
    ensures u == pool[0] || u in pool[1..]
  {
    var k :| 0 <= k < |pool| && pool[k] == u;
    if k > 0 {
      assert pool[1..][k - 1] == u;
    }
  }

  // ---------------------------------------------------------------------------
  // What one request does.

  lemma ValuesAfterAdd(m: map<string, int>, k: string, v: int)
    requires k !in m
    ensures m[k := v].Values == m.Values + {v}
  {
    forall u | u in m.Values
      ensures u in m[k := v].Values
    {
      var n :| n in m && m[n] == u;
      assert m[k := v][n] == u;
    }
    forall u | u in m[k := v].Values
      ensures u in m.Values + {v}
    {
      var n :| n in m[k := v] && m[k := v][n] == u;
      if n != k {
        assert m[n] == u;
      }
    }
    assert m[k := v][k] == v;
  }

  lemma ValuesAfterEvict(m: map<string, int>, v: int)
    ensures Evict(m, v).Values == m.Values - {v}
  {
    forall u | u in m.Values && u != v
      ensures u in Evict(m, v).Values
    {
      var n :| n in m && m[n] == u;
      assert Evict(m, v)[n] == u;
    }
  }

  /** Every request keeps the table consistent and moves its clock on by one. */
  lemma RefPreservesValid(t: Table, pool: seq<int>, name: string, explicit: Option<int>, now: nat)
    requires Valid(t, now)
    ensures Valid(Ref(t, pool, name, explicit, now).0, now + 1)
  {
    var (t', r) := Ref(t, pool, name, explicit, now);
    if name in t.byName {
      assert t.byName[name] in t.byName.Values;
    } else if explicit.Some? {
      var v := explicit.value;
      ValuesAfterEvict(t.byName, v);
      ValuesAfterAdd(Evict(t.byName, v), name, v);
    } else if r.Some? {
      ValuesAfterAdd(t.byName, name, r.value);
    }
  }

  /** A known name gets its own value back, uses up no value, and its value becomes the most recently referenced. */
  lemma RefKnownName(t: Table, pool: seq<int>, name: string, explicit: Option<int>, now: nat)
    requires Valid(t, now) && name in t.byName
    ensures var (t', r) := Ref(t, pool, name, explicit, now);
      && r == Some(t.byName[name])
      && t'.byName == t.byName && t'.manual == t.manual && t'.refs == t.refs[r.value := now]
      && t'.refs.Keys == t.refs.Keys
      && forall w | w in t'.refs && w != r.value :: t'.refs[w] < t'.refs[r.value]
  {
    assert t.byName[name] in t.byName.Values;
  }

  /**
    A new name with an explicit value gets exactly that value, reserved as
    manual; every other holder of it is forgotten, every other name keeps its
    value, and only that value's recency changes.
  */
  lemma RefManual(t: Table, pool: seq<int>, name: string, v: int, now: nat)
    requires name !in t.byName
    ensures var (t', r) := Ref(t, pool, name, Some(v), now);
      && r == Some(v) && name in t'.byName && t'.byName[name] == v
      && t'.manual == t.manual + {v} && t'.refs == t.refs[v := now]
      && (forall n | n in t'.byName && n != name :: t'.byName[n] != v)
      && (forall n | n in t.byName && t.byName[n] != v :: n in t'.byName && t'.byName[n] == t.byName[n])
      && (forall n | n in t'.byName && n != name :: n in t.byName)
  {
  }

  /**
    While some pool value is free, a new name gets the lowest free one, and
    nothing else changes hands; only that value's recency changes.
  */
  lemma RefFresh(t: Table, pool: seq<int>, name: string, now: nat)
    requires Valid(t, now) && Increasing(pool) && name !in t.byName
    requires exists u :: u in pool && !Occupied(t, u)
    ensures var (t', r) := Ref(t, pool, name, None, now);
      && r.Some? && r.value in pool && !Occupied(t, r.value)
      && (forall u | u in pool && !Occupied(t, u) :: r.value <= u)
      && t'.byName == t.byName[name := r.value] && t'.manual == t.manual
      && t'.refs == t.refs[r.value := now]
  {
    FirstFreeIsLowest(pool, t);
  }

  /**
    Once every pool value is occupied, a new name gets the non-manual pool
    value referenced longest ago (the lowest such value on a tie), whose
    earlier holders keep it too, and only that value's recency changes; it
    gets no value only when every pool value is manual.
  */
  lemma RefReclaim(t: Table, pool: seq<int>, name: string, now: nat)
    requires Valid(t, now) && Increasing(pool) && name !in t.byName
    requires forall u | u in pool :: Occupied(t, u)
    ensures var (t', r) := Ref(t, pool, name, None, now);
      && (r.None? <==> forall u | u in pool :: u in t.manual)
      && (r.None? ==> t' == t)
      && (r.Some? ==>
            && r.value in pool && r.value !in t.manual
            && (forall w | w in pool && Reclaimable(t, w) ::
                  t.refs[r.value] < t.refs[w] || (t.refs[r.value] == t.refs[w] && r.value <= w))
            && t'.byName == t.byName[name := r.value] && t'.manual == t.manual
            && t'.refs == t.refs[r.value := now])
  {
    FirstFreeIsLowest(pool, t);
    OldestIsLeastRecent(pool, t);
  }

  /** Automatic allocation stays inside the pool and never hands out a manually reserved value. */
  lemma RefAutoInPool(t: Table, pool: seq<int>, name: string, now: nat)
    requires Valid(t, now) && name !in t.byName
    ensures var r := Ref(t, pool, name, None, now).1;
      r.Some? ==> r.value in pool && r.value !in t.manual
  {
  }

  /** A table whose values all come from the pool keeps it so under automatic requests. */
  lemma RefAutoStaysInPool(t: Table, pool: seq<int>, name: string, now: nat)
    requires Valid(t, now) && forall v | v in t.refs :: v in pool
    ensures var (t', r) := Ref(t, pool, name, None, now);
      (forall v | v in t'.refs :: v in pool) && (r.Some? ==> r.value in pool)
  {
    if name in t.byName {
      assert t.byName[name] in t.byName.Values;
    }
  }

  /**
    A request for one name leaves every other name's value alone, unless it is
    a manual claim on exactly that value.
  */
  lemma RefKeepsOthers(t: Table, pool: seq<int>, name: string, explicit: Option<int>, now: nat, other: string)
    requires other in t.byName && other != name
    requires explicit.None? || name in t.byName || explicit.value != t.byName[other]
    ensures var t' := Ref(t, pool, name, explicit, now).0;
      other in t'.byName && t'.byName[other] == t.byName[other]
  {
  }

  /** A name displaced by a manual claim, when requested again, does not get the claimed value back. */
  lemma EvictedNameMovesOn(t: Table, pool: seq<int>, holder: string, name: string, now: nat)
    requires Valid(t, now) && holder in t.byName && name != holder && name !in t.byName
    ensures var v := t.byName[holder];
      var (t1, _) := Ref(t, pool, name, Some(v), now);
      var (_, r) := Ref(t1, pool, holder, None, now + 1);
      holder !in t1.byName && r != Some(v)
  {
    var v := t.byName[holder];
    var (t1, _) := Ref(t, pool, name, Some(v), now);
    RefPreservesValid(t, pool, name, Some(v), now);
    assert v in t1.refs;
  }

  /** Two new names asked for in turn while free values remain get ascending values. */
  lemma FreshValuesAscend(t: Table, pool: seq<int>, a: string, b: string, now: nat)
    requires Valid(t, now) && Increasing(pool) && a != b && a !in t.byName && b !in t.byName
    ensures var (t1, r1) := Ref(t, pool, a, None, now);
      var (_, r2) := Ref(t1, pool, b, None, now + 1);
      FirstFree(pool, t1).Some? ==> r1.Some? && r2.Some? && r1.value < r2.value
  {
    var (t1, r1) := Ref(t, pool, a, None, now);
    if FirstFree(pool, t1).Some? {
      var w := FirstFree(pool, t1).value;
      RefPreservesValid(t, pool, a, None, now);
      FirstFreeIsLowest(pool, t);
      FirstFreeIsLowest(pool, t1);
      assert !Occupied(t, w);
      assert FirstFree(pool, t).Some?;
      assert r1 == FirstFree(pool, t);
    }
  }

  // ---------------------------------------------------------------------------
  // A pool of one value.

  /** Every name and every reference is on the one value `x`, and nothing is reserved. */
  predicate OnlyHolds(t: Table, x: int) {
    && t.manual == {}
    && (forall n | n in t.byName :: t.byName[n] == x)
    && (forall v | v in t.refs :: v == x)
  }

  /** With a single candidate, every automatic request gets it, shared by all who asked. */
  lemma SingleCandidate(t: Table, x: int, name: string, now: nat)
    requires OnlyHolds(t, x)
    ensures Ref(t, [x], name, None, now).1 == Some(x)
    ensures OnlyHolds(Ref(t, [x], name, None, now).0, x)
  {
    if name !in t.byName && x in t.refs {
      assert FirstFree([x], t) == None;
      assert Oldest([x], t) == Some(x);
    }
  }

  // ---------------------------------------------------------------------------
  // Replaying a run of automatic requests.

  predicate AllManual(t: Table, pool: seq<int>) {
    forall u | u in pool :: u in t.manual
  }

  /**
    Each name of `names` is settled in `t`: it holds the value recorded for it
    in `rs`, or, when it got none, it is unknown and every pool value is manual.
  */
  ghost predicate Settled(t: Table, pool: seq<int>, names: seq<string>, rs: seq<Option<int>>) {
    && |rs| == |names|
    && forall i | 0 <= i < |names| ::
         if rs[i].Some? then names[i] in t.byName && t.byName[names[i]] == rs[i].value
         else names[i] !in t.byName && AllManual(t, pool)
  }

  /**
    Automatic requests never reserve a value, never take a value from a known
    name, and change no name at all while every pool value is manual.
  */
  lemma {:induction false} RefAllKeeps(t: Table, pool: seq<int>, names: seq<string>, now: nat)
    requires Valid(t, now)
    ensures var t' := RefAll(t, pool, names, now).0;
      && Valid(t', now + |names|)
      && t'.manual == t.manual
      && (forall m | m in t.byName :: m in t'.byName && t'.byName[m] == t.byName[m])
      && (AllManual(t, pool) ==> t'.byName == t.byName)
    decreases |names|
  {
    if names != [] {
      var (t1, r) := Ref(t, pool, names[0], None, now);
      RefPreservesValid(t, pool, names[0], None, now);
      if AllManual(t, pool) && names[0] !in t.byName {
        FirstFreeIsLowest(pool, t);
        OldestIsLeastRecent(pool, t);
        assert t1 == t;
      }
      RefAllKeeps(t1, pool, names[1..], now + 1);
    }
  }

  /** A run of automatic requests leaves every name it asked for settled. */
  lemma {:induction false} RunSettles(t: Table, pool: seq<int>, names: seq<string>, now: nat)
    requires Valid(t, now)
    ensures var (t', rs) := RefAll(t, pool, names, now); Settled(t', pool, names, rs)
    decreases |names|
  {
    if names != [] {
      var (t1, r) := Ref(t, pool, names[0], None, now);
      var (t2, rs) := RefAll(t1, pool, names[1..], now + 1);
      RefPreservesValid(t, pool, names[0], None, now);
      RunSettles(t1, pool, names[1..], now + 1);
      RefAllKeeps(t1, pool, names[1..], now + 1);
      if r.None? {
        FirstFreeIsLowest(pool, t);
        OldestIsLeastRecent(pool, t);
        assert AllManual(t1, pool);
      }
      assert RefAll(t, pool, names, now) == (t2, [r] + rs);
      forall i | 0 <= i < |names|
        ensures var x := ([r] + rs)[i];
          if x.Some? then names[i] in t2.byName && t2.byName[names[i]] == x.value
          else names[i] !in t2.byName && AllManual(t2, pool)
      {
        if i > 0 {
          assert names[i] == names[1..][i - 1];
        }
      }
    }
  }

  /** Requests for settled names give back exactly what they recorded. */
  lemma {:induction false} ReplaySettled(t: Table, pool: seq<int>, names: seq<string>, rs: seq<Option<int>>, now: nat)
    requires Valid(t, now) && Settled(t, pool, names, rs)
    ensures RefAll(t, pool, names, now).1 == rs
    decreases |names|
  {
    if names != [] {
      var (t1, r) := Ref(t, pool, names[0], None, now);
      RefPreservesValid(t, pool, names[0], None, now);
      if rs[0].None? {
        FirstFreeIsLowest(pool, t);
        OldestIsLeastRecent(pool, t);
        assert t1 == t;
      }
      assert r == rs[0];
      forall i | 0 <= i < |names[1..]|
        ensures if rs[1..][i].Some? then names[1..][i] in t1.byName && t1.byName[names[1..][i]] == rs[1..][i].value
                else names[1..][i] !in t1.byName && AllManual(t1, pool)
      {
        assert names[1..][i] == names[i + 1] && rs[1..][i] == rs[i + 1];
      }
      ReplaySettled(t1, pool, names[1..], rs[1..], now + 1);
      assert rs == [rs[0]] + rs[1..];
    }
  }

  lemma ValidLater(t: Table, now: nat, later: nat)
    requires Valid(t, now) && now <= later
    ensures Valid(t, later)
  {
  }

  /**
    Replaying a run of automatic requests from the table it produced (for
    instance after saving and resuming) gives every request the value it got
    the first time.
  */
  lemma ReplayGivesSameValues(t: Table, pool: seq<int>, names: seq<string>, now: nat, later: nat)
    requires Valid(t, now) && now + |names| <= later
    ensures var (t', rs) := RefAll(t, pool, names, now); RefAll(t', pool, names, later).1 == rs
  {
    var (t', rs) := RefAll(t, pool, names, now);
    RefAllKeeps(t, pool, names, now);
    RunSettles(t, pool, names, now);
    ValidLater(t', now + |names|, later);
    ReplaySettled(t', pool, names, rs, later);
  }

  // ---------------------------------------------------------------------------
  // Filling a fresh table, and reuse once it is full.

  predicate Distinct(names: seq<string>) {
    forall i, j | 0 <= i < j < |names| :: names[i] != names[j]
  }

  /** The table after `names[..k]`, all new, took the first `k` pool values, one clock tick each from `now`. */
  function Filled(pool: seq<int>, names: seq<string>, k: nat, now: nat): Table
    requires k <= |names| && k <= |pool|
    decreases k
  {
    if k == 0 then Empty
    else
      var t := Filled(pool, names, k - 1, now);
      Table(t.byName[names[k - 1] := pool[k - 1]], {}, t.refs[pool[k - 1] := now + k - 1])
  }

  /** `Filled` knows no name but the first `k`, holds no value but the first `k` of the pool, and reserves none. */
  lemma {:induction false} FilledKeys(pool: seq<int>, names: seq<string>, k: nat, now: nat)
    requires k <= |names| && k <= |pool|
    ensures var t := Filled(pool, names, k, now);
      && t.manual == {}
      && (forall n | n in t.byName :: n in names[..k])
      && (forall v | v in t.refs :: v in pool[..k])
    decreases k
  {
    if k > 0 {
      FilledKeys(pool, names, k - 1, now);
      assert names[..k] == names[..k - 1] + [names[k - 1]];
      assert pool[..k] == pool[..k - 1] + [pool[k - 1]];
    }
  }

  /** In `Filled`, each name holds its pool value, and each value the clock reading it was taken at. */
  lemma {:induction false} FilledAt(pool: seq<int>, names: seq<string>, k: nat, now: nat)
    requires Increasing(pool) && Distinct(names) && k <= |names| && k <= |pool|
    ensures var t := Filled(pool, names, k, now);
      forall i | 0 <= i < k :: names[i] in t.byName && t.byName[names[i]] == pool[i] && pool[i] in t.refs && t.refs[pool[i]] == now + i
    decreases k
  {
    if k > 0 {
      FilledAt(pool, names, k - 1, now);
      forall i | 0 <= i < k - 1
        ensures names[i] != names[k - 1] && pool[i] != pool[k - 1]
      {
      }
    }
  }

  /** A new name in a table holding exactly the first `k` pool values takes value `k`. */
  lemma NewNameTakesNext(t: Table, pool: seq<int>, name: string, k: nat, now: nat)
    requires Increasing(pool) && k < |pool| && name !in t.byName
    requires forall v | v in t.refs :: v in pool[..k]
    requires forall j | 0 <= j < k :: pool[j] in t.refs
    ensures Ref(t, pool, name, None, now).0 == Table(t.byName[name := pool[k]], t.manual, t.refs[pool[k] := now])
    ensures Ref(t, pool, name, None, now).1 == Some(pool[k])
  {
    assert pool[k] !in pool[..k];
    forall u | u in pool && u < pool[k]
      ensures Occupied(t, u)
    {
      var j :| 0 <= j < |pool| && pool[j] == u;
      assert j < k;
    }
    FirstFreeFinds(pool, t, pool[k]);
  }

  lemma FillStep(pool: seq<int>, names: seq<string>, k: nat, now: nat)
    requires Increasing(pool) && Distinct(names) && k < |names| && k < |pool|
    ensures Ref(Filled(pool, names, k, now), pool, names[k], None, now + k).0 == Filled(pool, names, k + 1, now)
    ensures Ref(Filled(pool, names, k, now), pool, names[k], None, now + k).1 == Some(pool[k])
  {
    FilledKeys(pool, names, k, now);
    FilledAt(pool, names, k, now);
    assert names[k] !in names[..k];
    NewNameTakesNext(Filled(pool, names, k, now), pool, names[k], k, now + k);
  }

  /** Requests whose every step is known: the run ends in the last table and gives the known values. */
  lemma {:induction false} RefAllFollows(ts: seq<Table>, pool: seq<int>, names: seq<string>, rs: seq<Option<int>>, now: nat)
    requires |ts| == |names| + 1 && |rs| == |names|
    requires forall i | 0 <= i < |names| ::
      Ref(ts[i], pool, names[i], None, now + i).0 == ts[i + 1] && Ref(ts[i], pool, names[i], None, now + i).1 == rs[i]
    ensures RefAll(ts[0], pool, names, now).0 == ts[|names|]
    ensures RefAll(ts[0], pool, names, now).1 == rs
    decreases |names|
  {
    if names != [] {
      forall i | 0 <= i < |names[1..]|
        ensures Ref(ts[1..][i], pool, names[1..][i], None, now + 1 + i).0 == ts[1..][i + 1]
        ensures Ref(ts[1..][i], pool, names[1..][i], None, now + 1 + i).1 == rs[1..][i]
      {
        assert Ref(ts[i + 1], pool, names[i + 1], None, now + (i + 1)).0 == ts[i + 2];
      }
      RefAllFollows(ts[1..], pool, names[1..], rs[1..], now + 1);
      assert rs == [rs[0]] + rs[1..];
    }
  }

  /**
    On a fresh table, distinct new names get the pool values in ascending
    order, one each, for as long as the pool lasts.
  */
  lemma FillInOrder(pool: seq<int>, names: seq<string>, now: nat)
    requires Increasing(pool) && Distinct(names) && |names| <= |pool|
    ensures RefAll(Empty, pool, names, now).0 == Filled(pool, names, |names|, now)
    ensures var rs := RefAll(Empty, pool, names, now).1;
      |rs| == |names| && forall i | 0 <= i < |names| :: rs[i] == Some(pool[i])
  {
    var ts := seq(|names| + 1, i requires 0 <= i <= |names| => Filled(pool, names, i, now));
    var rs := seq(|names|, i requires 0 <= i < |names| => Some(pool[i]));
    forall i | 0 <= i < |names|
      ensures Ref(ts[i], pool, names[i], None, now + i).0 == ts[i + 1] && Ref(ts[i], pool, names[i], None, now + i).1 == rs[i]
    {
      FillStep(pool, names, i, now);
    }
    RefAllFollows(ts, pool, names, rs, now);
  }

  lemma RefAllCons(t: Table, pool: seq<int>, names: seq<string>, now: nat, t1: Table, r: Option<int>)
    requires names != [] && Ref(t, pool, names[0], None, now).0 == t1 && Ref(t, pool, names[0], None, now).1 == r
    ensures RefAll(t, pool, names, now).0 == RefAll(t1, pool, names[1..], now + 1).0
    ensures RefAll(t, pool, names, now).1 == [r] + RefAll(t1, pool, names[1..], now + 1).1
  {
  }

  /** Requests for `first + rest` are the requests for `first`, then those for `rest` from where they left off. */
  lemma {:induction false} RefAllAppend(t: Table, pool: seq<int>, first: seq<string>, rest: seq<string>, now: nat)
    ensures var (t1, rs1) := RefAll(t, pool, first, now);
      && RefAll(t, pool, first + rest, now).0 == RefAll(t1, pool, rest, now + |first|).0
      && RefAll(t, pool, first + rest, now).1 == rs1 + RefAll(t1, pool, rest, now + |first|).1
    decreases |first|
  {
    if first == [] {
      assert first + rest == rest;
    } else {
      var (t1, r) := Ref(t, pool, first[0], None, now);
      assert (first + rest)[0] == first[0] && (first + rest)[1..] == first[1..] + rest;
      RefAllAppend(t1, pool, first[1..], rest, now + 1);
      var a := RefAll(t1, pool, first[1..], now + 1).1;
      var b := RefAll(RefAll(t1, pool, first[1..], now + 1).0, pool, rest, now + |first|).1;
      assert [r] + (a + b) == ([r] + a) + b;
    }
  }

  /**
    A full table in which each of `names` holds its pool value, and the holders
    of the first `m` values were referenced again, in order, from clock reading
    `later` on; the other values keep the readings `now + i` they were taken at.
  */
  ghost predicate Refreshed(t: Table, pool: seq<int>, names: seq<string>, m: nat, now: nat, later: nat)
    requires |names| == |pool|
  {
    && t.manual == {}
    && (forall n | n in t.byName :: n in names)
    && (forall i | 0 <= i < |names| :: names[i] in t.byName && t.byName[names[i]] == pool[i])
    && (forall i | 0 <= i < |pool| :: pool[i] in t.refs && t.refs[pool[i]] == if i < m then later + i else now + i)
  }

  lemma RefreshedStart(pool: seq<int>, names: seq<string>, now: nat, later: nat)
    requires Increasing(pool) && Distinct(names) && |names| == |pool|
    ensures Refreshed(Filled(pool, names, |names|, now), pool, names, 0, now, later)
  {
    FilledKeys(pool, names, |names|, now);
    FilledAt(pool, names, |names|, now);
    assert names[..|names|] == names;
  }

  /** `t` after the holders of the first `j` pool values were referenced again, in order, from `later` on. */
  function Bumped(t: Table, pool: seq<int>, j: nat, later: nat): Table
    requires j <= |pool|
  {
    if j == 0 then t
    else
      var b := Bumped(t, pool, j - 1, later);
      b.(refs := b.refs[pool[j - 1] := later + j - 1])
  }

  lemma {:induction false} BumpedRefreshed(t: Table, pool: seq<int>, names: seq<string>, j: nat, now: nat, later: nat)
    requires Increasing(pool) && |names| == |pool| && j <= |pool|
    requires Refreshed(t, pool, names, 0, now, later)
    ensures Refreshed(Bumped(t, pool, j, later), pool, names, j, now, later)
  {
    if j > 0 {
      BumpedRefreshed(t, pool, names, j - 1, now, later);
    }
  }

  /** Referencing the holder of value `j` again takes the table from `Bumped` up to `j` to `Bumped` up to `j + 1`. */
  lemma BumpStep(t: Table, pool: seq<int>, names: seq<string>, j: nat, now: nat, later: nat)
    requires Increasing(pool) && |names| == |pool| && j < |pool|
    requires Refreshed(t, pool, names, 0, now, later)
    ensures Ref(Bumped(t, pool, j, later), pool, names[j], None, later + j).0 == Bumped(t, pool, j + 1, later)
    ensures Ref(Bumped(t, pool, j, later), pool, names[j], None, later + j).1 == Some(pool[j])
  {
    BumpedRefreshed(t, pool, names, j, now, later);
  }

  /** Each re-reference of the holder of value `k`, for `j <= k < m`, takes `Bumped` up to `k` to `Bumped` up to `k + 1`. */
  ghost predicate BumpsFrom(t: Table, pool: seq<int>, names: seq<string>, j: nat, m: nat, later: nat)
    requires j <= m <= |pool| && m <= |names|
  {
    forall k {:trigger names[k]} | j <= k < m ::
      Ref(Bumped(t, pool, k, later), pool, names[k], None, later + k) == (Bumped(t, pool, k + 1, later), Some(pool[k]))
  }

  /** Given each step, the holders of values `j` to `m` referenced again in order give their values back. */
  lemma {:induction false} RefreshFrom(t: Table, pool: seq<int>, names: seq<string>, j: nat, m: nat, later: nat)
    requires j <= m <= |pool| && m <= |names|
    requires BumpsFrom(t, pool, names, j, m, later)
    ensures RefAll(Bumped(t, pool, j, later), pool, names[j..m], later + j).0 == Bumped(t, pool, m, later)
    ensures var rs := RefAll(Bumped(t, pool, j, later), pool, names[j..m], later + j).1;
      forall i | 0 <= i < m - j :: rs[i] == Some(pool[j + i])
    decreases m - j
  {
    if j < m {
      var b, b1 := Bumped(t, pool, j, later), Bumped(t, pool, j + 1, later);
      assert Ref(b, pool, names[j], None, later + j) == (b1, Some(pool[j]));
      assert BumpsFrom(t, pool, names, j + 1, m, later);
      RefreshFrom(t, pool, names, j + 1, m, later);
      assert names[j..m][0] == names[j] && names[j..m][1..] == names[j + 1..m];
      RefAllCons(b, pool, names[j..m], later + j, b1, Some(pool[j]));
      var rest := RefAll(b1, pool, names[j + 1..m], later + (j + 1)).1;
      forall i | 0 <= i < m - j
        ensures ([Some(pool[j])] + rest)[i] == Some(pool[j + i])
      {
        if i > 0 {
          assert rest[i - 1] == Some(pool[j + 1 + (i - 1)]);
        }
      }
    }
  }

  /** Referencing the holders of the first `m` values again gives them their values back, and refreshes them. */
  lemma RefreshRun(t: Table, pool: seq<int>, names: seq<string>, m: nat, now: nat, later: nat)
    requires Increasing(pool) && |names| == |pool| && m <= |pool|
    requires Refreshed(t, pool, names, 0, now, later)
    ensures RefAll(t, pool, names[..m], later).0 == Bumped(t, pool, m, later)
    ensures var rs := RefAll(t, pool, names[..m], later).1;
      |rs| == m && forall i | 0 <= i < m :: rs[i] == Some(pool[i])
  {
    forall k | 0 <= k < m
      ensures Ref(Bumped(t, pool, k, later), pool, names[k], None, later + k) == (Bumped(t, pool, k + 1, later), Some(pool[k]))
    {
      BumpStep(t, pool, names, k, now, later);
    }
    assert Bumped(t, pool, 0, later) == t;
    assert names[0..m] == names[..m];
    RefreshFrom(t, pool, names, 0, m, later);
  }

  /** In a full table refreshed up to value `m`, a new name takes value `m`, the one referenced longest ago. */
  lemma NewcomerTakesOldest(pool: seq<int>, names: seq<string>, t: Table, m: nat, now: nat, later: nat, newcomer: string)
    requires Increasing(pool) && |names| == |pool| && m < |pool| && now + |pool| <= later
    requires Refreshed(t, pool, names, m, now, later) && newcomer !in names
    ensures Ref(t, pool, newcomer, None, later + m).1 == Some(pool[m])
  {
    FirstFreeIsLowest(pool, t);
    forall u | u in pool && Reclaimable(t, u) && u != pool[m]
      ensures t.refs[pool[m]] < t.refs[u]
    {
      var j :| 0 <= j < |pool| && pool[j] == u;
    }
    OldestFinds(pool, t, pool[m]);
  }

  /** Requests for `first + [last]`: those for `first`, then one for `last` from where they left off. */
  lemma RefAllSnoc(t: Table, pool: seq<int>, first: seq<string>, last: string, now: nat)
    ensures var (t1, rs1) := RefAll(t, pool, first, now);
      RefAll(t, pool, first + [last], now).1 == rs1 + [Ref(t1, pool, last, None, now + |first|).1]
  {
    var t1 := RefAll(t, pool, first, now).0;
    assert RefAll(t1, pool, [last], now + |first|).1 == [Ref(t1, pool, last, None, now + |first|).1];
    RefAllAppend(t, pool, first, [last], now);
  }

  /** From a full table: the first `m` holders get their values back, then a new name takes value `m`. */
  lemma RefreshThenNewcomer(t: Table, pool: seq<int>, names: seq<string>, m: nat, now: nat, later: nat, newcomer: string)
    requires Increasing(pool) && |names| == |pool| && m < |pool| && now + |pool| <= later && newcomer !in names
    requires Refreshed(t, pool, names, 0, now, later)
    ensures var rs := RefAll(t, pool, names[..m] + [newcomer], later).1;
      |rs| == m + 1 && forall i | 0 <= i <= m :: rs[i] == Some(pool[i])
  {
    RefreshRun(t, pool, names, m, now, later);
    BumpedRefreshed(t, pool, names, m, now, later);
    NewcomerTakesOldest(pool, names, Bumped(t, pool, m, later), m, now, later, newcomer);
    RefAllSnoc(t, pool, names[..m], newcomer, later);
  }

  /** Distinct names that fill the whole pool leave a full table, with nothing referenced again yet. */
  lemma FillLeavesFull(pool: seq<int>, names: seq<string>, now: nat, later: nat)
    requires Increasing(pool) && Distinct(names) && |names| == |pool|
    ensures Refreshed(RefAll(Empty, pool, names, now).0, pool, names, 0, now, later)
  {
    FillInOrder(pool, names, now);
    RefreshedStart(pool, names, now, later);
  }

  /** After distinct names fill the whole pool, the first `m` get their values back and a new name takes value `m`. */
  lemma AfterFill(pool: seq<int>, names: seq<string>, m: nat, now: nat, newcomer: string)
    requires Increasing(pool) && Distinct(names) && |names| == |pool| && m < |pool| && newcomer !in names
    ensures var full := RefAll(Empty, pool, names, now).0;
      var rs := RefAll(full, pool, names[..m] + [newcomer], now + |names|).1;
      |rs| == m + 1 && forall i | 0 <= i <= m :: rs[i] == Some(pool[i])
  {
    FillLeavesFull(pool, names, now, now + |pool|);
    RefreshThenNewcomer(RefAll(Empty, pool, names, now).0, pool, names, m, now, now + |pool|, newcomer);
  }

  /**
    Distinct names fill the whole pool in order; referencing the first `m` of
    them again gives them their values back; a new name then takes value `m`
    of the pool, the one referenced longest ago.
  */
  lemma ReuseOldest(pool: seq<int>, names: seq<string>, m: nat, now: nat, newcomer: string)
    requires Increasing(pool) && Distinct(names) && |names| == |pool| && m < |pool| && newcomer !in names
    ensures var rs := RefAll(Empty, pool, names + (names[..m] + [newcomer]), now).1;
      && |rs| == |pool| + m + 1
      && (forall i | 0 <= i < |pool| :: rs[i] == Some(pool[i]))
      && (forall i | 0 <= i <= m :: rs[|pool| + i] == Some(pool[i]))
  {
    FillInOrder(pool, names, now);
    AfterFill(pool, names, m, now, newcomer);
    RefAllAppend(Empty, pool, names, names[..m] + [newcomer], now);
  }
}

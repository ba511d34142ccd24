/**
  The examples of spec/softbin_allocator_spec.rb, each as a lemma about `Run`.
  A test's `configure` block becomes `Settings`; each `reset` without a save
  starts again from `Fresh`, and a run after `save` resumes from the
  snapshot the previous run ended with. Where an example is one instance of
  a general fact (a fresh run of new names, a derived softbin, the `:bx`
  increments wrapping round), the general fact is proved first and the
  example follows from it; the others are walked one call at a time.
*/
module Scenarios {
  import opened Wrappers
  import opened Pools
  import opened Tables
  import opened Derivation
  import opened Allocation

  /** The options of `a(name, softbin: v)`. */
  function GivenSoftbin(v: int): Options {
    Options(None, Some(v), None)
  }

  /** Only the softbins are configured, as a range: no bins and no numbers. */
  function SoftbinsOnly(pool: seq<int>): Settings {
    Settings([], Ranged(pool), Ranged([]))
  }

  /** The state of a softbins-only run: the softbin table and the clock. */
  function At(t: Table, clock: nat): Snapshot {
    Snapshot(Tables.Empty, Dim(t, map[]), EmptyDim, clock)
  }

  /** With only softbins configured, a call is one request to the softbin table. */
  lemma SoftbinStep(pool: seq<int>, t: Table, clock: nat, name: string, opts: Options)
    requires opts.bin.None? && opts.number.None?
    ensures Step(SoftbinsOnly(pool), At(t, clock), name, opts).0 == At(Ref(t, pool, name, opts.softbin, clock).0, clock + 1)
    ensures Step(SoftbinsOnly(pool), At(t, clock), name, opts).1 == Ids(None, Ref(t, pool, name, opts.softbin, clock).1, None)
  {
  }

  /** The softbin table's side of a softbins-only run: each call's request, in order. */
  function Requests(t: Table, pool: seq<int>, calls: seq<Call>, now: nat): (r: (Table, seq<Option<int>>))
    ensures |r.1| == |calls|
    decreases |calls|
  {
    if calls == [] then (t, [])
    else
      var (t1, r) := Ref(t, pool, calls[0].name, calls[0].opts.softbin, now);
      var (t2, rs) := Requests(t1, pool, calls[1..], now + 1);
      (t2, [r] + rs)
  }

  predicate SoftbinOptionsOnly(calls: seq<Call>) {
    forall i | 0 <= i < |calls| :: calls[i].opts.bin.None? && calls[i].opts.number.None?
  }

  /** With only softbins configured, a run is a run of requests to the softbin table. */
  lemma {:induction false} SoftbinRun(pool: seq<int>, t: Table, clock: nat, calls: seq<Call>)
    requires SoftbinOptionsOnly(calls)
    ensures Run(SoftbinsOnly(pool), At(t, clock), calls).0 == At(Requests(t, pool, calls, clock).0, clock + |calls|)
    ensures Softbins(Run(SoftbinsOnly(pool), At(t, clock), calls).1) == Requests(t, pool, calls, clock).1
    decreases |calls|
  {
    if calls != [] {
      SoftbinStep(pool, t, clock, calls[0].name, calls[0].opts);
      var t1 := Ref(t, pool, calls[0].name, calls[0].opts.softbin, clock).0;
      assert SoftbinOptionsOnly(calls[1..]) by {
        forall i | 0 <= i < |calls[1..]|
          ensures calls[1..][i].opts.bin.None? && calls[1..][i].opts.number.None?
        {
          assert calls[1..][i] == calls[i + 1];
        }
      }
      SoftbinRun(pool, t1, clock + 1, calls[1..]);
      var ids := Run(SoftbinsOnly(pool), At(t, clock), calls).1;
      var rest := Run(SoftbinsOnly(pool), At(t1, clock + 1), calls[1..]).1;
      assert ids == [ids[0]] + rest;
      assert Softbins([ids[0]] + rest) == [ids[0].softbin] + Softbins(rest);
    }
  }

  /** Automatic calls are plain requests for their names. */
  lemma {:induction false} RequestsOfNames(t: Table, pool: seq<int>, names: seq<string>, now: nat)
    ensures Requests(t, pool, Calls(names), now).0 == RefAll(t, pool, names, now).0
    ensures Requests(t, pool, Calls(names), now).1 == RefAll(t, pool, names, now).1
    decreases |names|
  {
    if names != [] {
      CallsCons(names);
      RequestsOfNames(Ref(t, pool, names[0], None, now).0, pool, names[1..], now + 1);
    }
  }

  lemma SoftbinsAppend(a: seq<Ids>, b: seq<Ids>)
    ensures Softbins(a + b) == Softbins(a) + Softbins(b)
  {
    var l, r := Softbins(a + b), Softbins(a) + Softbins(b);
    forall i | 0 <= i < |l|
      ensures l[i] == r[i]
    {
      if i < |a| {
        assert (a + b)[i] == a[i];
      } else {
        assert (a + b)[i] == b[i - |a|];
      }
    }
  }

  /**
    `save` and resume: the calls of two runs, the second resuming from what
    the first saved, assign what the same calls would in one run.
  */
  lemma ResumedSoftbins(cfg: Settings, s: Snapshot, first: seq<Call>, rest: seq<Call>)
    ensures Softbins(Run(cfg, s, first + rest).1)
         == Softbins(Run(cfg, s, first).1) + Softbins(Run(cfg, Run(cfg, s, first).0, rest).1)
  {
    RunAppend(cfg, s, first, rest);
    SoftbinsAppend(Run(cfg, s, first).1, Run(cfg, Run(cfg, s, first).0, rest).1);
  }

  // ---------------------------------------------------------------------------
  // The pools the examples configure.

  lemma CoversOne(e: Entry, v: int)
    ensures Covers([e], v) <==> e.Contains(v)
  {
    if e.Contains(v) {
      assert [e][0].Contains(v);
    }
  }

  /** `include << 3` */
  lemma PoolOfThree()
    ensures IsPoolOf([Single(3)], [], [3])
  {
    forall v
      ensures Covers([Single(3)], v) <==> v == 3
    {
      CoversOne(Single(3), v);
    }
  }

  /** `include << (1..3)` */
  lemma PoolOfOneToThree()
    ensures IsPoolOf([Span(1, 3)], [], [1, 2, 3])
  {
    forall v
      ensures Covers([Span(1, 3)], v) <==> 1 <= v <= 3
    {
      CoversOne(Span(1, 3), v);
    }
  }

  /** `include << (1..4)` */
  lemma PoolOfOneToFour()
    ensures IsPoolOf([Span(1, 4)], [], [1, 2, 3, 4])
  {
    forall v
      ensures Covers([Span(1, 4)], v) <==> 1 <= v <= 4
    {
      CoversOne(Span(1, 4), v);
    }
  }

  /** `include << (1..4)` and `exclude << 3` */
  lemma PoolWithExclusion()
    ensures IsPoolOf([Span(1, 4)], [Single(3)], [1, 2, 4])
  {
    forall v
      ensures Covers([Span(1, 4)], v) <==> 1 <= v <= 4
      ensures Covers([Single(3)], v) <==> v == 3
    {
      CoversOne(Span(1, 4), v);
      CoversOne(Single(3), v);
    }
  }

  // ---------------------------------------------------------------------------
  // New names on a fresh start.

  /** On a fresh start, distinct new names get the softbins in ascending order, one each. */
  lemma FreshNamesInOrder(pool: seq<int>, names: seq<string>)
    requires Increasing(pool) && Distinct(names) && |names| <= |pool|
    ensures var sbs := Softbins(Run(SoftbinsOnly(pool), Fresh, Calls(names)).1);
      |sbs| == |names| && forall i | 0 <= i < |names| :: sbs[i] == Some(pool[i])
  {
    assert Fresh == At(Tables.Empty, 0);
    SoftbinRun(pool, Tables.Empty, 0, Calls(names));
    RequestsOfNames(Tables.Empty, pool, names, 0);
    FillInOrder(pool, names, 0);
  }

  /** "is alive" */
  lemma IsAlive()
    ensures Softbins(Run(SoftbinsOnly([3]), Fresh, Calls(["t1"])).1) == [Some(3)]
  {
    FreshNamesInOrder([3], ["t1"]);
  }

  /** "softbin numbers increment" */
  lemma SoftbinNumbersIncrement()
    ensures Softbins(Run(SoftbinsOnly([1, 2, 3]), Fresh, Calls(["t1", "t2", "t3"])).1) == [Some(1), Some(2), Some(3)]
  {
    FreshNamesInOrder([1, 2, 3], ["t1", "t2", "t3"]);
  }

  /** "excluded softbins are not used": with 3 excluded from 1..4, the third name gets 4. */
  lemma ExcludedSoftbinsAreNotUsed()
    ensures Softbins(Run(SoftbinsOnly([1, 2, 4]), Fresh, Calls(["t1", "t2", "t3"])).1) == [Some(1), Some(2), Some(4)]
  {
    FreshNamesInOrder([1, 2, 4], ["t1", "t2", "t3"]);
  }

  // ---------------------------------------------------------------------------
  // Examples walked one call at a time.

  lemma DuplicatesStep1(a: int, b: int, c: int, t1: string, t2: string, t3: string)
    requires a < b < c
    requires t1 != t2 && t1 != t3 && t2 != t3
    ensures Ref(Tables.Empty, [a, b, c], t1, None, 0).0
         == Table(map[t1 := a], {}, map[a := 0])
    ensures Ref(Tables.Empty, [a, b, c], t1, None, 0).1 == Some(a)
  {
    FirstFreeFinds([a, b, c], Tables.Empty, a);
  }

  lemma DuplicatesStep2(a: int, b: int, c: int, t1: string, t2: string, t3: string)
    requires a < b < c
    requires t1 != t2 && t1 != t3 && t2 != t3
    ensures Ref(Table(map[t1 := a], {}, map[a := 0]), [a, b, c], t2, None, 1).0
         == Table(map[t1 := a, t2 := b], {}, map[a := 0, b := 1])
    ensures Ref(Table(map[t1 := a], {}, map[a := 0]), [a, b, c], t2, None, 1).1 == Some(b)
  {
    FirstFreeFinds([a, b, c], Table(map[t1 := a], {}, map[a := 0]), b);
  }

  lemma DuplicatesStep3(a: int, b: int, c: int, t1: string, t2: string, t3: string)
    requires a < b < c
    requires t1 != t2 && t1 != t3 && t2 != t3
    ensures Ref(Table(map[t1 := a, t2 := b], {}, map[a := 0, b := 1]), [a, b, c], t1, None, 2).0
         == Table(map[t1 := a, t2 := b], {}, map[a := 2, b := 1])
    ensures Ref(Table(map[t1 := a, t2 := b], {}, map[a := 0, b := 1]), [a, b, c], t1, None, 2).1 == Some(a)
  {
  }

  lemma DuplicatesStep4(a: int, b: int, c: int, t1: string, t2: string, t3: string)
    requires a < b < c
    requires t1 != t2 && t1 != t3 && t2 != t3
    ensures Ref(Table(map[t1 := a, t2 := b], {}, map[a := 2, b := 1]), [a, b, c], t3, None, 3).0
         == Table(map[t1 := a, t2 := b, t3 := c], {}, map[a := 2, b := 1, c := 3])
    ensures Ref(Table(map[t1 := a, t2 := b], {}, map[a := 2, b := 1]), [a, b, c], t3, None, 3).1 == Some(c)
  {
    FirstFreeFinds([a, b, c], Table(map[t1 := a, t2 := b], {}, map[a := 2, b := 1]), c);
  }

  lemma DuplicatesFrom4(a: int, b: int, c: int, t1: string, t2: string, t3: string)
    requires a < b < c
    requires t1 != t2 && t1 != t3 && t2 != t3
    ensures Requests(Table(map[t1 := a, t2 := b], {}, map[a := 2, b := 1]), [a, b, c], [Call(t3, Auto)], 3).1
         == [Some(c)]
  {
    DuplicatesStep4(a, b, c, t1, t2, t3);
    assert [Call(t3, Auto)][1..] == [];
  }

  lemma DuplicatesFrom3(a: int, b: int, c: int, t1: string, t2: string, t3: string)
    requires a < b < c
    requires t1 != t2 && t1 != t3 && t2 != t3
    ensures Requests(Table(map[t1 := a, t2 := b], {}, map[a := 0, b := 1]), [a, b, c], [Call(t1, Auto), Call(t3, Auto)], 2).1
         == [Some(a), Some(c)]
  {
    DuplicatesStep3(a, b, c, t1, t2, t3);
    DuplicatesFrom4(a, b, c, t1, t2, t3);
    assert [Call(t1, Auto), Call(t3, Auto)][1..] == [Call(t3, Auto)];
  }

  lemma DuplicatesFrom2(a: int, b: int, c: int, t1: string, t2: string, t3: string)
    requires a < b < c
    requires t1 != t2 && t1 != t3 && t2 != t3
    ensures Requests(Table(map[t1 := a], {}, map[a := 0]), [a, b, c], [Call(t2, Auto), Call(t1, Auto), Call(t3, Auto)], 1).1
         == [Some(b), Some(a), Some(c)]
  {
    DuplicatesStep2(a, b, c, t1, t2, t3);
    DuplicatesFrom3(a, b, c, t1, t2, t3);
    assert [Call(t2, Auto), Call(t1, Auto), Call(t3, Auto)][1..] == [Call(t1, Auto), Call(t3, Auto)];
  }

  lemma DuplicatesFrom1(a: int, b: int, c: int, t1: string, t2: string, t3: string)
    requires a < b < c
    requires t1 != t2 && t1 != t3 && t2 != t3
    ensures Requests(Tables.Empty, [a, b, c], [Call(t1, Auto), Call(t2, Auto), Call(t1, Auto), Call(t3, Auto)], 0).1
         == [Some(a), Some(b), Some(a), Some(c)]
  {
    DuplicatesStep1(a, b, c, t1, t2, t3);
    DuplicatesFrom2(a, b, c, t1, t2, t3);
    assert [Call(t1, Auto), Call(t2, Auto), Call(t1, Auto), Call(t3, Auto)][1..] == [Call(t2, Auto), Call(t1, Auto), Call(t3, Auto)];
  }

  /** Every call of "duplicate tests pick up the same softbin number". */
  lemma DuplicatesRun(a: int, b: int, c: int, t1: string, t2: string, t3: string)
    requires a < b < c
    requires t1 != t2 && t1 != t3 && t2 != t3
    ensures Softbins(Run(SoftbinsOnly([a, b, c]), Fresh, [Call(t1, Auto), Call(t2, Auto), Call(t1, Auto), Call(t3, Auto)]).1)
         == [Some(a), Some(b), Some(a), Some(c)]
  {
    assert Fresh == At(Tables.Empty, 0);
    DuplicatesFrom1(a, b, c, t1, t2, t3);
    SoftbinRun([a, b, c], Tables.Empty, 0, [Call(t1, Auto), Call(t2, Auto), Call(t1, Auto), Call(t3, Auto)]);
  }

  lemma OverrideFirstStep1(a: int, b: int, c: int, d: int, t1: string, t2: string)
    requires a < b < c < d
    requires t1 != t2
    ensures Ref(Tables.Empty, [a, b, c, d], t1, None, 0).0
         == Table(map[t1 := a], {}, map[a := 0])
    ensures Ref(Tables.Empty, [a, b, c, d], t1, None, 0).1 == Some(a)
  {
    FirstFreeFinds([a, b, c, d], Tables.Empty, a);
  }

  lemma OverrideFirstStep2(a: int, b: int, c: int, d: int, t1: string, t2: string)
    requires a < b < c < d
    requires t1 != t2
    ensures Ref(Table(map[t1 := a], {}, map[a := 0]), [a, b, c, d], t2, Some(c), 1).0
         == Table(map[t1 := a, t2 := c], {c}, map[a := 0, c := 1])
    ensures Ref(Table(map[t1 := a], {}, map[a := 0]), [a, b, c, d], t2, Some(c), 1).1 == Some(c)
  {
    assert Evict(map[t1 := a], c) == map[t1 := a];
  }

  lemma OverrideFirstFrom2(a: int, b: int, c: int, d: int, t1: string, t2: string)
    requires a < b < c < d
    requires t1 != t2
    ensures Requests(Table(map[t1 := a], {}, map[a := 0]), [a, b, c, d], [Call(t2, GivenSoftbin(c))], 1).1
         == [Some(c)]
    ensures Requests(Table(map[t1 := a], {}, map[a := 0]), [a, b, c, d], [Call(t2, GivenSoftbin(c))], 1).0 == Table(map[t1 := a, t2 := c], {c}, map[a := 0, c := 1])
  {
    OverrideFirstStep2(a, b, c, d, t1, t2);
    assert [Call(t2, GivenSoftbin(c))][1..] == [];
  }

  lemma OverrideFirstFrom1(a: int, b: int, c: int, d: int, t1: string, t2: string)
    requires a < b < c < d
    requires t1 != t2
    ensures Requests(Tables.Empty, [a, b, c, d], [Call(t1, Auto), Call(t2, GivenSoftbin(c))], 0).1
         == [Some(a), Some(c)]
    ensures Requests(Tables.Empty, [a, b, c, d], [Call(t1, Auto), Call(t2, GivenSoftbin(c))], 0).0 == Table(map[t1 := a, t2 := c], {c}, map[a := 0, c := 1])
  {
    OverrideFirstStep1(a, b, c, d, t1, t2);
    OverrideFirstFrom2(a, b, c, d, t1, t2);
    assert [Call(t1, Auto), Call(t2, GivenSoftbin(c))][1..] == [Call(t2, GivenSoftbin(c))];
  }

  /** "caller can override softbin number": the first two calls, which the save of the resumed example keeps. */
  lemma OverrideFirstRun(a: int, b: int, c: int, d: int, t1: string, t2: string)
    requires a < b < c < d
    requires t1 != t2
    ensures Softbins(Run(SoftbinsOnly([a, b, c, d]), Fresh, [Call(t1, Auto), Call(t2, GivenSoftbin(c))]).1)
         == [Some(a), Some(c)]
    ensures Run(SoftbinsOnly([a, b, c, d]), Fresh, [Call(t1, Auto), Call(t2, GivenSoftbin(c))]).0
         == At(Table(map[t1 := a, t2 := c], {c}, map[a := 0, c := 1]), 2)
  {
    assert Fresh == At(Tables.Empty, 0);
    OverrideFirstFrom1(a, b, c, d, t1, t2);
    SoftbinRun([a, b, c, d], Tables.Empty, 0, [Call(t1, Auto), Call(t2, GivenSoftbin(c))]);
  }

  lemma OverrideThenStep1(a: int, b: int, c: int, d: int, t1: string, t2: string, t3: string, t4: string)
    requires a < b < c < d
    requires t1 != t2 && t1 != t3 && t1 != t4 && t2 != t3 && t2 != t4 && t3 != t4
    ensures Ref(Table(map[t1 := a, t2 := c], {c}, map[a := 0, c := 1]), [a, b, c, d], t3, None, 2).0
         == Table(map[t1 := a, t2 := c, t3 := b], {c}, map[a := 0, b := 2, c := 1])
    ensures Ref(Table(map[t1 := a, t2 := c], {c}, map[a := 0, c := 1]), [a, b, c, d], t3, None, 2).1 == Some(b)
  {
    FirstFreeFinds([a, b, c, d], Table(map[t1 := a, t2 := c], {c}, map[a := 0, c := 1]), b);
  }

  lemma OverrideThenStep2(a: int, b: int, c: int, d: int, t1: string, t2: string, t3: string, t4: string)
    requires a < b < c < d
    requires t1 != t2 && t1 != t3 && t1 != t4 && t2 != t3 && t2 != t4 && t3 != t4
    ensures Ref(Table(map[t1 := a, t2 := c, t3 := b], {c}, map[a := 0, b := 2, c := 1]), [a, b, c, d], t4, None, 3).0
         == Table(map[t1 := a, t2 := c, t3 := b, t4 := d], {c}, map[a := 0, b := 2, c := 1, d := 3])
    ensures Ref(Table(map[t1 := a, t2 := c, t3 := b], {c}, map[a := 0, b := 2, c := 1]), [a, b, c, d], t4, None, 3).1 == Some(d)
  {
    FirstFreeFinds([a, b, c, d], Table(map[t1 := a, t2 := c, t3 := b], {c}, map[a := 0, b := 2, c := 1]), d);
  }

  lemma OverrideThenFrom2(a: int, b: int, c: int, d: int, t1: string, t2: string, t3: string, t4: string)
    requires a < b < c < d
    requires t1 != t2 && t1 != t3 && t1 != t4 && t2 != t3 && t2 != t4 && t3 != t4
    ensures Requests(Table(map[t1 := a, t2 := c, t3 := b], {c}, map[a := 0, b := 2, c := 1]), [a, b, c, d], [Call(t4, Auto)], 3).1
         == [Some(d)]
  {
    OverrideThenStep2(a, b, c, d, t1, t2, t3, t4);
    assert [Call(t4, Auto)][1..] == [];
  }

  lemma OverrideThenFrom1(a: int, b: int, c: int, d: int, t1: string, t2: string, t3: string, t4: string)
    requires a < b < c < d
    requires t1 != t2 && t1 != t3 && t1 != t4 && t2 != t3 && t2 != t4 && t3 != t4
    ensures Requests(Table(map[t1 := a, t2 := c], {c}, map[a := 0, c := 1]), [a, b, c, d], [Call(t3, Auto), Call(t4, Auto)], 2).1
         == [Some(b), Some(d)]
  {
    OverrideThenStep1(a, b, c, d, t1, t2, t3, t4);
    OverrideThenFrom2(a, b, c, d, t1, t2, t3, t4);
    assert [Call(t3, Auto), Call(t4, Auto)][1..] == [Call(t4, Auto)];
  }

  /** The calls after the override, which take the free softbins around the reserved one. */
  lemma OverrideThenRun(a: int, b: int, c: int, d: int, t1: string, t2: string, t3: string, t4: string)
    requires a < b < c < d
    requires t1 != t2 && t1 != t3 && t1 != t4 && t2 != t3 && t2 != t4 && t3 != t4
    ensures Softbins(Run(SoftbinsOnly([a, b, c, d]), At(Table(map[t1 := a, t2 := c], {c}, map[a := 0, c := 1]), 2), [Call(t3, Auto), Call(t4, Auto)]).1)
         == [Some(b), Some(d)]
  {
    OverrideThenFrom1(a, b, c, d, t1, t2, t3, t4);
    SoftbinRun([a, b, c, d], Table(map[t1 := a, t2 := c], {c}, map[a := 0, c := 1]), 2, [Call(t3, Auto), Call(t4, Auto)]);
  }

  lemma ReclaimFirstStep1(a: int, b: int, c: int, d: int, t1: string, t2: string, t3: string)
    requires a < b < c < d
    requires t1 != t2 && t1 != t3 && t2 != t3
    ensures Ref(Tables.Empty, [a, b, c, d], t1, None, 0).0
         == Table(map[t1 := a], {}, map[a := 0])
    ensures Ref(Tables.Empty, [a, b, c, d], t1, None, 0).1 == Some(a)
  {
    FirstFreeFinds([a, b, c, d], Tables.Empty, a);
  }

  lemma ReclaimFirstStep2(a: int, b: int, c: int, d: int, t1: string, t2: string, t3: string)
    requires a < b < c < d
    requires t1 != t2 && t1 != t3 && t2 != t3
    ensures Ref(Table(map[t1 := a], {}, map[a := 0]), [a, b, c, d], t2, None, 1).0
         == Table(map[t1 := a, t2 := b], {}, map[a := 0, b := 1])
    ensures Ref(Table(map[t1 := a], {}, map[a := 0]), [a, b, c, d], t2, None, 1).1 == Some(b)
  {
    FirstFreeFinds([a, b, c, d], Table(map[t1 := a], {}, map[a := 0]), b);
  }

  lemma ReclaimFirstStep3(a: int, b: int, c: int, d: int, t1: string, t2: string, t3: string)
    requires a < b < c < d
    requires t1 != t2 && t1 != t3 && t2 != t3
    ensures Ref(Table(map[t1 := a, t2 := b], {}, map[a := 0, b := 1]), [a, b, c, d], t3, Some(b), 2).0
         == Table(map[t1 := a, t3 := b], {b}, map[a := 0, b := 2])
    ensures Ref(Table(map[t1 := a, t2 := b], {}, map[a := 0, b := 1]), [a, b, c, d], t3, Some(b), 2).1 == Some(b)
  {
    assert Evict(map[t1 := a, t2 := b], b) == map[t1 := a];
  }

  lemma ReclaimFirstFrom3(a: int, b: int, c: int, d: int, t1: string, t2: string, t3: string)
    requires a < b < c < d
    requires t1 != t2 && t1 != t3 && t2 != t3
    ensures Requests(Table(map[t1 := a, t2 := b], {}, map[a := 0, b := 1]), [a, b, c, d], [Call(t3, GivenSoftbin(b))], 2).1
         == [Some(b)]
    ensures Requests(Table(map[t1 := a, t2 := b], {}, map[a := 0, b := 1]), [a, b, c, d], [Call(t3, GivenSoftbin(b))], 2).0 == Table(map[t1 := a, t3 := b], {b}, map[a := 0, b := 2])
  {
    ReclaimFirstStep3(a, b, c, d, t1, t2, t3);
    assert [Call(t3, GivenSoftbin(b))][1..] == [];
  }

  lemma ReclaimFirstFrom2(a: int, b: int, c: int, d: int, t1: string, t2: string, t3: string)
    requires a < b < c < d
    requires t1 != t2 && t1 != t3 && t2 != t3
    ensures Requests(Table(map[t1 := a], {}, map[a := 0]), [a, b, c, d], [Call(t2, Auto), Call(t3, GivenSoftbin(b))], 1).1
         == [Some(b), Some(b)]
    ensures Requests(Table(map[t1 := a], {}, map[a := 0]), [a, b, c, d], [Call(t2, Auto), Call(t3, GivenSoftbin(b))], 1).0 == Table(map[t1 := a, t3 := b], {b}, map[a := 0, b := 2])
  {
    ReclaimFirstStep2(a, b, c, d, t1, t2, t3);
    ReclaimFirstFrom3(a, b, c, d, t1, t2, t3);
    assert [Call(t2, Auto), Call(t3, GivenSoftbin(b))][1..] == [Call(t3, GivenSoftbin(b))];
  }

  lemma ReclaimFirstFrom1(a: int, b: int, c: int, d: int, t1: string, t2: string, t3: string)
    requires a < b < c < d
    requires t1 != t2 && t1 != t3 && t2 != t3
    ensures Requests(Tables.Empty, [a, b, c, d], [Call(t1, Auto), Call(t2, Auto), Call(t3, GivenSoftbin(b))], 0).1
         == [Some(a), Some(b), Some(b)]
    ensures Requests(Tables.Empty, [a, b, c, d], [Call(t1, Auto), Call(t2, Auto), Call(t3, GivenSoftbin(b))], 0).0 == Table(map[t1 := a, t3 := b], {b}, map[a := 0, b := 2])
  {
    ReclaimFirstStep1(a, b, c, d, t1, t2, t3);
    ReclaimFirstFrom2(a, b, c, d, t1, t2, t3);
    assert [Call(t1, Auto), Call(t2, Auto), Call(t3, GivenSoftbin(b))][1..] == [Call(t2, Auto), Call(t3, GivenSoftbin(b))];
  }

  /** The first run of "previously assigned manual softbins are reclaimed next time". */
  lemma ReclaimFirstRun(a: int, b: int, c: int, d: int, t1: string, t2: string, t3: string)
    requires a < b < c < d
    requires t1 != t2 && t1 != t3 && t2 != t3
    ensures Softbins(Run(SoftbinsOnly([a, b, c, d]), Fresh, [Call(t1, Auto), Call(t2, Auto), Call(t3, GivenSoftbin(b))]).1)
         == [Some(a), Some(b), Some(b)]
    ensures Run(SoftbinsOnly([a, b, c, d]), Fresh, [Call(t1, Auto), Call(t2, Auto), Call(t3, GivenSoftbin(b))]).0
         == At(Table(map[t1 := a, t3 := b], {b}, map[a := 0, b := 2]), 3)
  {
    assert Fresh == At(Tables.Empty, 0);
    ReclaimFirstFrom1(a, b, c, d, t1, t2, t3);
    SoftbinRun([a, b, c, d], Tables.Empty, 0, [Call(t1, Auto), Call(t2, Auto), Call(t3, GivenSoftbin(b))]);
  }

  lemma ReclaimSecondStep1(a: int, b: int, c: int, d: int, t1: string, t2: string, t3: string)
    requires a < b < c < d
    requires t1 != t2 && t1 != t3 && t2 != t3
    ensures Ref(Table(map[t1 := a, t3 := b], {b}, map[a := 0, b := 2]), [a, b, c, d], t1, None, 3).0
         == Table(map[t1 := a, t3 := b], {b}, map[a := 3, b := 2])
    ensures Ref(Table(map[t1 := a, t3 := b], {b}, map[a := 0, b := 2]), [a, b, c, d], t1, None, 3).1 == Some(a)
  {
  }

  lemma ReclaimSecondStep2(a: int, b: int, c: int, d: int, t1: string, t2: string, t3: string)
    requires a < b < c < d
    requires t1 != t2 && t1 != t3 && t2 != t3
    ensures Ref(Table(map[t1 := a, t3 := b], {b}, map[a := 3, b := 2]), [a, b, c, d], t2, None, 4).0
         == Table(map[t1 := a, t3 := b, t2 := c], {b}, map[a := 3, b := 2, c := 4])
    ensures Ref(Table(map[t1 := a, t3 := b], {b}, map[a := 3, b := 2]), [a, b, c, d], t2, None, 4).1 == Some(c)
  {
    FirstFreeFinds([a, b, c, d], Table(map[t1 := a, t3 := b], {b}, map[a := 3, b := 2]), c);
  }

  lemma ReclaimSecondStep3(a: int, b: int, c: int, d: int, t1: string, t2: string, t3: string)
    requires a < b < c < d
    requires t1 != t2 && t1 != t3 && t2 != t3
    ensures Ref(Table(map[t1 := a, t3 := b, t2 := c], {b}, map[a := 3, b := 2, c := 4]), [a, b, c, d], t3, Some(b), 5).0
         == Table(map[t1 := a, t3 := b, t2 := c], {b}, map[a := 3, b := 5, c := 4])
    ensures Ref(Table(map[t1 := a, t3 := b, t2 := c], {b}, map[a := 3, b := 2, c := 4]), [a, b, c, d], t3, Some(b), 5).1 == Some(b)
  {
  }

  lemma ReclaimSecondFrom3(a: int, b: int, c: int, d: int, t1: string, t2: string, t3: string)
    requires a < b < c < d
    requires t1 != t2 && t1 != t3 && t2 != t3
    ensures Requests(Table(map[t1 := a, t3 := b, t2 := c], {b}, map[a := 3, b := 2, c := 4]), [a, b, c, d], [Call(t3, GivenSoftbin(b))], 5).1
         == [Some(b)]
  {
    ReclaimSecondStep3(a, b, c, d, t1, t2, t3);
    assert [Call(t3, GivenSoftbin(b))][1..] == [];
  }

  lemma ReclaimSecondFrom2(a: int, b: int, c: int, d: int, t1: string, t2: string, t3: string)
    requires a < b < c < d
    requires t1 != t2 && t1 != t3 && t2 != t3
    ensures Requests(Table(map[t1 := a, t3 := b], {b}, map[a := 3, b := 2]), [a, b, c, d], [Call(t2, Auto), Call(t3, GivenSoftbin(b))], 4).1
         == [Some(c), Some(b)]
  {
    ReclaimSecondStep2(a, b, c, d, t1, t2, t3);
    ReclaimSecondFrom3(a, b, c, d, t1, t2, t3);
    assert [Call(t2, Auto), Call(t3, GivenSoftbin(b))][1..] == [Call(t3, GivenSoftbin(b))];
  }

  lemma ReclaimSecondFrom1(a: int, b: int, c: int, d: int, t1: string, t2: string, t3: string)
    requires a < b < c < d
    requires t1 != t2 && t1 != t3 && t2 != t3
    ensures Requests(Table(map[t1 := a, t3 := b], {b}, map[a := 0, b := 2]), [a, b, c, d], [Call(t1, Auto), Call(t2, Auto), Call(t3, GivenSoftbin(b))], 3).1
         == [Some(a), Some(c), Some(b)]
  {
    ReclaimSecondStep1(a, b, c, d, t1, t2, t3);
    ReclaimSecondFrom2(a, b, c, d, t1, t2, t3);
    assert [Call(t1, Auto), Call(t2, Auto), Call(t3, GivenSoftbin(b))][1..] == [Call(t2, Auto), Call(t3, GivenSoftbin(b))];
  }

  /** The second run of "previously assigned manual softbins are reclaimed next time", from what the first saved. */
  lemma ReclaimSecondRun(a: int, b: int, c: int, d: int, t1: string, t2: string, t3: string)
    requires a < b < c < d
    requires t1 != t2 && t1 != t3 && t2 != t3
    ensures Softbins(Run(SoftbinsOnly([a, b, c, d]), At(Table(map[t1 := a, t3 := b], {b}, map[a := 0, b := 2]), 3), [Call(t1, Auto), Call(t2, Auto), Call(t3, GivenSoftbin(b))]).1)
         == [Some(a), Some(c), Some(b)]
  {
    ReclaimSecondFrom1(a, b, c, d, t1, t2, t3);
    SoftbinRun([a, b, c, d], Table(map[t1 := a, t3 := b], {b}, map[a := 0, b := 2]), 3, [Call(t1, Auto), Call(t2, Auto), Call(t3, GivenSoftbin(b))]);
  }

  lemma OldestFirstStep1(a: int, b: int, c: int, t1: string, t2: string, t3: string, t4: string, t5: string)
    requires a < b < c
    requires t1 != t2 && t1 != t3 && t1 != t4 && t1 != t5 && t2 != t3 && t2 != t4 && t2 != t5 && t3 != t4 && t3 != t5 && t4 != t5
    ensures Ref(Tables.Empty, [a, b, c], t1, None, 0).0
         == Table(map[t1 := a], {}, map[a := 0])
    ensures Ref(Tables.Empty, [a, b, c], t1, None, 0).1 == Some(a)
  {
    FirstFreeFinds([a, b, c], Tables.Empty, a);
  }

  lemma OldestFirstStep2(a: int, b: int, c: int, t1: string, t2: string, t3: string, t4: string, t5: string)
    requires a < b < c
    requires t1 != t2 && t1 != t3 && t1 != t4 && t1 != t5 && t2 != t3 && t2 != t4 && t2 != t5 && t3 != t4 && t3 != t5 && t4 != t5
    ensures Ref(Table(map[t1 := a], {}, map[a := 0]), [a, b, c], t2, None, 1).0
         == Table(map[t1 := a, t2 := b], {}, map[a := 0, b := 1])
    ensures Ref(Table(map[t1 := a], {}, map[a := 0]), [a, b, c], t2, None, 1).1 == Some(b)
  {
    FirstFreeFinds([a, b, c], Table(map[t1 := a], {}, map[a := 0]), b);
  }

  lemma OldestFirstStep3(a: int, b: int, c: int, t1: string, t2: string, t3: string, t4: string, t5: string)
    requires a < b < c
    requires t1 != t2 && t1 != t3 && t1 != t4 && t1 != t5 && t2 != t3 && t2 != t4 && t2 != t5 && t3 != t4 && t3 != t5 && t4 != t5
    ensures Ref(Table(map[t1 := a, t2 := b], {}, map[a := 0, b := 1]), [a, b, c], t3, None, 2).0
         == Table(map[t1 := a, t2 := b, t3 := c], {}, map[a := 0, b := 1, c := 2])
    ensures Ref(Table(map[t1 := a, t2 := b], {}, map[a := 0, b := 1]), [a, b, c], t3, None, 2).1 == Some(c)
  {
    FirstFreeFinds([a, b, c], Table(map[t1 := a, t2 := b], {}, map[a := 0, b := 1]), c);
  }

  lemma OldestFirstStep4(a: int, b: int, c: int, t1: string, t2: string, t3: string, t4: string, t5: string)
    requires a < b < c
    requires t1 != t2 && t1 != t3 && t1 != t4 && t1 != t5 && t2 != t3 && t2 != t4 && t2 != t5 && t3 != t4 && t3 != t5 && t4 != t5
    ensures Ref(Table(map[t1 := a, t2 := b, t3 := c], {}, map[a := 0, b := 1, c := 2]), [a, b, c], t4, None, 3).0
         == Table(map[t1 := a, t2 := b, t3 := c, t4 := a], {}, map[a := 3, b := 1, c := 2])
    ensures Ref(Table(map[t1 := a, t2 := b, t3 := c], {}, map[a := 0, b := 1, c := 2]), [a, b, c], t4, None, 3).1 == Some(a)
  {
    FirstFreeIsLowest([a, b, c], Table(map[t1 := a, t2 := b, t3 := c], {}, map[a := 0, b := 1, c := 2]));
    OldestFinds([a, b, c], Table(map[t1 := a, t2 := b, t3 := c], {}, map[a := 0, b := 1, c := 2]), a);
  }

  lemma OldestFirstStep5(a: int, b: int, c: int, t1: string, t2: string, t3: string, t4: string, t5: string)
    requires a < b < c
    requires t1 != t2 && t1 != t3 && t1 != t4 && t1 != t5 && t2 != t3 && t2 != t4 && t2 != t5 && t3 != t4 && t3 != t5 && t4 != t5
    ensures Ref(Table(map[t1 := a, t2 := b, t3 := c, t4 := a], {}, map[a := 3, b := 1, c := 2]), [a, b, c], t4, None, 4).0
         == Table(map[t1 := a, t2 := b, t3 := c, t4 := a], {}, map[a := 4, b := 1, c := 2])
    ensures Ref(Table(map[t1 := a, t2 := b, t3 := c, t4 := a], {}, map[a := 3, b := 1, c := 2]), [a, b, c], t4, None, 4).1 == Some(a)
  {
  }

  lemma OldestFirstStep6(a: int, b: int, c: int, t1: string, t2: string, t3: string, t4: string, t5: string)
    requires a < b < c
    requires t1 != t2 && t1 != t3 && t1 != t4 && t1 != t5 && t2 != t3 && t2 != t4 && t2 != t5 && t3 != t4 && t3 != t5 && t4 != t5
    ensures Ref(Table(map[t1 := a, t2 := b, t3 := c, t4 := a], {}, map[a := 4, b := 1, c := 2]), [a, b, c], t5, None, 5).0
         == Table(map[t1 := a, t2 := b, t3 := c, t4 := a, t5 := b], {}, map[a := 4, b := 5, c := 2])
    ensures Ref(Table(map[t1 := a, t2 := b, t3 := c, t4 := a], {}, map[a := 4, b := 1, c := 2]), [a, b, c], t5, None, 5).1 == Some(b)
  {
    FirstFreeIsLowest([a, b, c], Table(map[t1 := a, t2 := b, t3 := c, t4 := a], {}, map[a := 4, b := 1, c := 2]));
    OldestFinds([a, b, c], Table(map[t1 := a, t2 := b, t3 := c, t4 := a], {}, map[a := 4, b := 1, c := 2]), b);
  }

  lemma OldestFirstFrom6(a: int, b: int, c: int, t1: string, t2: string, t3: string, t4: string, t5: string)
    requires a < b < c
    requires t1 != t2 && t1 != t3 && t1 != t4 && t1 != t5 && t2 != t3 && t2 != t4 && t2 != t5 && t3 != t4 && t3 != t5 && t4 != t5
    ensures Requests(Table(map[t1 := a, t2 := b, t3 := c, t4 := a], {}, map[a := 4, b := 1, c := 2]), [a, b, c], [Call(t5, Auto)], 5).1
         == [Some(b)]
  {
    OldestFirstStep6(a, b, c, t1, t2, t3, t4, t5);
    assert [Call(t5, Auto)][1..] == [];
  }

  lemma OldestFirstFrom5(a: int, b: int, c: int, t1: string, t2: string, t3: string, t4: string, t5: string)
    requires a < b < c
    requires t1 != t2 && t1 != t3 && t1 != t4 && t1 != t5 && t2 != t3 && t2 != t4 && t2 != t5 && t3 != t4 && t3 != t5 && t4 != t5
    ensures Requests(Table(map[t1 := a, t2 := b, t3 := c, t4 := a], {}, map[a := 3, b := 1, c := 2]), [a, b, c], [Call(t4, Auto), Call(t5, Auto)], 4).1
         == [Some(a), Some(b)]
  {
    OldestFirstStep5(a, b, c, t1, t2, t3, t4, t5);
    OldestFirstFrom6(a, b, c, t1, t2, t3, t4, t5);
    assert [Call(t4, Auto), Call(t5, Auto)][1..] == [Call(t5, Auto)];
  }

  lemma OldestFirstFrom4(a: int, b: int, c: int, t1: string, t2: string, t3: string, t4: string, t5: string)
    requires a < b < c
    requires t1 != t2 && t1 != t3 && t1 != t4 && t1 != t5 && t2 != t3 && t2 != t4 && t2 != t5 && t3 != t4 && t3 != t5 && t4 != t5
    ensures Requests(Table(map[t1 := a, t2 := b, t3 := c], {}, map[a := 0, b := 1, c := 2]), [a, b, c], [Call(t4, Auto), Call(t4, Auto), Call(t5, Auto)], 3).1
         == [Some(a), Some(a), Some(b)]
  {
    OldestFirstStep4(a, b, c, t1, t2, t3, t4, t5);
    OldestFirstFrom5(a, b, c, t1, t2, t3, t4, t5);
    assert [Call(t4, Auto), Call(t4, Auto), Call(t5, Auto)][1..] == [Call(t4, Auto), Call(t5, Auto)];
  }

  lemma OldestFirstFrom3(a: int, b: int, c: int, t1: string, t2: string, t3: string, t4: string, t5: string)
    requires a < b < c
    requires t1 != t2 && t1 != t3 && t1 != t4 && t1 != t5 && t2 != t3 && t2 != t4 && t2 != t5 && t3 != t4 && t3 != t5 && t4 != t5
    ensures Requests(Table(map[t1 := a, t2 := b], {}, map[a := 0, b := 1]), [a, b, c], [Call(t3, Auto), Call(t4, Auto), Call(t4, Auto), Call(t5, Auto)], 2).1
         == [Some(c), Some(a), Some(a), Some(b)]
  {
    OldestFirstStep3(a, b, c, t1, t2, t3, t4, t5);
    OldestFirstFrom4(a, b, c, t1, t2, t3, t4, t5);
    assert [Call(t3, Auto), Call(t4, Auto), Call(t4, Auto), Call(t5, Auto)][1..] == [Call(t4, Auto), Call(t4, Auto), Call(t5, Auto)];
  }

  lemma OldestFirstFrom2(a: int, b: int, c: int, t1: string, t2: string, t3: string, t4: string, t5: string)
    requires a < b < c
    requires t1 != t2 && t1 != t3 && t1 != t4 && t1 != t5 && t2 != t3 && t2 != t4 && t2 != t5 && t3 != t4 && t3 != t5 && t4 != t5
    ensures Requests(Table(map[t1 := a], {}, map[a := 0]), [a, b, c], [Call(t2, Auto), Call(t3, Auto), Call(t4, Auto), Call(t4, Auto), Call(t5, Auto)], 1).1
         == [Some(b), Some(c), Some(a), Some(a), Some(b)]
  {
    OldestFirstStep2(a, b, c, t1, t2, t3, t4, t5);
    OldestFirstFrom3(a, b, c, t1, t2, t3, t4, t5);
    assert [Call(t2, Auto), Call(t3, Auto), Call(t4, Auto), Call(t4, Auto), Call(t5, Auto)][1..] == [Call(t3, Auto), Call(t4, Auto), Call(t4, Auto), Call(t5, Auto)];
  }

  lemma OldestFirstFrom1(a: int, b: int, c: int, t1: string, t2: string, t3: string, t4: string, t5: string)
    requires a < b < c
    requires t1 != t2 && t1 != t3 && t1 != t4 && t1 != t5 && t2 != t3 && t2 != t4 && t2 != t5 && t3 != t4 && t3 != t5 && t4 != t5
    ensures Requests(Tables.Empty, [a, b, c], [Call(t1, Auto), Call(t2, Auto), Call(t3, Auto), Call(t4, Auto), Call(t4, Auto), Call(t5, Auto)], 0).1
         == [Some(a), Some(b), Some(c), Some(a), Some(a), Some(b)]
  {
    OldestFirstStep1(a, b, c, t1, t2, t3, t4, t5);
    OldestFirstFrom2(a, b, c, t1, t2, t3, t4, t5);
    assert [Call(t1, Auto), Call(t2, Auto), Call(t3, Auto), Call(t4, Auto), Call(t4, Auto), Call(t5, Auto)][1..] == [Call(t2, Auto), Call(t3, Auto), Call(t4, Auto), Call(t4, Auto), Call(t5, Auto)];
  }

  /** The first run of "when all softbins are used they will be re-used oldest first". */
  lemma OldestFirstRun(a: int, b: int, c: int, t1: string, t2: string, t3: string, t4: string, t5: string)
    requires a < b < c
    requires t1 != t2 && t1 != t3 && t1 != t4 && t1 != t5 && t2 != t3 && t2 != t4 && t2 != t5 && t3 != t4 && t3 != t5 && t4 != t5
    ensures Softbins(Run(SoftbinsOnly([a, b, c]), Fresh, [Call(t1, Auto), Call(t2, Auto), Call(t3, Auto), Call(t4, Auto), Call(t4, Auto), Call(t5, Auto)]).1)
         == [Some(a), Some(b), Some(c), Some(a), Some(a), Some(b)]
  {
    assert Fresh == At(Tables.Empty, 0);
    OldestFirstFrom1(a, b, c, t1, t2, t3, t4, t5);
    SoftbinRun([a, b, c], Tables.Empty, 0, [Call(t1, Auto), Call(t2, Auto), Call(t3, Auto), Call(t4, Auto), Call(t4, Auto), Call(t5, Auto)]);
  }

  lemma OldestSecondStep1(a: int, b: int, c: int, t1: string, t2: string, t3: string, t4: string)
    requires a < b < c
    requires t1 != t2 && t1 != t3 && t1 != t4 && t2 != t3 && t2 != t4 && t3 != t4
    ensures Ref(Tables.Empty, [a, b, c], t1, None, 0).0
         == Table(map[t1 := a], {}, map[a := 0])
    ensures Ref(Tables.Empty, [a, b, c], t1, None, 0).1 == Some(a)
  {
    FirstFreeFinds([a, b, c], Tables.Empty, a);
  }

  lemma OldestSecondStep2(a: int, b: int, c: int, t1: string, t2: string, t3: string, t4: string)
    requires a < b < c
    requires t1 != t2 && t1 != t3 && t1 != t4 && t2 != t3 && t2 != t4 && t3 != t4
    ensures Ref(Table(map[t1 := a], {}, map[a := 0]), [a, b, c], t2, None, 1).0
         == Table(map[t1 := a, t2 := b], {}, map[a := 0, b := 1])
    ensures Ref(Table(map[t1 := a], {}, map[a := 0]), [a, b, c], t2, None, 1).1 == Some(b)
  {
    FirstFreeFinds([a, b, c], Table(map[t1 := a], {}, map[a := 0]), b);
  }

  lemma OldestSecondStep3(a: int, b: int, c: int, t1: string, t2: string, t3: string, t4: string)
    requires a < b < c
    requires t1 != t2 && t1 != t3 && t1 != t4 && t2 != t3 && t2 != t4 && t3 != t4
    ensures Ref(Table(map[t1 := a, t2 := b], {}, map[a := 0, b := 1]), [a, b, c], t3, None, 2).0
         == Table(map[t1 := a, t2 := b, t3 := c], {}, map[a := 0, b := 1, c := 2])
    ensures Ref(Table(map[t1 := a, t2 := b], {}, map[a := 0, b := 1]), [a, b, c], t3, None, 2).1 == Some(c)
  {
    FirstFreeFinds([a, b, c], Table(map[t1 := a, t2 := b], {}, map[a := 0, b := 1]), c);
  }

  lemma OldestSecondStep4(a: int, b: int, c: int, t1: string, t2: string, t3: string, t4: string)
    requires a < b < c
    requires t1 != t2 && t1 != t3 && t1 != t4 && t2 != t3 && t2 != t4 && t3 != t4
    ensures Ref(Table(map[t1 := a, t2 := b, t3 := c], {}, map[a := 0, b := 1, c := 2]), [a, b, c], t1, None, 3).0
         == Table(map[t1 := a, t2 := b, t3 := c], {}, map[a := 3, b := 1, c := 2])
    ensures Ref(Table(map[t1 := a, t2 := b, t3 := c], {}, map[a := 0, b := 1, c := 2]), [a, b, c], t1, None, 3).1 == Some(a)
  {
  }

  lemma OldestSecondStep5(a: int, b: int, c: int, t1: string, t2: string, t3: string, t4: string)
    requires a < b < c
    requires t1 != t2 && t1 != t3 && t1 != t4 && t2 != t3 && t2 != t4 && t3 != t4
    ensures Ref(Table(map[t1 := a, t2 := b, t3 := c], {}, map[a := 3, b := 1, c := 2]), [a, b, c], t4, None, 4).0
         == Table(map[t1 := a, t2 := b, t3 := c, t4 := b], {}, map[a := 3, b := 4, c := 2])
    ensures Ref(Table(map[t1 := a, t2 := b, t3 := c], {}, map[a := 3, b := 1, c := 2]), [a, b, c], t4, None, 4).1 == Some(b)
  {
    FirstFreeIsLowest([a, b, c], Table(map[t1 := a, t2 := b, t3 := c], {}, map[a := 3, b := 1, c := 2]));
    OldestFinds([a, b, c], Table(map[t1 := a, t2 := b, t3 := c], {}, map[a := 3, b := 1, c := 2]), b);
  }

  lemma OldestSecondFrom5(a: int, b: int, c: int, t1: string, t2: string, t3: string, t4: string)
    requires a < b < c
    requires t1 != t2 && t1 != t3 && t1 != t4 && t2 != t3 && t2 != t4 && t3 != t4
    ensures Requests(Table(map[t1 := a, t2 := b, t3 := c], {}, map[a := 3, b := 1, c := 2]), [a, b, c], [Call(t4, Auto)], 4).1
         == [Some(b)]
    ensures Requests(Table(map[t1 := a, t2 := b, t3 := c], {}, map[a := 3, b := 1, c := 2]), [a, b, c], [Call(t4, Auto)], 4).0 == Table(map[t1 := a, t2 := b, t3 := c, t4 := b], {}, map[a := 3, b := 4, c := 2])
  {
    OldestSecondStep5(a, b, c, t1, t2, t3, t4);
    assert [Call(t4, Auto)][1..] == [];
  }

  lemma OldestSecondFrom4(a: int, b: int, c: int, t1: string, t2: string, t3: string, t4: string)
    requires a < b < c
    requires t1 != t2 && t1 != t3 && t1 != t4 && t2 != t3 && t2 != t4 && t3 != t4
    ensures Requests(Table(map[t1 := a, t2 := b, t3 := c], {}, map[a := 0, b := 1, c := 2]), [a, b, c], [Call(t1, Auto), Call(t4, Auto)], 3).1
         == [Some(a), Some(b)]
    ensures Requests(Table(map[t1 := a, t2 := b, t3 := c], {}, map[a := 0, b := 1, c := 2]), [a, b, c], [Call(t1, Auto), Call(t4, Auto)], 3).0 == Table(map[t1 := a, t2 := b, t3 := c, t4 := b], {}, map[a := 3, b := 4, c := 2])
  {
    OldestSecondStep4(a, b, c, t1, t2, t3, t4);
    OldestSecondFrom5(a, b, c, t1, t2, t3, t4);
    assert [Call(t1, Auto), Call(t4, Auto)][1..] == [Call(t4, Auto)];
  }

  lemma OldestSecondFrom3(a: int, b: int, c: int, t1: string, t2: string, t3: string, t4: string)
    requires a < b < c
    requires t1 != t2 && t1 != t3 && t1 != t4 && t2 != t3 && t2 != t4 && t3 != t4
    ensures Requests(Table(map[t1 := a, t2 := b], {}, map[a := 0, b := 1]), [a, b, c], [Call(t3, Auto), Call(t1, Auto), Call(t4, Auto)], 2).1
         == [Some(c), Some(a), Some(b)]
    ensures Requests(Table(map[t1 := a, t2 := b], {}, map[a := 0, b := 1]), [a, b, c], [Call(t3, Auto), Call(t1, Auto), Call(t4, Auto)], 2).0 == Table(map[t1 := a, t2 := b, t3 := c, t4 := b], {}, map[a := 3, b := 4, c := 2])
  {
    OldestSecondStep3(a, b, c, t1, t2, t3, t4);
    OldestSecondFrom4(a, b, c, t1, t2, t3, t4);
    assert [Call(t3, Auto), Call(t1, Auto), Call(t4, Auto)][1..] == [Call(t1, Auto), Call(t4, Auto)];
  }

  lemma OldestSecondFrom2(a: int, b: int, c: int, t1: string, t2: string, t3: string, t4: string)
    requires a < b < c
    requires t1 != t2 && t1 != t3 && t1 != t4 && t2 != t3 && t2 != t4 && t3 != t4
    ensures Requests(Table(map[t1 := a], {}, map[a := 0]), [a, b, c], [Call(t2, Auto), Call(t3, Auto), Call(t1, Auto), Call(t4, Auto)], 1).1
         == [Some(b), Some(c), Some(a), Some(b)]
    ensures Requests(Table(map[t1 := a], {}, map[a := 0]), [a, b, c], [Call(t2, Auto), Call(t3, Auto), Call(t1, Auto), Call(t4, Auto)], 1).0 == Table(map[t1 := a, t2 := b, t3 := c, t4 := b], {}, map[a := 3, b := 4, c := 2])
  {
    OldestSecondStep2(a, b, c, t1, t2, t3, t4);
    OldestSecondFrom3(a, b, c, t1, t2, t3, t4);
    assert [Call(t2, Auto), Call(t3, Auto), Call(t1, Auto), Call(t4, Auto)][1..] == [Call(t3, Auto), Call(t1, Auto), Call(t4, Auto)];
  }

  lemma OldestSecondFrom1(a: int, b: int, c: int, t1: string, t2: string, t3: string, t4: string)
    requires a < b < c
    requires t1 != t2 && t1 != t3 && t1 != t4 && t2 != t3 && t2 != t4 && t3 != t4
    ensures Requests(Tables.Empty, [a, b, c], [Call(t1, Auto), Call(t2, Auto), Call(t3, Auto), Call(t1, Auto), Call(t4, Auto)], 0).1
         == [Some(a), Some(b), Some(c), Some(a), Some(b)]
    ensures Requests(Tables.Empty, [a, b, c], [Call(t1, Auto), Call(t2, Auto), Call(t3, Auto), Call(t1, Auto), Call(t4, Auto)], 0).0 == Table(map[t1 := a, t2 := b, t3 := c, t4 := b], {}, map[a := 3, b := 4, c := 2])
  {
    OldestSecondStep1(a, b, c, t1, t2, t3, t4);
    OldestSecondFrom2(a, b, c, t1, t2, t3, t4);
    assert [Call(t1, Auto), Call(t2, Auto), Call(t3, Auto), Call(t1, Auto), Call(t4, Auto)][1..] == [Call(t2, Auto), Call(t3, Auto), Call(t1, Auto), Call(t4, Auto)];
  }

  /** The second run of "when all softbins are used they will be re-used oldest first", from a fresh start. */
  lemma OldestSecondRun(a: int, b: int, c: int, t1: string, t2: string, t3: string, t4: string)
    requires a < b < c
    requires t1 != t2 && t1 != t3 && t1 != t4 && t2 != t3 && t2 != t4 && t3 != t4
    ensures Softbins(Run(SoftbinsOnly([a, b, c]), Fresh, [Call(t1, Auto), Call(t2, Auto), Call(t3, Auto), Call(t1, Auto), Call(t4, Auto)]).1)
         == [Some(a), Some(b), Some(c), Some(a), Some(b)]
    ensures Run(SoftbinsOnly([a, b, c]), Fresh, [Call(t1, Auto), Call(t2, Auto), Call(t3, Auto), Call(t1, Auto), Call(t4, Auto)]).0
         == At(Table(map[t1 := a, t2 := b, t3 := c, t4 := b], {}, map[a := 3, b := 4, c := 2]), 5)
  {
    assert Fresh == At(Tables.Empty, 0);
    OldestSecondFrom1(a, b, c, t1, t2, t3, t4);
    SoftbinRun([a, b, c], Tables.Empty, 0, [Call(t1, Auto), Call(t2, Auto), Call(t3, Auto), Call(t1, Auto), Call(t4, Auto)]);
  }

  lemma OldestThirdStep1(a: int, b: int, c: int, t1: string, t2: string, t3: string, t4: string, t5: string)
    requires a < b < c
    requires t1 != t2 && t1 != t3 && t1 != t4 && t1 != t5 && t2 != t3 && t2 != t4 && t2 != t5 && t3 != t4 && t3 != t5 && t4 != t5
    ensures Ref(Table(map[t1 := a, t2 := b, t3 := c, t4 := b], {}, map[a := 3, b := 4, c := 2]), [a, b, c], t1, None, 5).0
         == Table(map[t1 := a, t2 := b, t3 := c, t4 := b], {}, map[a := 5, b := 4, c := 2])
    ensures Ref(Table(map[t1 := a, t2 := b, t3 := c, t4 := b], {}, map[a := 3, b := 4, c := 2]), [a, b, c], t1, None, 5).1 == Some(a)
  {
  }

  lemma OldestThirdStep2(a: int, b: int, c: int, t1: string, t2: string, t3: string, t4: string, t5: string)
    requires a < b < c
    requires t1 != t2 && t1 != t3 && t1 != t4 && t1 != t5 && t2 != t3 && t2 != t4 && t2 != t5 && t3 != t4 && t3 != t5 && t4 != t5
    ensures Ref(Table(map[t1 := a, t2 := b, t3 := c, t4 := b], {}, map[a := 5, b := 4, c := 2]), [a, b, c], t2, None, 6).0
         == Table(map[t1 := a, t2 := b, t3 := c, t4 := b], {}, map[a := 5, b := 6, c := 2])
    ensures Ref(Table(map[t1 := a, t2 := b, t3 := c, t4 := b], {}, map[a := 5, b := 4, c := 2]), [a, b, c], t2, None, 6).1 == Some(b)
  {
  }

  lemma OldestThirdStep3(a: int, b: int, c: int, t1: string, t2: string, t3: string, t4: string, t5: string)
    requires a < b < c
    requires t1 != t2 && t1 != t3 && t1 != t4 && t1 != t5 && t2 != t3 && t2 != t4 && t2 != t5 && t3 != t4 && t3 != t5 && t4 != t5
    ensures Ref(Table(map[t1 := a, t2 := b, t3 := c, t4 := b], {}, map[a := 5, b := 6, c := 2]), [a, b, c], t3, None, 7).0
         == Table(map[t1 := a, t2 := b, t3 := c, t4 := b], {}, map[a := 5, b := 6, c := 7])
    ensures Ref(Table(map[t1 := a, t2 := b, t3 := c, t4 := b], {}, map[a := 5, b := 6, c := 2]), [a, b, c], t3, None, 7).1 == Some(c)
  {
  }

  lemma OldestThirdStep4(a: int, b: int, c: int, t1: string, t2: string, t3: string, t4: string, t5: string)
    requires a < b < c
    requires t1 != t2 && t1 != t3 && t1 != t4 && t1 != t5 && t2 != t3 && t2 != t4 && t2 != t5 && t3 != t4 && t3 != t5 && t4 != t5
    ensures Ref(Table(map[t1 := a, t2 := b, t3 := c, t4 := b], {}, map[a := 5, b := 6, c := 7]), [a, b, c], t1, None, 8).0
         == Table(map[t1 := a, t2 := b, t3 := c, t4 := b], {}, map[a := 8, b := 6, c := 7])
    ensures Ref(Table(map[t1 := a, t2 := b, t3 := c, t4 := b], {}, map[a := 5, b := 6, c := 7]), [a, b, c], t1, None, 8).1 == Some(a)
  {
  }

  lemma OldestThirdStep5(a: int, b: int, c: int, t1: string, t2: string, t3: string, t4: string, t5: string)
    requires a < b < c
    requires t1 != t2 && t1 != t3 && t1 != t4 && t1 != t5 && t2 != t3 && t2 != t4 && t2 != t5 && t3 != t4 && t3 != t5 && t4 != t5
    ensures Ref(Table(map[t1 := a, t2 := b, t3 := c, t4 := b], {}, map[a := 8, b := 6, c := 7]), [a, b, c], t4, None, 9).0
         == Table(map[t1 := a, t2 := b, t3 := c, t4 := b], {}, map[a := 8, b := 9, c := 7])
    ensures Ref(Table(map[t1 := a, t2 := b, t3 := c, t4 := b], {}, map[a := 8, b := 6, c := 7]), [a, b, c], t4, None, 9).1 == Some(b)
  {
  }

  lemma OldestThirdStep6(a: int, b: int, c: int, t1: string, t2: string, t3: string, t4: string, t5: string)
    requires a < b < c
    requires t1 != t2 && t1 != t3 && t1 != t4 && t1 != t5 && t2 != t3 && t2 != t4 && t2 != t5 && t3 != t4 && t3 != t5 && t4 != t5
    ensures Ref(Table(map[t1 := a, t2 := b, t3 := c, t4 := b], {}, map[a := 8, b := 9, c := 7]), [a, b, c], t5, None, 10).0
         == Table(map[t1 := a, t2 := b, t3 := c, t4 := b, t5 := c], {}, map[a := 8, b := 9, c := 10])
    ensures Ref(Table(map[t1 := a, t2 := b, t3 := c, t4 := b], {}, map[a := 8, b := 9, c := 7]), [a, b, c], t5, None, 10).1 == Some(c)
  {
    FirstFreeIsLowest([a, b, c], Table(map[t1 := a, t2 := b, t3 := c, t4 := b], {}, map[a := 8, b := 9, c := 7]));
    OldestFinds([a, b, c], Table(map[t1 := a, t2 := b, t3 := c, t4 := b], {}, map[a := 8, b := 9, c := 7]), c);
  }

  lemma OldestThirdFrom6(a: int, b: int, c: int, t1: string, t2: string, t3: string, t4: string, t5: string)
    requires a < b < c
    requires t1 != t2 && t1 != t3 && t1 != t4 && t1 != t5 && t2 != t3 && t2 != t4 && t2 != t5 && t3 != t4 && t3 != t5 && t4 != t5
    ensures Requests(Table(map[t1 := a, t2 := b, t3 := c, t4 := b], {}, map[a := 8, b := 9, c := 7]), [a, b, c], [Call(t5, Auto)], 10).1
         == [Some(c)]
  {
    OldestThirdStep6(a, b, c, t1, t2, t3, t4, t5);
    assert [Call(t5, Auto)][1..] == [];
  }

  lemma OldestThirdFrom5(a: int, b: int, c: int, t1: string, t2: string, t3: string, t4: string, t5: string)
    requires a < b < c
    requires t1 != t2 && t1 != t3 && t1 != t4 && t1 != t5 && t2 != t3 && t2 != t4 && t2 != t5 && t3 != t4 && t3 != t5 && t4 != t5
    ensures Requests(Table(map[t1 := a, t2 := b, t3 := c, t4 := b], {}, map[a := 8, b := 6, c := 7]), [a, b, c], [Call(t4, Auto), Call(t5, Auto)], 9).1
         == [Some(b), Some(c)]
  {
    OldestThirdStep5(a, b, c, t1, t2, t3, t4, t5);
    OldestThirdFrom6(a, b, c, t1, t2, t3, t4, t5);
    assert [Call(t4, Auto), Call(t5, Auto)][1..] == [Call(t5, Auto)];
  }

  lemma OldestThirdFrom4(a: int, b: int, c: int, t1: string, t2: string, t3: string, t4: string, t5: string)
    requires a < b < c
    requires t1 != t2 && t1 != t3 && t1 != t4 && t1 != t5 && t2 != t3 && t2 != t4 && t2 != t5 && t3 != t4 && t3 != t5 && t4 != t5
    ensures Requests(Table(map[t1 := a, t2 := b, t3 := c, t4 := b], {}, map[a := 5, b := 6, c := 7]), [a, b, c], [Call(t1, Auto), Call(t4, Auto), Call(t5, Auto)], 8).1
         == [Some(a), Some(b), Some(c)]
  {
    OldestThirdStep4(a, b, c, t1, t2, t3, t4, t5);
    OldestThirdFrom5(a, b, c, t1, t2, t3, t4, t5);
    assert [Call(t1, Auto), Call(t4, Auto), Call(t5, Auto)][1..] == [Call(t4, Auto), Call(t5, Auto)];
  }

  lemma OldestThirdFrom3(a: int, b: int, c: int, t1: string, t2: string, t3: string, t4: string, t5: string)
    requires a < b < c
    requires t1 != t2 && t1 != t3 && t1 != t4 && t1 != t5 && t2 != t3 && t2 != t4 && t2 != t5 && t3 != t4 && t3 != t5 && t4 != t5
    ensures Requests(Table(map[t1 := a, t2 := b, t3 := c, t4 := b], {}, map[a := 5, b := 6, c := 2]), [a, b, c], [Call(t3, Auto), Call(t1, Auto), Call(t4, Auto), Call(t5, Auto)], 7).1
         == [Some(c), Some(a), Some(b), Some(c)]
  {
    OldestThirdStep3(a, b, c, t1, t2, t3, t4, t5);
    OldestThirdFrom4(a, b, c, t1, t2, t3, t4, t5);
    assert [Call(t3, Auto), Call(t1, Auto), Call(t4, Auto), Call(t5, Auto)][1..] == [Call(t1, Auto), Call(t4, Auto), Call(t5, Auto)];
  }

  lemma OldestThirdFrom2(a: int, b: int, c: int, t1: string, t2: string, t3: string, t4: string, t5: string)
    requires a < b < c
    requires t1 != t2 && t1 != t3 && t1 != t4 && t1 != t5 && t2 != t3 && t2 != t4 && t2 != t5 && t3 != t4 && t3 != t5 && t4 != t5
    ensures Requests(Table(map[t1 := a, t2 := b, t3 := c, t4 := b], {}, map[a := 5, b := 4, c := 2]), [a, b, c], [Call(t2, Auto), Call(t3, Auto), Call(t1, Auto), Call(t4, Auto), Call(t5, Auto)], 6).1
         == [Some(b), Some(c), Some(a), Some(b), Some(c)]
  {
    OldestThirdStep2(a, b, c, t1, t2, t3, t4, t5);
    OldestThirdFrom3(a, b, c, t1, t2, t3, t4, t5);
    assert [Call(t2, Auto), Call(t3, Auto), Call(t1, Auto), Call(t4, Auto), Call(t5, Auto)][1..] == [Call(t3, Auto), Call(t1, Auto), Call(t4, Auto), Call(t5, Auto)];
  }

  lemma OldestThirdFrom1(a: int, b: int, c: int, t1: string, t2: string, t3: string, t4: string, t5: string)
    requires a < b < c
    requires t1 != t2 && t1 != t3 && t1 != t4 && t1 != t5 && t2 != t3 && t2 != t4 && t2 != t5 && t3 != t4 && t3 != t5 && t4 != t5
    ensures Requests(Table(map[t1 := a, t2 := b, t3 := c, t4 := b], {}, map[a := 3, b := 4, c := 2]), [a, b, c], [Call(t1, Auto), Call(t2, Auto), Call(t3, Auto), Call(t1, Auto), Call(t4, Auto), Call(t5, Auto)], 5).1
         == [Some(a), Some(b), Some(c), Some(a), Some(b), Some(c)]
  {
    OldestThirdStep1(a, b, c, t1, t2, t3, t4, t5);
    OldestThirdFrom2(a, b, c, t1, t2, t3, t4, t5);
    assert [Call(t1, Auto), Call(t2, Auto), Call(t3, Auto), Call(t1, Auto), Call(t4, Auto), Call(t5, Auto)][1..] == [Call(t2, Auto), Call(t3, Auto), Call(t1, Auto), Call(t4, Auto), Call(t5, Auto)];
  }

  /** The third run of "when all softbins are used they will be re-used oldest first", from what the second saved. */
  lemma OldestThirdRun(a: int, b: int, c: int, t1: string, t2: string, t3: string, t4: string, t5: string)
    requires a < b < c
    requires t1 != t2 && t1 != t3 && t1 != t4 && t1 != t5 && t2 != t3 && t2 != t4 && t2 != t5 && t3 != t4 && t3 != t5 && t4 != t5
    ensures Softbins(Run(SoftbinsOnly([a, b, c]), At(Table(map[t1 := a, t2 := b, t3 := c, t4 := b], {}, map[a := 3, b := 4, c := 2]), 5), [Call(t1, Auto), Call(t2, Auto), Call(t3, Auto), Call(t1, Auto), Call(t4, Auto), Call(t5, Auto)]).1)
         == [Some(a), Some(b), Some(c), Some(a), Some(b), Some(c)]
  {
    OldestThirdFrom1(a, b, c, t1, t2, t3, t4, t5);
    SoftbinRun([a, b, c], Table(map[t1 := a, t2 := b, t3 := c, t4 := b], {}, map[a := 3, b := 4, c := 2]), 5, [Call(t1, Auto), Call(t2, Auto), Call(t3, Auto), Call(t1, Auto), Call(t4, Auto), Call(t5, Auto)]);
  }


  /** "manually assigned softbins are reserved": the four calls in one run. */
  lemma ManualSoftbinsAreReserved(a: int, b: int, c: int, d: int, t1: string, t2: string, t3: string, t4: string)
    requires a < b < c < d
    requires t1 != t2 && t1 != t3 && t1 != t4 && t2 != t3 && t2 != t4 && t3 != t4
    ensures Softbins(Run(SoftbinsOnly([a, b, c, d]), Fresh,
                         [Call(t1, Auto), Call(t2, GivenSoftbin(c)), Call(t3, Auto), Call(t4, Auto)]).1)
         == [Some(a), Some(c), Some(b), Some(d)]
  {
    var first, rest := [Call(t1, Auto), Call(t2, GivenSoftbin(c))], [Call(t3, Auto), Call(t4, Auto)];
    OverrideFirstRun(a, b, c, d, t1, t2);
    OverrideThenRun(a, b, c, d, t1, t2, t3, t4);
    ResumedSoftbins(SoftbinsOnly([a, b, c, d]), Fresh, first, rest);
    assert first + rest == [Call(t1, Auto), Call(t2, GivenSoftbin(c)), Call(t3, Auto), Call(t4, Auto)];
  }

  /** "the system can be saved to a file and resumed": the override survives the save and stays reserved. */
  lemma SavedAndResumed(a: int, b: int, c: int, d: int, t1: string, t2: string, t3: string, t4: string)
    requires a < b < c < d
    requires t1 != t2 && t1 != t3 && t1 != t4 && t2 != t3 && t2 != t4 && t3 != t4
    ensures var cfg := SoftbinsOnly([a, b, c, d]);
      var (saved, first) := Run(cfg, Fresh, [Call(t1, Auto), Call(t2, GivenSoftbin(c))]);
      && Softbins(first) == [Some(a), Some(c)]
      && Softbins(Run(cfg, saved, [Call(t3, Auto), Call(t4, Auto)]).1) == [Some(b), Some(d)]
  {
    OverrideFirstRun(a, b, c, d, t1, t2);
    OverrideThenRun(a, b, c, d, t1, t2, t3, t4);
  }

  /**
    "previously assigned manual softbins are reclaimed next time": the manual
    claim on the second softbin displaced t2, which in the next run gets the
    next free softbin while t3 keeps its claim.
  */
  lemma ManualClaimsPersist(a: int, b: int, c: int, d: int, t1: string, t2: string, t3: string)
    requires a < b < c < d
    requires t1 != t2 && t1 != t3 && t2 != t3
    ensures var cfg := SoftbinsOnly([a, b, c, d]);
      var calls := [Call(t1, Auto), Call(t2, Auto), Call(t3, GivenSoftbin(b))];
      var (saved, first) := Run(cfg, Fresh, calls);
      && Softbins(first) == [Some(a), Some(b), Some(b)]
      && Softbins(Run(cfg, saved, calls).1) == [Some(a), Some(c), Some(b)]
  {
    ReclaimFirstRun(a, b, c, d, t1, t2, t3);
    ReclaimSecondRun(a, b, c, d, t1, t2, t3);
  }

  /**
    "when all softbins are used they will be re-used oldest first": a new
    name gets the softbin referenced longest ago, and a reference refreshes a
    softbin for every name sharing it, in a fresh run and in a resumed one.
  */
  lemma ReusedOldestFirst(a: int, b: int, c: int, t1: string, t2: string, t3: string, t4: string, t5: string)
    requires a < b < c
    requires t1 != t2 && t1 != t3 && t1 != t4 && t1 != t5 && t2 != t3 && t2 != t4 && t2 != t5 && t3 != t4 && t3 != t5 && t4 != t5
    ensures var cfg := SoftbinsOnly([a, b, c]);
      && Softbins(Run(cfg, Fresh, [Call(t1, Auto), Call(t2, Auto), Call(t3, Auto), Call(t4, Auto), Call(t4, Auto), Call(t5, Auto)]).1)
         == [Some(a), Some(b), Some(c), Some(a), Some(a), Some(b)]
      && var (saved, second) := Run(cfg, Fresh, [Call(t1, Auto), Call(t2, Auto), Call(t3, Auto), Call(t1, Auto), Call(t4, Auto)]);
         && Softbins(second) == [Some(a), Some(b), Some(c), Some(a), Some(b)]
         && Softbins(Run(cfg, saved, [Call(t1, Auto), Call(t2, Auto), Call(t3, Auto), Call(t1, Auto), Call(t4, Auto), Call(t5, Auto)]).1)
            == [Some(a), Some(b), Some(c), Some(a), Some(b), Some(c)]
  {
    OldestFirstRun(a, b, c, t1, t2, t3, t4, t5);
    OldestSecondRun(a, b, c, t1, t2, t3, t4);
    OldestThirdRun(a, b, c, t1, t2, t3, t4, t5);
  }

  /** The example itself, with softbins 1..3 and the test's names. */
  lemma ReusedOldestFirstExample()
    ensures var cfg := SoftbinsOnly([1, 2, 3]);
      Softbins(Run(cfg, Fresh, [Call("t1", Auto), Call("t2", Auto), Call("t3", Auto), Call("t4", Auto), Call("t4", Auto), Call("t5", Auto)]).1)
      == [Some(1), Some(2), Some(3), Some(1), Some(1), Some(2)]
  {
    ReusedOldestFirst(1, 2, 3, "t1", "t2", "t3", "t4", "t5");
  }

  // ---------------------------------------------------------------------------
  // Softbins derived from the bin.

  /** The increments of `:bx` are the digits in ascending order, each at its own index. */
  lemma IncrementsAscend()
    ensures Increasing(Increments) && |Increments| == 10
    ensures forall i | 0 <= i < 10 :: Increments[i] == i
  {
  }

  /** Bins from `bins.include`, softbins derived by `scheme`, numbers not configured. */
  function DerivedSoftbins(binPool: seq<int>, scheme: Scheme): Settings {
    Settings(binPool, Derived(scheme), Ranged([]))
  }

  /**
    On a fresh start, distinct new names get the bins in ascending order, and
    with `:bbb000` or a callback each softbin is derived from the name's bin.
  */
  lemma DerivedFreshRun(binPool: seq<int>, scheme: Scheme, names: seq<string>)
    requires Increasing(binPool) && Distinct(names) && |names| <= |binPool| && !scheme.Bx?
    ensures var ids := Run(DerivedSoftbins(binPool, scheme), Fresh, Calls(names)).1;
      forall i | 0 <= i < |names| ::
        ids[i].bin == Some(binPool[i]) && ids[i].softbin == Some(Compose(scheme, binPool[i], 0))
  {
    var cfg := DerivedSoftbins(binPool, scheme);
    BinsOfRun(cfg, Fresh, names);
    FillInOrder(binPool, names, 0);
    DerivedOfRun(cfg, Fresh, names);
  }

  /**
    "the softbins can be generated from an algorithm": with `:bbb000`, each
    of three new names gets the next bin b and the softbin b * 1000, whatever
    the three ascending bins and the three distinct names.
  */
  lemma SoftbinsFromAlgorithm(a: int, b: int, c: int, t1: string, t2: string, t3: string)
    requires a < b < c
    requires t1 != t2 && t1 != t3 && t2 != t3
    ensures var ids := Run(DerivedSoftbins([a, b, c], Bbb000), Fresh, Calls([t1, t2, t3])).1;
      && Bins(ids) == [Some(a), Some(b), Some(c)]
      && Softbins(ids) == [Some(a * 1000), Some(b * 1000), Some(c * 1000)]
  {
    assert Distinct([t1, t2, t3]);
    DerivedFreshRun([a, b, c], Bbb000, [t1, t2, t3]);
  }

  /** "the softbins can be generated from a callback": with `bin * 3`, bin b gets softbin 3b. */
  lemma SoftbinsFromCallback(a: int, b: int, c: int, t1: string, t2: string, t3: string)
    requires a < b < c
    requires t1 != t2 && t1 != t3 && t2 != t3
    ensures var ids := Run(DerivedSoftbins([a, b, c], Callback(bin => bin * 3)), Fresh, Calls([t1, t2, t3])).1;
      && Bins(ids) == [Some(a), Some(b), Some(c)]
      && Softbins(ids) == [Some(a * 3), Some(b * 3), Some(c * 3)]
  {
    assert Distinct([t1, t2, t3]);
    DerivedFreshRun([a, b, c], Callback(bin => bin * 3), [t1, t2, t3]);
  }

  /** Increments handed out as `incs` give the softbins x0..x9 and then x0..xm again. */
  lemma WrappedSoftbins(x: int, ids: seq<Ids>, incs: seq<Option<int>>, pool: seq<int>, m: nat)
    requires BxShaped(x, ids, incs) && |pool| == 10 && m < 10 && |incs| == 10 + m + 1
    requires forall i | 0 <= i < 10 :: pool[i] == i
    requires forall i | 0 <= i < 10 :: incs[i] == Some(pool[i])
    requires forall i | 0 <= i <= m :: incs[10 + i] == Some(pool[i])
    ensures forall i | 0 <= i < |ids| :: ids[i].bin == Some(x)
    ensures forall i | 0 <= i < |ids| :: ids[i].softbin == Some(x * 10 + (if i < 10 then i else i - 10))
  {
    forall i | 0 <= i < |ids|
      ensures ids[i].softbin == Some(x * 10 + (if i < 10 then i else i - 10))
    {
      if i < 10 {
        assert incs[i] == Some(pool[i]);
      } else {
        assert incs[10 + (i - 10)] == Some(pool[i - 10]);
      }
    }
  }

  /**
    `:bx` with the single bin x: ten distinct names take the increments 0..9
    in order; once the first m of them are referenced again, the next new name
    shares increment m, the one referenced longest ago.
  */
  lemma BxIncrementsWrap(x: int, names: seq<string>, m: nat, newcomer: string)
    requires Distinct(names) && |names| == 10 && m < 10 && newcomer !in names
    ensures var ids := Run(DerivedSoftbins([x], Bx), Fresh, Calls(names + (names[..m] + [newcomer]))).1;
      && |ids| == 10 + m + 1
      && (forall i | 0 <= i < |ids| :: ids[i].bin == Some(x))
      && (forall i | 0 <= i < |ids| :: ids[i].softbin == Some(x * 10 + (if i < 10 then i else i - 10)))
  {
    var all := names + (names[..m] + [newcomer]);
    var cfg := DerivedSoftbins([x], Bx);
    assert OnlyHolds(Fresh.bins, x);
    BxOfRun(cfg, Fresh, all);
    assert CounterOf(Fresh.softbins.counters, x) == Tables.Empty;
    IncrementsAscend();
    ReuseOldest(Increments, names, m, 0, newcomer);
    WrappedSoftbins(x, Run(cfg, Fresh, Calls(all)).1, RefAll(Tables.Empty, Increments, all, 0).1, Increments, m);
  }

  /**
    "algorithm based softbins can include an increment counter": bin 3, ten
    new names, three of them again, then an eleventh name.
  */
  lemma IncrementCounter(names: seq<string>, newcomer: string)
    requires Distinct(names) && |names| == 10 && newcomer !in names
    ensures var sbs := Softbins(Run(DerivedSoftbins([3], Bx), Fresh, Calls(names + (names[..3] + [newcomer]))).1);
      && |sbs| == 14
      && (forall i | 0 <= i < 10 :: sbs[i] == Some(30 + i))
      && (forall i | 10 <= i < 14 :: sbs[i] == Some(30 + (i - 10)))
  {
    BxIncrementsWrap(3, names, 3, newcomer);
    ThirtiesWrapped(Run(DerivedSoftbins([3], Bx), Fresh, Calls(names + (names[..3] + [newcomer]))).1);
  }

  /** Softbins 30..39 and then 30..33, read off the calls one by one. */
  lemma ThirtiesWrapped(ids: seq<Ids>)
    requires |ids| == 14
    requires forall i | 0 <= i < |ids| :: ids[i].softbin == Some(3 * 10 + (if i < 10 then i else i - 10))
    ensures var sbs := Softbins(ids);
      && |sbs| == 14
      && (forall i | 0 <= i < 10 :: sbs[i] == Some(30 + i))
      && (forall i | 10 <= i < 14 :: sbs[i] == Some(30 + (i - 10)))
  {
  }
}

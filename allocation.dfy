/**
  The allocator behind `TestIds.allocator.allocate(name, options)`, as the
  examples of spec/softbin_allocator_spec.rb pin it down. One call resolves
  the bin of a name from the bins table, then the softbin and the number,
  each either from its own table or derived from the bin. `save` persists the
  whole state as a snapshot, and a later run resumes from it.
*/
module Allocation {
  import opened Wrappers
  import opened Pools
  import opened Tables
  import opened Derivation
  import Configuration

  /** How a dependent dimension gets its values. */
  datatype Mode =
    | Ranged(pool: seq<int>)    // from its own candidate pool
    | Derived(scheme: Scheme)   // from the bin of the same name
    | Unsupported(tag: string)  // an algorithm tag no scheme answers to

  /** What a run is configured with: the bin pool and the modes of the two dependent dimensions. */
  datatype Settings = Settings(binPool: seq<int>, softbin: Mode, number: Mode)

  predicate ModeValid(m: Mode) {
    m.Ranged? ==> Increasing(m.pool)
  }

  predicate SettingsValid(cfg: Settings) {
    Increasing(cfg.binPool) && ModeValid(cfg.softbin) && ModeValid(cfg.number)
  }

  /** The state of a dependent dimension: its own table, and for `:bx` one increment table per bin. */
  datatype Dim = Dim(table: Table, counters: map<int, Table>)

  const EmptyDim: Dim := Dim(Tables.Empty, map[])

  /** Everything a run has allocated: what `save` writes and a later run resumes from. */
  datatype Snapshot = Snapshot(bins: Table, softbins: Dim, numbers: Dim, clock: nat)

  /** The state of a run that starts with nothing stored. */
  const Fresh: Snapshot := Snapshot(Tables.Empty, EmptyDim, EmptyDim, 0)

  /**
    An increment table is consistent, holds only digits, and never a manual
    value: nobody passes an increment explicitly.
  */
  predicate CounterValid(c: Table, clock: nat) {
    Valid(c, clock) && c.manual == {} && forall v | v in c.refs :: 0 <= v < 10
  }

  predicate DimValid(d: Dim, clock: nat) {
    && Valid(d.table, clock)
    && forall b | b in d.counters :: CounterValid(d.counters[b], clock)
  }

  predicate SnapshotValid(s: Snapshot) {
    Valid(s.bins, s.clock) && DimValid(s.softbins, s.clock) && DimValid(s.numbers, s.clock)
  }

  /** The `options` of a call: an explicit value per dimension, or `None`. */
  datatype Options = Options(bin: Option<int>, softbin: Option<int>, number: Option<int>)

  const Auto: Options := Options(None, None, None)

  /** What a call assigns; `None` where a dimension gets no value. */
  datatype Ids = Ids(bin: Option<int>, softbin: Option<int>, number: Option<int>)

  /** The increment table of `bin`; a bin that never had one starts from an empty table. */
  function CounterOf(counters: map<int, Table>, bin: int): Table {
    if bin in counters then counters[bin] else Tables.Empty
  }

  /** Derives a value from `bin`; `:bx` takes its increment from the bin's own increment table. */
  function Derive(scheme: Scheme, counters: map<int, Table>, bin: int, name: string, now: nat): (r: (map<int, Table>, Option<int>))
    ensures forall b | b in counters && b != bin :: b in r.0 && r.0[b] == counters[b]
    ensures r.0.Keys <= counters.Keys + {bin}
    ensures !scheme.Bx? ==> r.0 == counters && r.1.Some?
  {
    if scheme.Bx? then
      var pick := Ref(CounterOf(counters, bin), Increments, name, None, now);
      (counters[bin := pick.0], if pick.1.Some? then Some(Compose(Bx, bin, pick.1.value)) else None)
    else
      (counters, Some(Compose(scheme, bin, 0)))
  }

  /**
    Resolves one dependent dimension. A ranged dimension asks its own table; a
    derived one keeps an explicit value as given and otherwise derives from
    the bin, when there is one.
  */
  function Resolve(mode: Mode, d: Dim, bin: Option<int>, name: string, explicit: Option<int>, now: nat): (r: (Dim, Option<int>))
    ensures mode.Ranged? ==> r.0.counters == d.counters
    ensures !mode.Ranged? ==> r.0.table == d.table
    ensures !mode.Ranged? && explicit.Some? ==> r == (d, explicit)
    ensures mode.Derived? && explicit.None? && bin.None? ==> r == (d, None)
  {
    match mode
    case Ranged(pool) =>
      var (t', r) := Ref(d.table, pool, name, explicit, now);
      (d.(table := t'), r)
    case Derived(scheme) =>
      if explicit.Some? then (d, explicit)
      else if bin.None? then (d, None)
      else
        var (c', r) := Derive(scheme, d.counters, bin.value, name, now);
        (d.(counters := c'), r)
    case Unsupported(_) =>
      (d, explicit)
  }

  /** One `allocate(name, options)` call: bin first, then softbin and number; the clock moves on by one. */
  function Step(cfg: Settings, s: Snapshot, name: string, opts: Options): (r: (Snapshot, Ids))
    ensures r.0.clock == s.clock + 1
    ensures name in s.bins.byName ==> r.1.bin == Some(s.bins.byName[name])
    ensures name !in s.bins.byName && opts.bin.Some? ==> r.1.bin == opts.bin
    ensures r.1.bin.None? ==> r.0.bins == s.bins
    ensures cfg.softbin.Ranged? && name in s.softbins.table.byName ==> r.1.softbin == Some(s.softbins.table.byName[name])
    ensures cfg.number.Ranged? && name in s.numbers.table.byName ==> r.1.number == Some(s.numbers.table.byName[name])
  {
    var (bins', bin) := Ref(s.bins, cfg.binPool, name, opts.bin, s.clock);
    var (softbins', softbin) := Resolve(cfg.softbin, s.softbins, bin, name, opts.softbin, s.clock);
    var (numbers', number) := Resolve(cfg.number, s.numbers, bin, name, opts.number, s.clock);
    (Snapshot(bins', softbins', numbers', s.clock + 1), Ids(bin, softbin, number))
  }

  datatype Call = Call(name: string, opts: Options)

  /** A sequence of calls in order, with what each one assigned. */
  function Run(cfg: Settings, s: Snapshot, calls: seq<Call>): (r: (Snapshot, seq<Ids>))
    ensures |r.1| == |calls|
    ensures r.0.clock == s.clock + |calls|
    decreases |calls|
  {
    if calls == [] then (s, [])
    else
      var (s1, ids) := Step(cfg, s, calls[0].name, calls[0].opts);
      var (s2, rest) := Run(cfg, s1, calls[1..]);
      (s2, [ids] + rest)
  }

  /** A run of automatic requests, one per name. */
  function Calls(names: seq<string>): (r: seq<Call>)
    ensures |r| == |names|
    ensures forall i | 0 <= i < |names| :: r[i] == Call(names[i], Auto)
  {
    if names == [] then [] else [Call(names[0], Auto)] + Calls(names[1..])
  }

  /** The bins a run assigned, call by call. */
  function Bins(ids: seq<Ids>): (r: seq<Option<int>>)
    ensures |r| == |ids|
    ensures forall i | 0 <= i < |ids| :: r[i] == ids[i].bin
  {
    if ids == [] then [] else [ids[0].bin] + Bins(ids[1..])
  }

  /** The softbins a run assigned, call by call. */
  function Softbins(ids: seq<Ids>): (r: seq<Option<int>>)
    ensures |r| == |ids|
    ensures forall i | 0 <= i < |ids| :: r[i] == ids[i].softbin
  {
    if ids == [] then [] else [ids[0].softbin] + Softbins(ids[1..])
  }

  /**
    A run that is saved after some calls and resumed for the rest assigns what
    one uninterrupted run would, and ends in the same state.
  */
  lemma {:induction false} RunAppend(cfg: Settings, s: Snapshot, first: seq<Call>, rest: seq<Call>)
    ensures var saved := Run(cfg, s, first).0;
      && Run(cfg, s, first + rest).0 == Run(cfg, saved, rest).0
      && Run(cfg, s, first + rest).1 == Run(cfg, s, first).1 + Run(cfg, saved, rest).1
    decreases |first|
  {
    if first == [] {
      assert first + rest == rest;
    } else {
      var (s1, ids) := Step(cfg, s, first[0].name, first[0].opts);
      assert (first + rest)[0] == first[0];
      assert (first + rest)[1..] == first[1..] + rest;
      RunAppend(cfg, s1, first[1..], rest);
      var a := Run(cfg, s1, first[1..]).1;
      var b := Run(cfg, Run(cfg, s1, first[1..]).0, rest).1;
      assert [ids] + (a + b) == ([ids] + a) + b;
    }
  }

  /** Every run keeps the whole state consistent. */
  lemma {:induction false} RunPreservesValid(cfg: Settings, s: Snapshot, calls: seq<Call>)
    requires SnapshotValid(s)
    ensures SnapshotValid(Run(cfg, s, calls).0)
    decreases |calls|
  {
    if calls != [] {
      StepPreservesValid(cfg, s, calls[0].name, calls[0].opts);
      RunPreservesValid(cfg, Step(cfg, s, calls[0].name, calls[0].opts).0, calls[1..]);
    }
  }

  // ---------------------------------------------------------------------------
  // Properties of a call.

  lemma DeriveKeepsValid(scheme: Scheme, counters: map<int, Table>, bin: int, name: string, now: nat)
    requires forall b | b in counters :: CounterValid(counters[b], now)
    ensures var c' := Derive(scheme, counters, bin, name, now).0;
      forall b | b in c' :: CounterValid(c'[b], now + 1)
  {
    var c := CounterOf(counters, bin);
    RefPreservesValid(c, Increments, name, None, now);
    RefAutoStaysInDigits(c, name, now);
    forall b | b in counters && b != bin
      ensures Valid(counters[b], now + 1)
    {
      ValidLater(counters[b], now, now + 1);
    }
  }

  lemma ResolveKeepsValid(mode: Mode, d: Dim, bin: Option<int>, name: string, explicit: Option<int>, now: nat)
    requires DimValid(d, now)
    ensures DimValid(Resolve(mode, d, bin, name, explicit, now).0, now + 1)
  {
    forall b | b in d.counters
      ensures Valid(d.counters[b], now + 1)
    {
      ValidLater(d.counters[b], now, now + 1);
    }
    ValidLater(d.table, now, now + 1);
    match mode
    case Ranged(pool) =>
      RefPreservesValid(d.table, pool, name, explicit, now);
    case Derived(scheme) =>
      if explicit.None? && bin.Some? {
        DeriveKeepsValid(scheme, d.counters, bin.value, name, now);
      }
    case Unsupported(_) =>
  }

  /** Every call keeps the whole state consistent. */
  lemma StepPreservesValid(cfg: Settings, s: Snapshot, name: string, opts: Options)
    requires SnapshotValid(s)
    ensures SnapshotValid(Step(cfg, s, name, opts).0)
  {
    RefPreservesValid(s.bins, cfg.binPool, name, opts.bin, s.clock);
    ResolveKeepsValid(cfg.softbin, s.softbins, Ref(s.bins, cfg.binPool, name, opts.bin, s.clock).1, name, opts.softbin, s.clock);
    ResolveKeepsValid(cfg.number, s.numbers, Ref(s.bins, cfg.binPool, name, opts.bin, s.clock).1, name, opts.number, s.clock);
  }

  lemma RefAutoStaysInDigits(c: Table, name: string, now: nat)
    requires CounterValid(c, now)
    ensures var (c', r) := Ref(c, Increments, name, None, now);
      (forall v | v in c'.refs :: 0 <= v < 10) && (r.Some? ==> 0 <= r.value < 10)
  {
    var (c', r) := Ref(c, Increments, name, None, now);
    forall v | v in c.refs
      ensures v in Increments
    {
      IncrementsAreDigits(v);
    }
    RefAutoStaysInPool(c, Increments, name, now);
    forall v | v in c'.refs
      ensures 0 <= v < 10
    {
      IncrementsAreDigits(v);
    }
    if r.Some? {
      IncrementsAreDigits(r.value);
    }
  }

  /** An increment table always has an increment to give, one of the ten digits. */
  lemma IncrementAlwaysFound(c: Table, name: string, now: nat)
    requires CounterValid(c, now)
    ensures var r := Ref(c, Increments, name, None, now).1; r.Some? && 0 <= r.value < 10
  {
    assert Increasing(Increments);
    RefAutoStaysInDigits(c, name, now);
    if name !in c.byName {
      FirstFreeIsLowest(Increments, c);
      if FirstFree(Increments, c).None? {
        assert Reclaimable(c, 0);
        OldestIsLeastRecent(Increments, c);
      }
    }
  }

  /**
    A derived dimension without an explicit value: `:bbb000` gives bin * 1000,
    a callback gives f(bin), and `:bx` gives bin * 10 + an increment in 0..9,
    the one the bin's increment table hands this name.
  */
  lemma DerivedValue(cfg: Settings, s: Snapshot, name: string, opts: Options)
    requires SnapshotValid(s) && cfg.softbin.Derived? && opts.softbin.None?
    ensures var ids := Step(cfg, s, name, opts).1;
      && (ids.bin.None? ==> ids.softbin.None?)
      && (ids.bin.Some? ==> var b := ids.bin.value;
            match cfg.softbin.scheme
            case Bbb000 => ids.softbin == Some(b * 1000)
            case Callback(f) => ids.softbin == Some(f(b))
            case Bx =>
              var c := CounterOf(s.softbins.counters, b);
              var inc := Ref(c, Increments, name, None, s.clock).1;
              inc.Some? && 0 <= inc.value < 10 && ids.softbin == Some(b * 10 + inc.value))
  {
    var bin := Ref(s.bins, cfg.binPool, name, opts.bin, s.clock).1;
    if bin.Some? && cfg.softbin.scheme.Bx? {
      var b := bin.value;
      var c := CounterOf(s.softbins.counters, b);
      IncrementAlwaysFound(c, name, s.clock);
    }
  }

  /** A derived dimension keeps a caller-supplied value exactly as given. */
  lemma DerivedExplicit(cfg: Settings, s: Snapshot, name: string, opts: Options)
    requires cfg.softbin.Derived? && opts.softbin.Some?
    ensures var (s', ids) := Step(cfg, s, name, opts); ids.softbin == opts.softbin && s'.softbins == s.softbins
  {
  }

  // ---------------------------------------------------------------------------
  // Runs of automatic requests.

  lemma CallsCons(names: seq<string>)
    requires names != []
    ensures Calls(names)[0] == Call(names[0], Auto) && Calls(names)[1..] == Calls(names[1..])
  {
  }

  /** The bins of a run are what the bins table alone hands out, whatever the dependent dimensions do. */
  lemma {:induction false} BinsOfRun(cfg: Settings, s: Snapshot, names: seq<string>)
    ensures Run(cfg, s, Calls(names)).0.bins == RefAll(s.bins, cfg.binPool, names, s.clock).0
    ensures Run(cfg, s, Calls(names)).0.clock == s.clock + |names|
    ensures Bins(Run(cfg, s, Calls(names)).1) == RefAll(s.bins, cfg.binPool, names, s.clock).1
    decreases |names|
  {
    if names != [] {
      CallsCons(names);
      var (s1, ids) := Step(cfg, s, names[0], Auto);
      BinsOfRun(cfg, s1, names[1..]);
      var rest := Run(cfg, s1, Calls(names[1..])).1;
      assert Run(cfg, s, Calls(names)).1 == [ids] + rest;
      assert Bins([ids] + rest) == [ids.bin] + Bins(rest);
    }
  }

  lemma StepDerived(cfg: Settings, s: Snapshot, name: string)
    requires cfg.softbin.Derived? && !cfg.softbin.scheme.Bx?
    ensures var ids := Step(cfg, s, name, Auto).1;
      ids.softbin == if ids.bin.Some? then Some(Compose(cfg.softbin.scheme, ids.bin.value, 0)) else None
  {
  }

  /** With a one-value bin pool and `:bx`, a call's bin is that value and its increment is what the bin's increment table gives. */
  lemma StepBx(cfg: Settings, s: Snapshot, name: string)
    requires |cfg.binPool| == 1 && cfg.softbin == Derived(Bx) && OnlyHolds(s.bins, cfg.binPool[0])
    ensures var x := cfg.binPool[0];
      var (s', ids) := Step(cfg, s, name, Auto);
      var (c', inc) := Ref(CounterOf(s.softbins.counters, x), Increments, name, None, s.clock);
      && ids.bin == Some(x)
      && ids.softbin == (if inc.Some? then Some(Compose(Bx, x, inc.value)) else None)
      && CounterOf(s'.softbins.counters, x) == c'
      && OnlyHolds(s'.bins, x)
      && s'.clock == s.clock + 1
  {
    var x := cfg.binPool[0];
    assert cfg.binPool == [x];
    SingleCandidate(s.bins, x, name, s.clock);
  }

  /**
    With `:bbb000` or a callback, every softbin of a run is the scheme applied
    to that call's bin, and a call without a bin gets no softbin.
  */
  lemma {:induction false} DerivedOfRun(cfg: Settings, s: Snapshot, names: seq<string>)
    requires cfg.softbin.Derived? && !cfg.softbin.scheme.Bx?
    ensures var ids := Run(cfg, s, Calls(names)).1;
      forall i | 0 <= i < |ids| ::
        ids[i].softbin == if ids[i].bin.Some? then Some(Compose(cfg.softbin.scheme, ids[i].bin.value, 0)) else None
    decreases |names|
  {
    if names != [] {
      CallsCons(names);
      var (s1, first) := Step(cfg, s, names[0], Auto);
      StepDerived(cfg, s, names[0]);
      DerivedOfRun(cfg, s1, names[1..]);
      assert var ids := Run(cfg, s1, Calls(names[1..])).1;
        forall i | 0 <= i < |ids| ::
          ids[i].softbin == if ids[i].bin.Some? then Some(Compose(cfg.softbin.scheme, ids[i].bin.value, 0)) else None;
      var rest := Run(cfg, s1, Calls(names[1..])).1;
      var ids := Run(cfg, s, Calls(names)).1;
      assert ids == [first] + rest;
      var scheme := cfg.softbin.scheme;
      forall i | 0 <= i < |ids|
        ensures ids[i].softbin == if ids[i].bin.Some? then Some(Compose(scheme, ids[i].bin.value, 0)) else None
      {
        if i > 0 {
          assert ids[i] == rest[i - 1];
        }
      }
    }
  }

  /** Call by call, `ids` got bin `x` and a softbin built from `x` and the matching increment of `incs`. */
  predicate BxShaped(x: int, ids: seq<Ids>, incs: seq<Option<int>>) {
    && |ids| == |incs|
    && forall i | 0 <= i < |ids| ::
         ids[i].bin == Some(x) && ids[i].softbin == if incs[i].Some? then Some(Compose(Bx, x, incs[i].value)) else None
  }

  lemma BxShapedCons(x: int, first: Ids, inc: Option<int>, ids: seq<Ids>, incs: seq<Option<int>>)
    requires first.bin == Some(x) && first.softbin == (if inc.Some? then Some(Compose(Bx, x, inc.value)) else None)
    requires BxShaped(x, ids, incs)
    ensures BxShaped(x, [first] + ids, [inc] + incs)
  {
    var a, b := [first] + ids, [inc] + incs;
    forall i | 1 <= i < |a|
      ensures a[i] == ids[i - 1] && b[i] == incs[i - 1]
    {
    }
  }

  /**
    With a single bin `x` and `:bx`, every call of a run gets bin `x`, and a
    softbin of `x` followed by the increment that `x`'s increment table hands
    the name, those increments coming from one run of that table.
  */
  lemma {:induction false} BxOfRun(cfg: Settings, s: Snapshot, names: seq<string>)
    requires |cfg.binPool| == 1 && cfg.softbin == Derived(Bx) && OnlyHolds(s.bins, cfg.binPool[0])
    ensures BxShaped(cfg.binPool[0], Run(cfg, s, Calls(names)).1,
                     RefAll(CounterOf(s.softbins.counters, cfg.binPool[0]), Increments, names, s.clock).1)
    decreases |names|
  {
    if names != [] {
      var x := cfg.binPool[0];
      CallsCons(names);
      StepBx(cfg, s, names[0]);
      var c := CounterOf(s.softbins.counters, x);
      var c1 := Ref(c, Increments, names[0], None, s.clock).0;
      var inc := Ref(c, Increments, names[0], None, s.clock).1;
      var s1 := Step(cfg, s, names[0], Auto).0;
      var first := Step(cfg, s, names[0], Auto).1;
      BxOfRun(cfg, s1, names[1..]);
      RefAllCons(c, Increments, names, s.clock, c1, inc);
      BxShapedCons(x, first, inc, Run(cfg, s1, Calls(names[1..])).1, RefAll(c1, Increments, names[1..], s.clock + 1).1);
    }
  }



  // ---------------------------------------------------------------------------
  // The allocator object.

  /** The mode a dependent item's settings call for: an algorithm first, then a callback, else its range. */
  ghost predicate ModeFits(includes: seq<Entry>, excludes: seq<Entry>, algorithm: Option<string>,
                           callback: Option<int -> int>, m: Mode)
  {
    if algorithm.Some? then
      m == match SchemeOf(algorithm.value)
           case Some(scheme) => Derived(scheme)
           case None => Unsupported(algorithm.value)
    else if callback.Some? then
      m == Derived(Callback(callback.value))
    else
      m.Ranged? && IsPoolOf(includes, excludes, m.pool)
  }

  method ModeFor(includes: seq<Entry>, excludes: seq<Entry>, algorithm: Option<string>, callback: Option<int -> int>)
    returns (m: Mode)
    ensures ModeFits(includes, excludes, algorithm, callback, m) && ModeValid(m)
  {
    if algorithm.Some? {
      var scheme := SchemeOf(algorithm.value);
      m := if scheme.Some? then Derived(scheme.value) else Unsupported(algorithm.value);
    } else if callback.Some? {
      m := Derived(Callback(callback.value));
    } else {
      var pool := BuildPool(includes, excludes);
      m := Ranged(pool);
    }
  }

  /** Per-call resolution of a dependent dimension. */
  method ResolveDim(mode: Mode, d: Dim, bin: Option<int>, name: string, explicit: Option<int>, now: nat)
    returns (d': Dim, r: Option<int>)
    ensures (d', r) == Resolve(mode, d, bin, name, explicit, now)
  {
    match mode
    case Ranged(pool) =>
      var t';
      t', r := Reference(d.table, pool, name, explicit, now);
      d' := d.(table := t');
    case Derived(scheme) =>
      if explicit.Some? {
        d', r := d, explicit;
      } else if bin.None? {
        d', r := d, None;
      } else if scheme.Bx? {
        var b := bin.value;
        var c := CounterOf(d.counters, b);
        var c', inc := Reference(c, Increments, name, None, now);
        d' := d.(counters := d.counters[b := c']);
        r := if inc.Some? then Some(b * 10 + inc.value) else None;
      } else {
        d', r := d, Some(Compose(scheme, bin.value, 0));
      }
    case Unsupported(_) =>
      d', r := d, explicit;
  }

  class Allocator {
    const settings: Settings
    var bins: Table
    var softbins: Dim
    var numbers: Dim
    var clock: nat

    ghost predicate Valid()
      reads this
    {
      SettingsValid(settings) && SnapshotValid(Snapshot(bins, softbins, numbers, clock))
    }

    /**
      `save`: the snapshot of everything allocated so far. What a consistent
      allocator saves is a consistent snapshot, which a later run resumes as is.
    */
    function Save(): (r: Snapshot)
      reads this
      ensures Valid() ==> SnapshotValid(r)
    {
      Snapshot(bins, softbins, numbers, clock)
    }

    /**
      The allocator of a validated configuration, resuming from `stored`, the
      snapshot found at the configured repository (`None` when there is no
      repository or nothing was saved there). Stored contents that are not a
      consistent snapshot are set aside and the run starts fresh.
    */
    constructor (config: Configuration.Config, stored: Option<Snapshot>)
      requires config.Valid() && config.validated
      ensures Valid()
      ensures IsPoolOf(config.bins.includes, config.bins.excludes, settings.binPool)
      ensures ModeFits(config.softbins.includes, config.softbins.excludes, config.softbins.algorithm,
                       config.softbins.callback, settings.softbin)
      ensures ModeFits(config.numbers.includes, config.numbers.excludes, config.numbers.algorithm,
                       config.numbers.callback, settings.number)
      ensures Save() == if stored.Some? && SnapshotValid(stored.value) then stored.value else Fresh
    {
      var binPool := BuildPool(config.bins.includes, config.bins.excludes);
      var softbin := ModeFor(config.softbins.includes, config.softbins.excludes, config.softbins.algorithm, config.softbins.callback);
      var number := ModeFor(config.numbers.includes, config.numbers.excludes, config.numbers.algorithm, config.numbers.callback);
      settings := Settings(binPool, softbin, number);
      var start := if stored.Some? && SnapshotValid(stored.value) then stored.value else Fresh;
      bins, softbins, numbers, clock := start.bins, start.softbins, start.numbers, start.clock;
    }

    /** `allocate(name, options)` */
    method Allocate(name: string, opts: Options) returns (ids: Ids)
      requires Valid()
      modifies this
      ensures Valid()
      ensures (Save(), ids) == Step(settings, old(Save()), name, opts)
    {
      ghost var before := Save();
      var bin, softbin, number;
      bins, bin := Reference(bins, settings.binPool, name, opts.bin, clock);
      softbins, softbin := ResolveDim(settings.softbin, softbins, bin, name, opts.softbin, clock);
      numbers, number := ResolveDim(settings.number, numbers, bin, name, opts.number, clock);
      clock := clock + 1;
      ids := Ids(bin, softbin, number);
      StepPreservesValid(settings, before, name, opts);
    }

    /** `reset`: forgets everything allocated in memory; what was saved stays where it was. */
    method Reset()
      requires Valid()
      modifies this
      ensures Valid() && Save() == Fresh
    {
      bins, softbins, numbers, clock := Tables.Empty, EmptyDim, EmptyDim, 0;
    }
  }
}

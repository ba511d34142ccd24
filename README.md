# test_ids allocation engine, modelled in Dafny

The test_ids library gives each named test three numeric identifiers: a bin,
a softbin and a number. The same test name gets the same identifiers on every
generation run.

A configuration says, per dimension, which values may be handed out. This is
done either as include and exclude lists of values and inclusive ranges
(`config.softbins.include << (1..4)`), or as a derivation from the test's
bin: the algorithms `:bbb000` and `:bx`, or a callback. `validate!` freezes
the configuration.

The allocator answers `allocate(name, options)`:
- a known name gets its value again;
- a new name's caller-supplied value is taken and reserved; for a known name
  the given value is ignored;
- a new name gets the lowest free value of the pool;
- once the pool is exhausted, a new name reuses the value referenced longest ago.

`save` persists the state. After `reset`, a new run resumes from what was saved.

The project has these modules:

- `Configuration` (configuration.dfy) models `Configuration` and
  `Configuration::Item` as classes.
  - Their setters refuse every change once frozen, as Ruby raises `FrozenError`.
  - `on_completion=` accepts only publish, save and discard.
  - `validate!` refuses bins driven by an algorithm or a callback, then marks
    the configuration validated and freezes it.
- `Pools` (pools.dfy) builds the candidate pool from include and exclude
  entries, by a loop proved to yield exactly the eligible values, in ascending
  order.
- `Tables` (tables.dfy) is one dimension's allocation table and its request
  function `Ref`, with the scans the allocator runs per request as loops.
  Lemmas cover:
  - the per-name cache;
  - manual reservations and the eviction they cause;
  - the lowest-free and least-recently-referenced choices;
  - whole runs: filling a pool, refreshing, reuse of the oldest value, and
    replay after a save.
- `Derivation` (derivation.dfy) covers the `:bbb000`, `:bx` and callback
  derivations.
- `Allocation` (allocation.dfy) has three parts:
  - one `allocate` call over the bin, softbin and number tables;
  - runs of calls, the saved snapshot and resumption from it;
  - the `Allocator` class built from a validated configuration.
- `Scenarios` (scenarios.dfy) states each example of the allocator's test
  file as a lemma about `Run`. Most are proved for ANY ascending pool values
  and ANY distinct names. A few are also instantiated with the test's literal
  values.

The allocator's own Ruby source is not part of this model. Its behaviour is
taken from the examples in spec/softbin_allocator_spec.rb.

Reclamation in the model works per value, not per record: a reclaimed value
is shared, and its earlier holder keeps it. Reclamation cannot delete the
oldest record and hand its value over. In spec/softbin_allocator_spec.rb:140-151,
the state saved after the second round has t4 holding 2, shared with t2. Had
t2 lost 2 to t4, it would get 3 at line 147, where the test expects 2.
`Scenarios.ReusedOldestFirst` proves the values the test expects.

## Model

| member | source | states |
|---|---|---|
| `Configuration.ParseCompletion` | lib/test_ids/configuration.rb:41-46 | a value is accepted exactly when its name is publish, save or discard, and the accepted mode's name is the value given |
| `Configuration.ParseCompletionName` | lib/test_ids/configuration.rb:45 | storing a mode as a symbol and reading it back gives the same mode |
| `Configuration.Item.constructor` | lib/test_ids/configuration.rb:6-9 | a new item has empty include and exclude lists, no algorithm and no callback, so it is `empty?` and not `function?` |
| `Configuration.Item.Include` | lib/test_ids/configuration.rb:4 | `include << e` appends e and changes nothing else, or raises FrozenError on a frozen item; afterwards the item is not empty |
| `Configuration.Item.Exclude` | lib/test_ids/configuration.rb:4 | `exclude << e` appends e and changes nothing else, or raises FrozenError on a frozen item |
| `Configuration.Item.SetIncludes` | lib/test_ids/configuration.rb:4 | `include =` replaces the list only, or raises FrozenError on a frozen item |
| `Configuration.Item.SetExcludes` | lib/test_ids/configuration.rb:4 | `exclude =` replaces the list only, or raises FrozenError on a frozen item |
| `Configuration.Item.SetAlgorithm` | lib/test_ids/configuration.rb:4 | `algorithm =` sets the tag only, or raises FrozenError; a set tag makes the item `function?` |
| `Configuration.Item.Callback` | lib/test_ids/configuration.rb:11-17 | without a block, returns the stored callback and changes nothing; with a block, stores it and returns it, or raises FrozenError on a frozen item |
| `Configuration.Item.IsEmpty` | lib/test_ids/configuration.rb:19-21 | `empty?`: an item with nothing configured has an empty candidate pool |
| `Configuration.Item.IsFunction` | lib/test_ids/configuration.rb:23-25 | `function?`: an item derived by an algorithm or a callback is never `empty?` |
| `Configuration.Item.Freeze` | lib/test_ids/configuration.rb:27-31 | the item becomes frozen and keeps all its settings |
| `Configuration.Config.constructor` | lib/test_ids/configuration.rb:48-58 | a new configuration has its id, three distinct empty items, no repo, `on_completion` reading `:publish`, and is neither validated nor frozen |
| `Configuration.Config.OnCompletion` | lib/test_ids/configuration.rb:37-39 | `on_completion` reads `:publish` when nothing was set, and always a mode whose name `on_completion=` accepts back |
| `Configuration.Config.SetOnCompletion` | lib/test_ids/configuration.rb:37-46 | an unknown mode is refused; a known one is stored and read back by name, or FrozenError once frozen; nothing else changes |
| `Configuration.Config.SetRepo` | lib/test_ids/configuration.rb:34 | `repo =` stores the location, or raises FrozenError once frozen |
| `Configuration.Config.Numbers` | lib/test_ids/configuration.rb:73-79 | always returns the same numbers item; a given block becomes its callback, and nothing else changes |
| `Configuration.Config.Softbins` | lib/test_ids/configuration.rb:60-66 | corrected `softbins`: always returns the same softbins item; a given block becomes its callback, as in `numbers` |
| `Configuration.Config.SoftbinsAsWritten` | lib/test_ids/configuration.rb:60-66 | `softbins` as written: returns the softbins item without a block, and fails on the undefined `block` when given one |
| `Configuration.SoftbinsBlockWitness` | lib/test_ids/configuration.rb:60-66 | on a new configuration, a block given to `softbins` fails as written and is stored by the corrected method |
| `Configuration.Config.SetSoftbinsAlgorithm` | lib/test_ids/configuration.rb:68-71 | `softbins =` changes only the softbins item's algorithm, or raises FrozenError |
| `Configuration.Config.SetNumbersAlgorithm` | lib/test_ids/configuration.rb:81-84 | `numbers =` changes only the numbers item's algorithm, or raises FrozenError |
| `Configuration.Config.Validate` | lib/test_ids/configuration.rb:86-97 | once validated, a no-op; otherwise refuses bins with an algorithm, then bins with a callback, changing nothing; otherwise marks validated and freezes everything, all settings kept |
| `Configuration.Config.IsEmpty` | lib/test_ids/configuration.rb:99-101 | `empty?`: with no dimension configured, none of the three is derived, so `validate!` has nothing to refuse |
| `Configuration.Config.Freeze` | lib/test_ids/configuration.rb:107-112 | the configuration and its three items become frozen, all settings kept |
| `Pools.BuildPool` | spec/softbin_allocator_spec.rb:68-77 | the pool is ascending and holds exactly the values some include entry covers and no exclude entry covers |
| `Pools.IsPoolOf` | spec/softbin_allocator_spec.rb:68-77 | the pool of an empty include list, or of an exclude list equal to the include list, is empty |
| `Pools.PoolUnique` | spec/softbin_allocator_spec.rb:68-77 | the include and exclude lists determine the pool uniquely |
| `Tables.FirstFree` | spec/softbin_allocator_spec.rb:27-35 | a value found is in the pool and unoccupied |
| `Tables.Oldest` | spec/softbin_allocator_spec.rb:117-127 | a value found is in the pool, occupied and not manually reserved |
| `Tables.FindFree` | spec/softbin_allocator_spec.rb:27-35 | the loop that scans the pool in order finds what `FirstFree` specifies |
| `Tables.FindOldest` | spec/softbin_allocator_spec.rb:117-127 | the loop that scans the pool finds what `Oldest` specifies |
| `Tables.Ref` | spec/softbin_allocator_spec.rb:37-127 | a known name gets its stored value; a new name with an explicit value gets it, reserved; an automatic one gets a pool value; a name that gets a value holds it, freshly referenced; getting none changes nothing |
| `Tables.Reference` | spec/softbin_allocator_spec.rb:37-127 | one request, as the allocator runs it, gives the table and value `Ref` specifies |
| `Tables.FirstFreeIsLowest` | spec/softbin_allocator_spec.rb:27-35 | on an ascending pool the value found is the lowest unoccupied one; none is found exactly when all pool values are occupied |
| `Tables.OldestIsLeastRecent` | spec/softbin_allocator_spec.rb:117-127 | the value found has the oldest reference among reclaimable pool values, the lowest on a tie; none exactly when none is reclaimable |
| `Tables.FirstFreeFinds` | spec/softbin_allocator_spec.rb:27-35 | conversely, the lowest unoccupied value of an ascending pool is the one found |
| `Tables.OldestFinds` | spec/softbin_allocator_spec.rb:117-127 | conversely, the strictly least recently referenced reclaimable value is the one found |
| `Tables.RefPreservesValid` | spec/softbin_allocator_spec.rb:57-66 | a request keeps the table consistent: occupied values are exactly the assigned ones, a manual value has one holder, references precede the clock |
| `Tables.RefKnownName` | spec/softbin_allocator_spec.rb:37-46 | a known name gets its value back, nothing changes hands, only its value's recency is refreshed, and that value becomes the most recently referenced |
| `Tables.RefManual` | spec/softbin_allocator_spec.rb:48-55 | a new name with an explicit value gets exactly that value, added to the reserved ones; its other holders are forgotten, all other names keep theirs, and only that value's recency changes |
| `Tables.RefFresh` | spec/softbin_allocator_spec.rb:27-35 | while a pool value is free, a new name gets the lowest free one; no other name, reservation or recency changes |
| `Tables.RefReclaim` | spec/softbin_allocator_spec.rb:117-127 | with the pool full, a new name gets the non-manual pool value referenced longest ago, shared with its holders, and only that value's recency changes; it gets none, changing nothing, exactly when every pool value is manual |
| `Tables.RefAutoInPool` | spec/softbin_allocator_spec.rb:57-77 | automatic allocation never leaves the pool and never hands out a manually reserved value |
| `Tables.RefAutoStaysInPool` | spec/softbin_allocator_spec.rb:68-77 | a table holding only pool values keeps holding only pool values under automatic requests |
| `Tables.RefKeepsOthers` | spec/softbin_allocator_spec.rb:57-66 | a request leaves every other name's value alone, unless it is a manual claim on that value |
| `Tables.EvictedNameMovesOn` | spec/softbin_allocator_spec.rb:97-115 | a name displaced by a manual claim is forgotten, and on its next request it does not get the claimed value |
| `Tables.FreshValuesAscend` | spec/softbin_allocator_spec.rb:27-35 | two new names asked for in turn, while values remain free, get ascending values |
| `Tables.SingleCandidate` | spec/softbin_allocator_spec.rb:172 | with a one-value pool, every automatic request gets that value |
| `Tables.RefAllKeeps` | spec/softbin_allocator_spec.rb:79-95 | automatic requests keep the table consistent, reserve nothing, and never take a value from a known name |
| `Tables.RunSettles` | spec/softbin_allocator_spec.rb:140-151 | after a run of requests each name asked for holds the value it got |
| `Tables.ReplaySettled` | spec/softbin_allocator_spec.rb:140-151 | requests for names that hold recorded values give exactly those values back |
| `Tables.ReplayGivesSameValues` | spec/softbin_allocator_spec.rb:140-151 | replaying a run after saving and resuming gives each request the value it got the first time |
| `Tables.FillInOrder` | spec/softbin_allocator_spec.rb:27-35 | on an empty table, distinct new names get the pool values in ascending order, as long as the pool lasts |
| `Tables.RefAllAppend` | spec/softbin_allocator_spec.rb:79-95 | the requests for two lists in a row are those of the first, then those of the second from where it left off |
| `Tables.RefreshRun` | spec/softbin_allocator_spec.rb:185-188 | re-requesting the holders of the first m values of a full table gives their values back and refreshes them |
| `Tables.NewcomerTakesOldest` | spec/softbin_allocator_spec.rb:189-190 | in a full table refreshed up to value m, a new name takes value m, the one referenced longest ago |
| `Tables.RefreshThenNewcomer` | spec/softbin_allocator_spec.rb:185-190 | from a full table, the first m holders get their values back, then a new name takes value m |
| `Tables.AfterFill` | spec/softbin_allocator_spec.rb:175-190 | after distinct names fill the pool, the first m get their values again and a new name takes value m |
| `Tables.ReuseOldest` | spec/softbin_allocator_spec.rb:117-127 | distinct names fill the pool in order; re-requesting the first m gives their values again; then a new name reuses value m |
| `Derivation.Compose` | spec/softbin_allocator_spec.rb:154-209 | a `:bbb000` value ends in three zeros and gives back its bin by dropping them; a `:bx` value with a digit increment lies in its bin's block of ten; a callback value is f(bin) |
| `Derivation.BxDecodes` | spec/softbin_allocator_spec.rb:170-191 | a `:bx` softbin gives back both its bin and its increment digit, so distinct increments of one bin never collide |
| `Derivation.IncrementsAreDigits` | spec/softbin_allocator_spec.rb:175-184 | the `:bx` increments are exactly the digits 0..9 |
| `Allocation.Derive` | spec/softbin_allocator_spec.rb:154-191 | deriving for one bin leaves every other bin's increment table alone; only `:bx` touches an increment table, and the other schemes always give a value |
| `Allocation.Resolve` | spec/softbin_allocator_spec.rb:154-209 | a ranged dimension leaves the increment tables alone and a derived one its own table; a derived dimension returns an explicit value as given, and without a bin gives nothing |
| `Allocation.Step` | spec/softbin_allocator_spec.rb:14-17 | one call moves the clock on by one; a name the bins table knows keeps its bin, and one a ranged softbin or number table knows keeps its value there; a new name with an explicit bin gets it; getting no bin leaves the bins table as it was |
| `Allocation.Run` | spec/softbin_allocator_spec.rb:14-17 | a run assigns identifiers once per call, and the clock moves on by the number of calls |
| `Allocation.RunAppend` | spec/softbin_allocator_spec.rb:79-95 | saving after some calls and resuming for the rest ends in the same state, with the same values, as one uninterrupted run |
| `Allocation.RunPreservesValid` | spec/softbin_allocator_spec.rb:57-66 | every run keeps all tables and increment tables consistent |
| `Allocation.StepPreservesValid` | spec/softbin_allocator_spec.rb:14-17 | every `allocate` call keeps all tables and increment tables consistent |
| `Allocation.IncrementAlwaysFound` | spec/softbin_allocator_spec.rb:170-191 | a bin's increment table always hands out a digit 0..9 |
| `Allocation.DerivedValue` | spec/softbin_allocator_spec.rb:154-209 | without an explicit softbin, a derived softbin is bin * 1000, f(bin), or bin * 10 + a digit from the bin's increment table; no bin means no softbin |
| `Allocation.BinsOfRun` | spec/softbin_allocator_spec.rb:159-167 | the bins of a run are what the bins table alone hands out, whatever the other dimensions do |
| `Allocation.DerivedOfRun` | spec/softbin_allocator_spec.rb:154-168 | with `:bbb000` or a callback, each softbin of a run is the scheme applied to that call's bin |
| `Allocation.BxOfRun` | spec/softbin_allocator_spec.rb:170-191 | with one bin x and `:bx`, every call gets bin x and softbin x followed by the increment x's table hands out in one run |
| `Allocation.ModeFor` | spec/softbin_allocator_spec.rb:154-199 | an algorithm takes precedence over a callback, which takes precedence over the range, and a range mode carries the pool of the include and exclude lists |
| `Allocation.ResolveDim` | spec/softbin_allocator_spec.rb:154-209 | per-call resolution of a softbin or number, as the allocator runs it, is what `Resolve` specifies |
| `Allocation.Allocator.constructor` | spec/softbin_allocator_spec.rb:79-95 | the allocator of a validated configuration has the configured pools and modes, and resumes from a stored consistent snapshot, else starts fresh |
| `Allocation.Allocator.Allocate` | spec/softbin_allocator_spec.rb:14-17 | `allocate` moves the allocator to the state, and returns the identifiers, of one `Step`, and keeps it consistent |
| `Allocation.Allocator.Save` | spec/softbin_allocator_spec.rb:87 | `save` of a consistent allocator gives a consistent snapshot, which the constructor resumes as is |
| `Allocation.Allocator.Reset` | spec/softbin_allocator_spec.rb:129 | `reset` forgets everything allocated in memory |
| `Scenarios.ResumedSoftbins` | spec/softbin_allocator_spec.rb:79-95 | the softbins of a run are those before a save followed by those after resuming |
| `Scenarios.PoolOfThree` | spec/softbin_allocator_spec.rb:21 | `include << 3` gives the pool [3] |
| `Scenarios.PoolOfOneToThree` | spec/softbin_allocator_spec.rb:29 | `include << (1..3)` gives the pool [1, 2, 3] |
| `Scenarios.PoolOfOneToFour` | spec/softbin_allocator_spec.rb:50 | `include << (1..4)` gives the pool [1, 2, 3, 4] |
| `Scenarios.PoolWithExclusion` | spec/softbin_allocator_spec.rb:70-71 | 1..4 without 3 gives the pool [1, 2, 4] |
| `Scenarios.FreshNamesInOrder` | spec/softbin_allocator_spec.rb:27-35 | on a fresh start, distinct names get the pool's softbins in ascending order, for any ascending pool |
| `Scenarios.IsAlive` | spec/softbin_allocator_spec.rb:19-25 | with pool [3], t1 gets softbin 3 |
| `Scenarios.SoftbinNumbersIncrement` | spec/softbin_allocator_spec.rb:27-35 | t1, t2, t3 get 1, 2, 3 |
| `Scenarios.ExcludedSoftbinsAreNotUsed` | spec/softbin_allocator_spec.rb:68-77 | with pool [1, 2, 4], t1, t2, t3 get 1, 2, 4 |
| `Scenarios.DuplicatesRun` | spec/softbin_allocator_spec.rb:37-46 | t1, t2, t1, t3 get a, b, a, c for any pool a < b < c |
| `Scenarios.OverrideFirstRun` | spec/softbin_allocator_spec.rb:48-55 | t1 gets a, and t2 with an override of c gets c, leaving c reserved for t2 |
| `Scenarios.ManualSoftbinsAreReserved` | spec/softbin_allocator_spec.rb:57-66 | t1, t2 (override c), t3, t4 get a, c, b, d: later automatic requests skip the reserved value |
| `Scenarios.SavedAndResumed` | spec/softbin_allocator_spec.rb:79-95 | after a save following t1 and t2 (override c), a resumed run gives t3 and t4 b and d |
| `Scenarios.ManualClaimsPersist` | spec/softbin_allocator_spec.rb:97-115 | the first run gives a, b, b; after a save the same calls give a, c, b: the displaced t2 moves to the next free value |
| `Scenarios.ReusedOldestFirst` | spec/softbin_allocator_spec.rb:117-152 | the three rounds of the example give the values the test expects, for any a < b < c and distinct names |
| `Scenarios.ReusedOldestFirstExample` | spec/softbin_allocator_spec.rb:117-127 | the first round with softbins 1..3 and names t1..t5 gives 1, 2, 3, 1, 1, 2 |
| `Scenarios.IncrementsAscend` | spec/softbin_allocator_spec.rb:175-184 | the increments are the digits 0..9 in ascending order |
| `Scenarios.DerivedFreshRun` | spec/softbin_allocator_spec.rb:154-209 | on a fresh start, distinct names get the bins in order, and with `:bbb000` or a callback each softbin is derived from its bin |
| `Scenarios.SoftbinsFromAlgorithm` | spec/softbin_allocator_spec.rb:154-168 | with bins a < b < c and `:bbb000`, three new names get bins a, b, c and softbins 1000a, 1000b, 1000c |
| `Scenarios.SoftbinsFromCallback` | spec/softbin_allocator_spec.rb:193-209 | with bins a < b < c and the callback `bin * 3`, three new names get bins a, b, c and softbins 3a, 3b, 3c |
| `Scenarios.BxIncrementsWrap` | spec/softbin_allocator_spec.rb:170-191 | with one bin x and `:bx`, ten names get x0..x9; after the first m are re-requested, a new name gets x followed by m |
| `Scenarios.IncrementCounter` | spec/softbin_allocator_spec.rb:170-191 | with bin 3, ten names get 30..39, three of them again get 30..32, and an eleventh name gets 33 |

## Left out

- Reading and writing `store.json` under `Origen.root` with `FileUtils` is
  left out, as file I/O. The snapshot is an in-memory `Snapshot` value, and
  the allocator's constructor takes what was stored as a parameter.
- A corrupt store is left out. Stored contents that are not a consistent
  snapshot are set aside, and the run starts fresh.
- The global `TestIds.configure`, `TestIds.allocator` and `send(:reset)`
  registry is left out. The model builds the allocator explicitly from a
  validated `Configuration.Config`.
- Ruby's object `freeze` is modelled as a `frozen` flag that every setter
  checks.
- Lazy creation of the three items is left out. The items are created with the
  configuration, which is observably the same: `freeze` creates any missing
  item before freezing.
- The bodies of Ruby blocks are left out. A callback is an opaque `int -> int`.
- `BinArray` is not part of this model. An include or exclude list is a
  sequence of single values and inclusive ranges.
- config/version.rb is left out. It holds only a version string.
- No example fixes an in-run re-request of a name that a manual override
  displaced. In the model that name is forgotten at once, so it gets a new
  value (`Tables.EvictedNameMovesOn`).
- No example fixes automatic allocation when every pool value is manually
  reserved. In the model such a name gets no value (`None`), as with an empty
  pool.
- No example passes an explicit value for a name that already holds one. The
  model ignores the given value and returns the stored one
  (`Tables.RefKnownName`).
- No example fixes an explicit softbin on a dimension derived from the bin.
  The model returns it as given and records nothing (`Allocation.DerivedExplicit`).
- No example fixes an `algorithm` tag other than `:bbb000` and `:bx`. Such a
  dimension hands out no value unless one is given (`Allocation.Unsupported`).
- Integer width is left out. Ruby integers are unbounded, and so are the model's.
- Scenarios: the examples are proved for any ascending pool values and any
  distinct names. Only `IsAlive`, `SoftbinNumbersIncrement`,
  `ExcludedSoftbinsAreNotUsed` and `ReusedOldestFirstExample` are also stated
  with the test's literal names and values.
- Scenarios.IncrementCounter: proved for any ten distinct names and any new
  eleventh name. Its result is stated softbin by softbin rather than as one
  list.

## Findings

| source | as written | input that shows it | evidently intended | confidence | as-written member | corrected member |
|---|---|---|---|---|---|---|
| lib/test_ids/configuration.rb:60-66 | `def softbins` declares no `&block` parameter, yet line 63 passes `&block` on when `block_given?` holds | calling `config.softbins` with a block makes `block` an undefined name, a NameError, and no callback is stored | store the block as the softbins item's callback, as `numbers(&block)` does at lines 73-79 | not executed | `Configuration.Config.SoftbinsAsWritten` | `Configuration.Config.Softbins` |

`Configuration.SoftbinsBlockWitness` runs both versions on a new
configuration. The as-written one fails with `UndefinedBlock`. The corrected
one succeeds and leaves the block stored as the callback.

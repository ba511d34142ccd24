/**
  The configuration of one allocator (lib/test_ids/configuration.rb): an item
  per dimension (bins, softbins, numbers) carrying its include and exclude
  lists, an optional algorithm tag and an optional callback; a repository
  location; and the action taken on completion. `validate!` checks that bins
  are range-based, then marks the configuration validated and freezes it; a
  frozen object refuses every later assignment, as Ruby raises FrozenError.
*/
module Configuration {
  import opened Wrappers
  import opened Pools

  /** The three accepted `on_completion` modes, Ruby's `:publish`, `:save` and `:discard`. */
  datatype Completion = Publish | Save | Discard

  function CompletionName(c: Completion): string {
    match c
    case Publish => "publish"
    case Save => "save"
    case Discard => "discard"
  }

  /** Reads the `to_s` of a value given to `on_completion=`: only the three names are accepted. */
  function ParseCompletion(s: string): (r: Option<Completion>)
    ensures r.Some? <==> s == "publish" || s == "save" || s == "discard"
    ensures r.Some? ==> CompletionName(r.value) == s
  {
    if s == "publish" then Some(Publish)
    else if s == "save" then Some(Save)
    else if s == "discard" then Some(Discard)
    else None
  }

  /** Storing a mode as a symbol loses nothing: its name reads back as the same mode. */
  lemma ParseCompletionName(c: Completion)
    ensures ParseCompletion(CompletionName(c)) == Some(c)
  {
  }

  /** What the configuration methods raise. */
  datatype ConfigError =
    | FrozenError                    // an assignment to a frozen object
    | BadOnCompletion(given: string) // on_completion must be one of :publish, :save, :discard
    | BinsAlgorithm                  // bins cannot be set to an algorithm
    | BinsCallback                   // bins cannot be set by a callback
    | UndefinedBlock                 // a reference to a block the method never received

  /** The settings of one dimension (`Configuration::Item`). */
  class Item {
    var includes: seq<Entry>
    var excludes: seq<Entry>
    var algorithm: Option<string>
    var callback: Option<int -> int>
    var frozen: bool

    constructor ()
      ensures includes == [] && excludes == [] && algorithm == None && callback == None && !frozen
      ensures IsEmpty() && !IsFunction()
    {
      includes, excludes, algorithm, callback, frozen := [], [], None, None, false;
    }

    /** `empty?`: nothing is configured for the dimension, so it has no candidate values. */
    predicate IsEmpty(): (r: bool)
      reads this
      ensures r ==> forall pool | IsPoolOf(includes, excludes, pool) :: pool == []
    {
      includes == [] && excludes == [] && algorithm.None? && callback.None?
    }

    /** `function?`: the dimension is derived by an algorithm or a callback, so it is not empty. */
    predicate IsFunction(): (r: bool)
      reads this
      ensures r ==> !IsEmpty()
    {
      algorithm.Some? || callback.Some?
    }

    /** `include << e` */
    method Include(e: Entry) returns (out: Outcome<ConfigError>)
      modifies this
      ensures out == if old(frozen) then Fail(FrozenError) else Pass
      ensures includes == if old(frozen) then old(includes) else old(includes) + [e]
      ensures excludes == old(excludes) && algorithm == old(algorithm) && callback == old(callback)
      ensures frozen == old(frozen)
      ensures out.Pass? ==> !IsEmpty() && IsFunction() == old(IsFunction())
    {
      if frozen {
        return Fail(FrozenError);
      }
      includes := includes + [e];
      out := Pass;
    }

    /** `exclude << e` */
    method Exclude(e: Entry) returns (out: Outcome<ConfigError>)
      modifies this
      ensures out == if old(frozen) then Fail(FrozenError) else Pass
      ensures excludes == if old(frozen) then old(excludes) else old(excludes) + [e]
      ensures includes == old(includes) && algorithm == old(algorithm) && callback == old(callback)
      ensures frozen == old(frozen)
      ensures out.Pass? ==> !IsEmpty() && IsFunction() == old(IsFunction())
    {
      if frozen {
        return Fail(FrozenError);
      }
      excludes := excludes + [e];
      out := Pass;
    }

    /** `include = es` */
    method SetIncludes(es: seq<Entry>) returns (out: Outcome<ConfigError>)
      modifies this
      ensures out == if old(frozen) then Fail(FrozenError) else Pass
      ensures includes == if old(frozen) then old(includes) else es
      ensures excludes == old(excludes) && algorithm == old(algorithm) && callback == old(callback)
      ensures frozen == old(frozen)
    {
      if frozen {
        return Fail(FrozenError);
      }
      includes := es;
      out := Pass;
    }

    /** `exclude = es` */
    method SetExcludes(es: seq<Entry>) returns (out: Outcome<ConfigError>)
      modifies this
      ensures out == if old(frozen) then Fail(FrozenError) else Pass
      ensures excludes == if old(frozen) then old(excludes) else es
      ensures includes == old(includes) && algorithm == old(algorithm) && callback == old(callback)
      ensures frozen == old(frozen)
    {
      if frozen {
        return Fail(FrozenError);
      }
      excludes := es;
      out := Pass;
    }

    /** `algorithm = tag`, where `None` stands for `nil`. */
    method SetAlgorithm(tag: Option<string>) returns (out: Outcome<ConfigError>)
      modifies this
      ensures out == if old(frozen) then Fail(FrozenError) else Pass
      ensures algorithm == if old(frozen) then old(algorithm) else tag
      ensures includes == old(includes) && excludes == old(excludes) && callback == old(callback)
      ensures frozen == old(frozen)
      ensures out.Pass? && tag.Some? ==> IsFunction() && !IsEmpty()
    {
      if frozen {
        return Fail(FrozenError);
      }
      algorithm := tag;
      out := Pass;
    }

    /**
      `callback(&block)`: given a block, stores it and returns it; without one,
      returns the stored callback (`None` when there is none).
    */
    method Callback(block: Option<int -> int>) returns (r: Option<int -> int>, out: Outcome<ConfigError>)
      modifies this
      ensures block.None? ==> out == Pass && r == old(callback) && callback == old(callback)
      ensures block.Some? && old(frozen) ==> out == Fail(FrozenError) && callback == old(callback)
      ensures block.Some? && !old(frozen) ==> out == Pass && r == block && callback == block
      ensures includes == old(includes) && excludes == old(excludes) && algorithm == old(algorithm)
      ensures frozen == old(frozen)
      ensures out.Pass? && block.Some? ==> IsFunction()
    {
      if block.None? {
        return callback, Pass;
      }
      if frozen {
        return None, Fail(FrozenError);
      }
      callback := block;
      r, out := block, Pass;
    }

    /** `freeze`: the item and its two lists accept no further change. */
    method Freeze()
      modifies this
      ensures frozen
      ensures includes == old(includes) && excludes == old(excludes)
      ensures algorithm == old(algorithm) && callback == old(callback)
    {
      frozen := true;
    }
  }

  /**
    `Configuration`. The three items are created with the configuration:
    `bins`, `softbins` and `numbers` memoise their item on first access, so
    every access returns the same, initially empty, item.
  */
  class Config {
    const id: string
    const bins: Item
    const softbins: Item
    const numbers: Item
    var repo: Option<string>
    var onCompletion: Option<Completion>
    var validated: bool
    var frozen: bool

    /** The items are distinct; a frozen configuration has frozen items; a validated one is frozen with range-based bins. */
    ghost predicate Valid()
      reads this, bins, softbins, numbers
    {
      && bins != softbins && bins != numbers && softbins != numbers
      && (frozen ==> bins.frozen && softbins.frozen && numbers.frozen)
      && (validated ==> frozen && !bins.IsFunction())
    }

    constructor (id: string)
      ensures Valid() && fresh(bins) && fresh(softbins) && fresh(numbers)
      ensures this.id == id && repo == None && onCompletion == None && !validated && !frozen
      ensures !bins.frozen && !softbins.frozen && !numbers.frozen
      ensures OnCompletion() == Publish && IsEmpty()
    {
      this.id := id;
      bins := new Item();
      softbins := new Item();
      numbers := new Item();
      repo, onCompletion, validated, frozen := None, None, false, false;
    }

    /**
      `on_completion`: the stored mode, `:publish` when none was ever set; its
      name is always one that `on_completion=` accepts back.
    */
    function OnCompletion(): (r: Completion)
      reads this
      ensures onCompletion.None? ==> r == Publish
      ensures ParseCompletion(CompletionName(r)) == Some(r)
    {
      onCompletion.GetOr(Publish)
    }

    /**
      `on_completion = val`: refuses a value whose name is not publish, save or
      discard; otherwise stores it as a symbol (and raises FrozenError once frozen).
    */
    method SetOnCompletion(val: string) returns (out: Outcome<ConfigError>)
      requires Valid()
      modifies this
      ensures Valid()
      ensures ParseCompletion(val).None? ==> out == Fail(BadOnCompletion(val))
      ensures ParseCompletion(val).Some? && old(frozen) ==> out == Fail(FrozenError)
      ensures out.Pass? <==> ParseCompletion(val).Some? && !old(frozen)
      ensures onCompletion == if out.Pass? then ParseCompletion(val) else old(onCompletion)
      ensures out.Pass? ==> CompletionName(OnCompletion()) == val
      ensures repo == old(repo) && validated == old(validated) && frozen == old(frozen)
    {
      var mode := ParseCompletion(val);
      if mode.None? {
        return Fail(BadOnCompletion(val));
      }
      if frozen {
        return Fail(FrozenError);
      }
      onCompletion := mode;
      out := Pass;
    }

    /** `repo = location` */
    method SetRepo(location: Option<string>) returns (out: Outcome<ConfigError>)
      requires Valid()
      modifies this
      ensures Valid()
      ensures out == if old(frozen) then Fail(FrozenError) else Pass
      ensures repo == if old(frozen) then old(repo) else location
      ensures onCompletion == old(onCompletion) && validated == old(validated) && frozen == old(frozen)
    {
      if frozen {
        return Fail(FrozenError);
      }
      repo := location;
      out := Pass;
    }

    /** `numbers(&block)`: the numbers item, whose callback becomes the block when one is given. */
    method Numbers(block: Option<int -> int>) returns (it: Item, out: Outcome<ConfigError>)
      requires Valid()
      modifies numbers
      ensures Valid() && it == numbers
      ensures block.None? ==> out == Pass && numbers.callback == old(numbers.callback)
      ensures block.Some? ==> out == if old(numbers.frozen) then Fail(FrozenError) else Pass
      ensures numbers.callback == if block.Some? && out.Pass? then block else old(numbers.callback)
      ensures numbers.includes == old(numbers.includes) && numbers.excludes == old(numbers.excludes)
      ensures numbers.algorithm == old(numbers.algorithm) && numbers.frozen == old(numbers.frozen)
    {
      it, out := numbers, Pass;
      if block.Some? {
        var stored;
        stored, out := numbers.Callback(block);
      }
    }

    /**
      `softbins` as it would be with a block parameter, the way `numbers` has
      one: the softbins item, whose callback becomes the block when one is given.
    */
    method Softbins(block: Option<int -> int>) returns (it: Item, out: Outcome<ConfigError>)
      requires Valid()
      modifies softbins
      ensures Valid() && it == softbins
      ensures block.None? ==> out == Pass && softbins.callback == old(softbins.callback)
      ensures block.Some? ==> out == if old(softbins.frozen) then Fail(FrozenError) else Pass
      ensures softbins.callback == if block.Some? && out.Pass? then block else old(softbins.callback)
      ensures softbins.includes == old(softbins.includes) && softbins.excludes == old(softbins.excludes)
      ensures softbins.algorithm == old(softbins.algorithm) && softbins.frozen == old(softbins.frozen)
    {
      it, out := softbins, Pass;
      if block.Some? {
        var stored;
        stored, out := softbins.Callback(block);
      }
    }

    /**
      `softbins` as written: the method declares no block parameter, so when a
      block is given the reference to `block` fails before any callback is stored.
    */
    method SoftbinsAsWritten(block: Option<int -> int>) returns (it: Item, out: Outcome<ConfigError>)
      requires Valid()
      ensures it == softbins
      ensures out == if block.Some? then Fail(UndefinedBlock) else Pass
    {
      it := softbins;
      out := if block.Some? then Fail(UndefinedBlock) else Pass;
    }

    /** `softbins = tag`, an alias for `softbins.algorithm = tag`. */
    method SetSoftbinsAlgorithm(tag: Option<string>) returns (out: Outcome<ConfigError>)
      requires Valid()
      modifies softbins
      ensures Valid()
      ensures out == if old(softbins.frozen) then Fail(FrozenError) else Pass
      ensures softbins.algorithm == if out.Pass? then tag else old(softbins.algorithm)
      ensures softbins.includes == old(softbins.includes) && softbins.excludes == old(softbins.excludes)
      ensures softbins.callback == old(softbins.callback) && softbins.frozen == old(softbins.frozen)
    {
      out := softbins.SetAlgorithm(tag);
    }

    /** `numbers = tag`, an alias for `numbers.algorithm = tag`. */
    method SetNumbersAlgorithm(tag: Option<string>) returns (out: Outcome<ConfigError>)
      requires Valid()
      modifies numbers
      ensures Valid()
      ensures out == if old(numbers.frozen) then Fail(FrozenError) else Pass
      ensures numbers.algorithm == if out.Pass? then tag else old(numbers.algorithm)
      ensures numbers.includes == old(numbers.includes) && numbers.excludes == old(numbers.excludes)
      ensures numbers.callback == old(numbers.callback) && numbers.frozen == old(numbers.frozen)
    {
      out := numbers.SetAlgorithm(tag);
    }

    /** `empty?`: no dimension is configured, so none of them is derived and `validate!` has nothing to refuse. */
    predicate IsEmpty(): (r: bool)
      reads this, bins, softbins, numbers
      ensures r ==> !bins.IsFunction() && !softbins.IsFunction() && !numbers.IsFunction()
    {
      bins.IsEmpty() && softbins.IsEmpty() && numbers.IsEmpty()
    }

    /**
      `validate!`: a no-op once validated; otherwise refuses bins driven by an
      algorithm or a callback, and then marks the configuration validated and freezes it.
    */
    method Validate() returns (out: Outcome<ConfigError>)
      requires Valid()
      modifies this, bins, softbins, numbers
      ensures Valid()
      ensures old(validated) ==> out == Pass
      ensures !old(validated) && old(bins.algorithm).Some? ==> out == Fail(BinsAlgorithm)
      ensures !old(validated) && old(bins.algorithm).None? && old(bins.callback).Some? ==> out == Fail(BinsCallback)
      ensures !old(validated) && !old(bins.IsFunction()) && old(frozen) ==> out == Fail(FrozenError)
      ensures out.Fail? || old(validated) ==> unchanged(this, bins, softbins, numbers)
      ensures !old(validated) && !old(bins.IsFunction()) && !old(frozen) ==> out == Pass
      ensures out.Pass? ==> validated && frozen && bins.frozen && softbins.frozen && numbers.frozen
      ensures repo == old(repo) && onCompletion == old(onCompletion)
      ensures bins.includes == old(bins.includes) && bins.excludes == old(bins.excludes)
      ensures bins.algorithm == old(bins.algorithm) && bins.callback == old(bins.callback)
      ensures softbins.includes == old(softbins.includes) && softbins.excludes == old(softbins.excludes)
      ensures softbins.algorithm == old(softbins.algorithm) && softbins.callback == old(softbins.callback)
      ensures numbers.includes == old(numbers.includes) && numbers.excludes == old(numbers.excludes)
      ensures numbers.algorithm == old(numbers.algorithm) && numbers.callback == old(numbers.callback)
    {
      if validated {
        return Pass;
      }
      if bins.algorithm.Some? {
        return Fail(BinsAlgorithm);
      }
      if bins.callback.Some? {
        return Fail(BinsCallback);
      }
      if frozen {
        return Fail(FrozenError);
      }
      Freeze();
      validated := true;
      out := Pass;
    }

    /** `freeze`: the configuration and its three items accept no further change. */
    method Freeze()
      requires Valid()
      modifies this, bins, softbins, numbers
      ensures Valid()
      ensures frozen && bins.frozen && softbins.frozen && numbers.frozen
      ensures repo == old(repo) && onCompletion == old(onCompletion) && validated == old(validated)
      ensures bins.includes == old(bins.includes) && bins.excludes == old(bins.excludes)
      ensures bins.algorithm == old(bins.algorithm) && bins.callback == old(bins.callback)
      ensures softbins.includes == old(softbins.includes) && softbins.excludes == old(softbins.excludes)
      ensures softbins.algorithm == old(softbins.algorithm) && softbins.callback == old(softbins.callback)
      ensures numbers.includes == old(numbers.includes) && numbers.excludes == old(numbers.excludes)
      ensures numbers.algorithm == old(numbers.algorithm) && numbers.callback == old(numbers.callback)
    {
      bins.Freeze();
      softbins.Freeze();
      numbers.Freeze();
      frozen := true;
    }
  }

  /**
    A block passed to `softbins` on a new configuration: as written the call
    fails on the undefined `block`, while with the block parameter it stores
    the callback and succeeds, as `numbers` does.
  */
  method SoftbinsBlockWitness(f: int -> int) returns (asWritten: Outcome<ConfigError>, corrected: Outcome<ConfigError>, stored: Option<int -> int>)
    ensures asWritten == Fail(UndefinedBlock)
    ensures corrected == Pass && stored == Some(f)
  {
    var c := new Config("witness");
    var it;
    it, asWritten := c.SoftbinsAsWritten(Some(f));
    it, corrected := c.Softbins(Some(f));
    stored := it.callback;
  }
}

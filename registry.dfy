/** The submodule registry of `NetworkMod` as values: what one call of
    `initialize` does with each selector (index.js:98-125). The dynamic
    `require('./lib/<name>')` and `new req(this)` become a fixed table. */
module SubmoduleRegistry {
  import opened Selector

  /** A live submodule instance, reduced to what the controller observes of
      it: the features whose `initialize(feature)` returns without throwing. */
  datatype Submodule = Submodule(features: set<string>)

  /** The submodules that can be loaded: a name maps to the instance its
      constructor builds; a name that is absent cannot be required or its
      constructor throws. */
  type Table = map<string, Submodule>

  /** The two kinds of error the controller logs through `mod.error`. */
  datatype LogEntry =
    | LoadFailed(name: string)
    | FeatureFailed(name: string, feature: string)

  /** One call `submodule.initialize(feature)`. */
  datatype FeatureCall = FeatureCall(name: string, feature: string)

  /** `loadedSubmodules`: the instances by name and the order in which their
      keys were inserted (the order `for ... in` visits them). */
  datatype Submodules = Submodules(instances: map<string, Submodule>, order: seq<string>)

  /** The registry with the history of constructions, feature initialisations
      and logged errors. */
  datatype Registry = Registry(
    loaded: Submodules,
    constructed: seq<string>,
    featureInits: seq<FeatureCall>,
    errors: seq<LogEntry>)

  function Empty(): Registry
  {
    Registry(Submodules(map[], []), [], [], [])
  }

  predicate Distinct(names: seq<string>)
  {
    forall i, j :: 0 <= i < j < |names| ==> names[i] != names[j]
  }

  /** The registry invariant: every loaded instance is the one the table
      builds for its name, the insertion order lists each loaded name once,
      and the names constructed so far are exactly the loaded ones, so that
      no name was ever constructed twice. */
  ghost predicate Valid(r: Registry, table: Table)
  {
    && r.constructed == r.loaded.order
    && Distinct(r.loaded.order)
    && (forall n :: n in r.loaded.instances <==> n in r.loaded.order)
    && (forall n :: n in r.loaded.instances ==> n in table && r.loaded.instances[n] == table[n])
  }

  /** Loading `name` unless it is loaded already (index.js:104-114). */
  function Load(r: Registry, table: Table, name: string): Registry
  {
    if name in r.loaded.instances then r
    else if name in table then
      r.(loaded := Submodules(r.loaded.instances[name := table[name]], r.loaded.order + [name]),
         constructed := r.constructed + [name])
    else r.(errors := r.errors + [LoadFailed(name)])
  }

  /** Initialising `feature` of a loaded submodule (index.js:116-123). */
  function InitFeature(r: Registry, name: string, feature: string): Registry
  {
    if feature != "" && name in r.loaded.instances then
      var called := r.(featureInits := r.featureInits + [FeatureCall(name, feature)]);
      if feature in r.loaded.instances[name].features then called
      else called.(errors := called.errors + [FeatureFailed(name, feature)])
    else r
  }

  /** The loop body of `initialize` for one selector. */
  function Process(r: Registry, table: Table, selector: string): Registry
  {
    var (name, feature) := ParseSelector(selector);
    InitFeature(Load(r, table, name), name, feature)
  }

  /** `initialize(selectors)`: the selectors in order. */
  function Initialize(r: Registry, table: Table, selectors: seq<string>): Registry
    decreases |selectors|
  {
    if selectors == [] then r else Initialize(Process(r, table, selectors[0]), table, selectors[1..])
  }

  /** Processing a list is processing its first part, then its second: what
      one selector does never stops the selectors after it. */
  lemma {:induction false} InitializeAppend(r: Registry, table: Table, a: seq<string>, b: seq<string>)
    ensures Initialize(r, table, a + b) == Initialize(Initialize(r, table, a), table, b)
    decreases |a|
  {
    if a == [] {
      assert a + b == b;
    } else {
      assert (a + b)[0] == a[0];
      assert (a + b)[1..] == a[1..] + b;
      InitializeAppend(Process(r, table, a[0]), table, a[1..], b);
    }
  }

  lemma ProcessPreservesValid(r: Registry, table: Table, selector: string)
    requires Valid(r, table)
    ensures Valid(Process(r, table, selector), table)
  {
  }

  /** `initialize` keeps the registry invariant: in particular a name is
      constructed at most once over the controller's lifetime. */
  lemma {:induction false} InitializePreservesValid(r: Registry, table: Table, selectors: seq<string>)
    requires Valid(r, table)
    ensures Valid(Initialize(r, table, selectors), table)
    decreases |selectors|
  {
    if selectors != [] {
      ProcessPreservesValid(r, table, selectors[0]);
      InitializePreservesValid(Process(r, table, selectors[0]), table, selectors[1..]);
    }
  }

  /** An already-loaded submodule is never replaced: the same instance stays
      under its name, earlier insertions keep their place, and the history
      only grows. */
  lemma {:induction false} InitializeKeepsLoaded(r: Registry, table: Table, selectors: seq<string>)
    ensures var r' := Initialize(r, table, selectors);
      && (forall n :: n in r.loaded.instances ==> n in r'.loaded.instances && r'.loaded.instances[n] == r.loaded.instances[n])
      && r.loaded.order <= r'.loaded.order
      && r.constructed <= r'.constructed
      && r.featureInits <= r'.featureInits
      && r.errors <= r'.errors
    decreases |selectors|
  {
    if selectors != [] {
      InitializeKeepsLoaded(Process(r, table, selectors[0]), table, selectors[1..]);
    }
  }

  /** A selector whose name is neither loaded nor loadable only logs the load
      failure: no feature is initialised and the next selector starts from
      the same registry (index.js:110-113). */
  lemma FailedLoadOnlyLogs(r: Registry, table: Table, selector: string)
    requires ParseSelector(selector).0 !in r.loaded.instances
    requires ParseSelector(selector).0 !in table
    ensures Process(r, table, selector) == r.(errors := r.errors + [LoadFailed(ParseSelector(selector).0)])
  {
  }

  /** The number of selectors in `selectors` that name `name`. */
  function Mentions(selectors: seq<string>, name: string): nat
    decreases |selectors|
  {
    if selectors == [] then 0
    else (if ParseSelector(selectors[0]).0 == name then 1 else 0) + Mentions(selectors[1..], name)
  }

  /** One selector and a name that cannot be loaded: the name stays unloaded
      and exactly one load failure is logged for it iff the selector names it. */
  lemma ProcessLogsFailure(r: Registry, table: Table, selector: string, name: string)
    requires name !in r.loaded.instances && name !in table
    ensures var r1 := Process(r, table, selector);
      && name !in r1.loaded.instances
      && r.errors <= r1.errors
      && multiset(r1.errors[|r.errors|..])[LoadFailed(name)] == if ParseSelector(selector).0 == name then 1 else 0
  {
  }

  /** A name that cannot be loaded stays unloaded, and every selector naming
      it makes a fresh attempt that is logged: a failure is retried, never
      remembered. */
  lemma {:induction false} FailedLoadIsRetried(r: Registry, table: Table, selectors: seq<string>, name: string)
    requires name !in r.loaded.instances && name !in table
    ensures var r' := Initialize(r, table, selectors);
      && name !in r'.loaded.instances
      && r.errors <= r'.errors
      && multiset(r'.errors[|r.errors|..])[LoadFailed(name)] == Mentions(selectors, name)
    decreases |selectors|
  {
    if selectors != [] {
      var r1 := Process(r, table, selectors[0]);
      ProcessLogsFailure(r, table, selectors[0], name);
      FailedLoadIsRetried(r1, table, selectors[1..], name);
      var r' := Initialize(r1, table, selectors[1..]);
      assert r'.errors[|r.errors|..] == r1.errors[|r.errors|..] + r'.errors[|r1.errors|..];
    }
  }

  /** One selector calls `initialize(feature)` exactly when its feature is
      non-empty and its submodule is loaded at that moment (just loaded or
      loaded before), and logs `FeatureFailed` exactly when that call throws;
      the registry is otherwise the one `Load` left (index.js:116-123). */
  lemma FeatureCallPerSelector(r: Registry, table: Table, selector: string)
    ensures var (name, feature) := ParseSelector(selector);
      var loaded := Load(r, table, name);
      var called := feature != "" && name in loaded.loaded.instances;
      var r1 := Process(r, table, selector);
      && r1.loaded == loaded.loaded
      && r1.constructed == loaded.constructed
      && r1.featureInits == loaded.featureInits + (if called then [FeatureCall(name, feature)] else [])
      && r1.errors == loaded.errors
           + (if called && feature !in loaded.loaded.instances[name].features then [FeatureFailed(name, feature)] else [])
  {
  }

  /** `name.feature` on a submodule that is loaded, or loads now: its
      `initialize(feature)` is called, and a throwing one is logged as
      `FeatureFailed(name, feature)` with nothing else changed. */
  lemma DottedSelectorInitializesFeature(r: Registry, table: Table, name: string, feature: string)
    requires '.' !in name && '.' !in feature && feature != ""
    requires name in Load(r, table, name).loaded.instances
    ensures var loaded := Load(r, table, name);
      var r1 := Process(r, table, name + "." + feature);
      && r1.loaded == loaded.loaded
      && r1.featureInits == loaded.featureInits + [FeatureCall(name, feature)]
      && r1.errors == loaded.errors
           + (if feature in loaded.loaded.instances[name].features then [] else [FeatureFailed(name, feature)])
  {
    DottedSelector(name, feature);
  }

  /** A feature's `initialize` is called only with a non-empty feature and
      only on a submodule that is loaded (index.js:116). */
  lemma {:induction false} FeatureInitsNeedLoaded(r: Registry, table: Table, selectors: seq<string>)
    ensures var r' := Initialize(r, table, selectors);
      && r.featureInits <= r'.featureInits
      && forall i :: |r.featureInits| <= i < |r'.featureInits| ==>
           r'.featureInits[i].feature != "" && r'.featureInits[i].name in r'.loaded.instances
    decreases |selectors|
  {
    if selectors != [] {
      var r1 := Process(r, table, selectors[0]);
      FeatureInitsNeedLoaded(r1, table, selectors[1..]);
      InitializeKeepsLoaded(r1, table, selectors[1..]);
    }
  }

  /** `initialize(['a', 'b.x'])` with `a` missing still loads `b` and
      initialises its feature `x`. */
  lemma FailureDoesNotStopLaterSelectors(b: Submodule)
    requires "x" in b.features
    ensures var r := Initialize(Empty(), map["b" := b], ["a", "b.x"]);
      && r.loaded.instances == map["b" := b]
      && r.featureInits == [FeatureCall("b", "x")]
      && r.errors == [LoadFailed("a")]
  {
    PlainSelector("a");
    DottedSelector("b", "x");
    assert "b" + "." + "x" == "b.x";
  }

  /** `initialize('a')` twice constructs `a` once; dotted selectors on the
      loaded instance only initialise features. */
  lemma RepeatedInitializeConstructsOnce(a: Submodule)
    requires "f" in a.features && "g" in a.features
    ensures var r := Initialize(Empty(), map["a" := a], ["a", "a", "a.f", "a.g"]);
      && r.constructed == ["a"]
      && r.featureInits == [FeatureCall("a", "f"), FeatureCall("a", "g")]
      && r.errors == []
  {
    PlainSelector("a");
    DottedSelector("a", "f");
    DottedSelector("a", "g");
    assert "a" + "." + "f" == "a.f";
    assert "a" + "." + "g" == "a.g";
  }
}

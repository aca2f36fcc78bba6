/** The support-module loader: dotted-path lookup into a loaded module, and a
    per-key cache in front of three loading strategies tried in order. The
    host's module resolution (relative `import()`, `require`, aliased
    `import()`) is replaced by the outcome each strategy is given to have. */
module ModuleLoader {
  import opened JsValue

  /** `path.split('.').reduce((current, key) => ..., obj)`: a left fold that
      turns into undefined as soon as the current value is undefined or null. */
  function Walk(segments: seq<string>, current: Value): Value {
    if segments == [] then current
    else Walk(segments[1..], if current.Nullish() then Undefined else Prop(current, segments[0]))
  }

  /** Once the walk meets undefined or null, every further segment yields
      undefined: a missing segment never raises. */
  lemma {:induction false} WalkFromNullish(segments: seq<string>, current: Value)
    requires segments != [] && current.Nullish()
    ensures Walk(segments, current) == Undefined
  {
    if |segments| > 1 {
      WalkFromNullish(segments[1..], Undefined);
    }
  }

  /** The walk is a fold: walking `a` and then `b` is walking `a + b`. */
  lemma {:induction false} WalkAppend(a: seq<string>, b: seq<string>, current: Value)
    ensures Walk(a + b, current) == Walk(b, Walk(a, current))
  {
    if a != [] {
      assert (a + b)[0] == a[0];
      assert (a + b)[1..] == a[1..] + b;
      WalkAppend(a[1..], b, if current.Nullish() then Undefined else Prop(current, a[0]));
    } else {
      assert a + b == b;
    }
  }

  /** getNestedProperty(obj, path) */
  function GetNestedProperty(obj: Value, path: string): (r: Value)
    ensures path == "" || !obj.Truthy() ==> r == Undefined
    ensures path != "" && obj.Truthy() ==> r == Walk(Split(path), obj)
  {
    if path == "" || !obj.Truthy() then Undefined
    else if '.' !in path then
      SplitWithoutDot(path);
      Prop(obj, path)
    else Walk(Split(path), obj)
  }

  /** A path whose first k segments lead to undefined or null, with at least
      one segment left, yields undefined. */
  lemma MissingSegment(obj: Value, path: string, k: nat)
    requires path != "" && obj.Truthy()
    requires k < |Split(path)| && Walk(Split(path)[..k], obj).Nullish()
    ensures GetNestedProperty(obj, path) == Undefined
  {
    var segs := Split(path);
    assert segs == segs[..k] + segs[k..];
    WalkAppend(segs[..k], segs[k..], obj);
    WalkFromNullish(segs[k..], Walk(segs[..k], obj));
  }

  /** What one loading strategy does: yield a module namespace, or throw. */
  datatype StrategyOutcome = Imported(exports: Value) | Threw

  /** The three strategies, in the order they are tried: `import()` with a
      relative path, `require`, `import()` with the alias path. */
  datatype Strategies = Strategies(relativeImport: StrategyOutcome, require: StrategyOutcome, aliasImport: StrategyOutcome)

  /** `module = imported.default || imported` inside one strategy's `try`:
      reading `.default` off undefined or null throws, so that strategy fails. */
  function Attempt(o: StrategyOutcome): Option<Value> {
    match o
    case Threw => None
    case Imported(m) => if m.Nullish() then None else Some(Or(Prop(m, "default"), m))
  }

  /** Strategy number i (1, 2 or 3). */
  function Strategy(s: Strategies, i: nat): StrategyOutcome
    requires 1 <= i <= 3
  {
    if i == 1 then s.relativeImport else if i == 2 then s.require else s.aliasImport
  }

  /** How many strategies a load without a cached module runs. */
  function Tried(s: Strategies): (n: nat)
    ensures 1 <= n <= 3
    ensures forall i :: 1 <= i < n ==> Attempt(Strategy(s, i)).None?
    ensures n < 3 ==> Attempt(Strategy(s, n)).Some?
  {
    if Attempt(s.relativeImport).Some? then 1
    else if Attempt(s.require).Some? then 2
    else 3
  }

  /** The module a load without a cached module produces; None when all three
      strategies fail and the load throws. */
  function FirstSuccess(s: Strategies): (r: Option<Value>)
    ensures r.Some? <==> exists i :: 1 <= i <= 3 && Attempt(Strategy(s, i)).Some?
    ensures r == Attempt(Strategy(s, Tried(s)))
  {
    var r := Attempt(Strategy(s, Tried(s)));
    assert r.None? ==> forall i :: 1 <= i <= 3 ==> Attempt(Strategy(s, i)).None?;
    r
  }

  const ApiModuleKey := "apiModule"
  const ConstantsModuleKey := "constantsModule"

  /** The module a load of `key` yields from this cache: the cached module,
      or else whatever the strategies produce. */
  function LoadView(cache: map<string, Value>, key: string, s: Strategies): Option<Value> {
    if key in cache then Some(cache[key]) else FirstSuccess(s)
  }

  /** The cache after a load of `key`: unchanged on a hit or on failure, and
      extended with the loaded module on the first success. */
  function CacheAfterLoad(cache: map<string, Value>, key: string, s: Strategies): (c: map<string, Value>)
    ensures c.Keys == cache.Keys || c.Keys == cache.Keys + {key}
    ensures forall k :: k in cache ==> k in c && c[k] == cache[k]
    ensures key in c <==> LoadView(cache, key, s).Some?
  {
    if key in cache then cache
    else match FirstSuccess(s)
      case Some(m) => cache[key := m]
      case None => cache
  }

  /** A load never changes what later loads of any key yield (with the same
      strategy outcomes): the first success is cached, a failure caches nothing. */
  lemma LoadKeepsView(cache: map<string, Value>, key: string, s: Strategies, other: string, t: Strategies)
    requires other == key ==> t == s
    ensures LoadView(CacheAfterLoad(cache, key, s), other, t) == LoadView(cache, other, t)
  {
  }

  /** Once a load of `key` succeeded, every later load of `key` yields the
      same module, whatever the strategies would now do. */
  lemma CachedModuleWins(cache: map<string, Value>, key: string, s: Strategies, t: Strategies)
    requires LoadView(cache, key, s).Some?
    ensures LoadView(CacheAfterLoad(cache, key, s), key, t) == LoadView(cache, key, s)
  {
  }

  /** Loading the same key again with the same strategy outcomes changes
      nothing: a success is now a cache hit, a failure caches nothing. */
  lemma LoadIdempotent(cache: map<string, Value>, key: string, s: Strategies)
    ensures CacheAfterLoad(CacheAfterLoad(cache, key, s), key, s) == CacheAfterLoad(cache, key, s)
  {
  }

  /** Loads of two different keys leave the same cache in either order. */
  lemma LoadsCommute(cache: map<string, Value>, k1: string, s1: Strategies, k2: string, s2: Strategies)
    requires k1 != k2
    ensures CacheAfterLoad(CacheAfterLoad(cache, k1, s1), k2, s2) == CacheAfterLoad(CacheAfterLoad(cache, k2, s2), k1, s1)
  {
  }

  /** The process-wide module cache (`moduleCache`). */
  class Loader {
    var cache: map<string, Value>

    constructor ()
      ensures cache == map[]
    {
      cache := map[];
    }

    /** The body shared by loadApiModule and loadConstantsModule. `loaded` is
        None when the load throws; `attempts` counts the strategies run. */
    method Load(key: string, s: Strategies) returns (loaded: Option<Value>, attempts: nat)
      modifies this
      ensures loaded == LoadView(old(cache), key, s)
      ensures cache == CacheAfterLoad(old(cache), key, s)
      ensures key in old(cache) ==> attempts == 0
      ensures key !in old(cache) ==> attempts == Tried(s)
    {
      if key in cache {
        return Some(cache[key]), 0;
      }
      var m := Attempt(s.relativeImport);
      attempts := 1;
      if m.None? {
        m := Attempt(s.require);
        attempts := 2;
        if m.None? {
          m := Attempt(s.aliasImport);
          attempts := 3;
          if m.None? {
            // all three failed: the load throws and nothing is cached
            return None, 3;
          }
        }
      }
      cache := cache[key := m.value];
      loaded := m;
    }

    /** loadApiModule() */
    method LoadApiModule(s: Strategies) returns (loaded: Option<Value>, attempts: nat)
      modifies this
      ensures loaded == LoadView(old(cache), ApiModuleKey, s)
      ensures cache == CacheAfterLoad(old(cache), ApiModuleKey, s)
      ensures ApiModuleKey in old(cache) ==> attempts == 0
      ensures ApiModuleKey !in old(cache) ==> attempts == Tried(s)
    {
      loaded, attempts := Load(ApiModuleKey, s);
    }

    /** loadConstantsModule() */
    method LoadConstantsModule(s: Strategies) returns (loaded: Option<Value>, attempts: nat)
      modifies this
      ensures loaded == LoadView(old(cache), ConstantsModuleKey, s)
      ensures cache == CacheAfterLoad(old(cache), ConstantsModuleKey, s)
      ensures ConstantsModuleKey in old(cache) ==> attempts == 0
      ensures ConstantsModuleKey !in old(cache) ==> attempts == Tried(s)
    {
      loaded, attempts := Load(ConstantsModuleKey, s);
    }

    /** clearModuleCache(): every later load runs the strategies again. */
    method ClearModuleCache()
      modifies this
      ensures cache == map[]
      ensures forall key, s :: LoadView(cache, key, s) == FirstSuccess(s)
    {
      cache := map[];
    }
  }
}

/** The deferred tasks run after the structural pass (Promise.all over
    `apiPromises`). Each task writes one field, and no two tasks of a
    compilation share a field, so the order in which they finish does not
    matter: every field ends up resolved by its own task, or untouched. */
module TaskOrder {
  import opened JsValue
  import opened Schema
  import opened EnumResolver
  import opened SchemaCompiler
  import opened ModuleLoader

  /** No two tasks write the same field of the same block. */
  ghost predicate DistinctAddresses(ps: seq<Pending>) {
    forall i, j :: 0 <= i < j < |ps| ==> ps[i].block != ps[j].block || ps[i].field != ps[j].field
  }

  /** The source of the last task writing field `f` of block `b`. */
  function TaskSource(ps: seq<Pending>, b: string, f: string): (r: Option<Source>)
    ensures r.Some? ==> Pending(b, f, r.value) in ps
    ensures r.None? ==> forall p :: p in ps ==> p.block != b || p.field != f
  {
    if ps == [] then None
    else
      var q := ps[|ps| - 1];
      if q.block == b && q.field == f then Some(q.source)
      else
        var r := TaskSource(ps[..|ps| - 1], b, f);
        assert forall p :: p in ps ==> p in ps[..|ps| - 1] || p == q by {
          assert ps == ps[..|ps| - 1] + [q];
        }
        r
  }

  /** Whether a task writes that field, and from which source, is the same in
      any order of the same tasks. */
  lemma TaskSourcePermutation(ps: seq<Pending>, qs: seq<Pending>, b: string, f: string)
    requires DistinctAddresses(ps) && multiset(ps) == multiset(qs)
    ensures TaskSource(ps, b, f) == TaskSource(qs, b, f)
  {
    var x := TaskSource(ps, b, f);
    var y := TaskSource(qs, b, f);
    if x.Some? {
      assert Pending(b, f, x.value) in multiset(qs);
      assert y.Some?;
    }
    if y.Some? {
      assert Pending(b, f, y.value) in multiset(ps);
      var i :| 0 <= i < |ps| && ps[i] == Pending(b, f, x.value);
      var j :| 0 <= j < |ps| && ps[j] == Pending(b, f, y.value);
      // both write the same field, so they are the same task
      assert i == j;
    }
  }

  lemma SameShapeTrans(a: Ordered<Block>, b: Ordered<Block>, c: Ordered<Block>)
    requires SameShape(a, b) && SameShape(b, c)
    ensures SameShape(a, c)
  {
  }

  /** Running tasks changes no block, key, title or required list. */
  lemma {:induction false} ApplyAllShape(blocks: Ordered<Block>, ps: seq<Pending>, mods: Modules, invoke: (nat, Value) -> CallOutcome)
    ensures SameShape(ApplyAll(blocks, ps, mods, invoke), blocks)
  {
    if ps != [] {
      var prefix := ps[..|ps| - 1];
      ApplyAllShape(blocks, prefix, mods, invoke);
      var mid := ApplyAll(blocks, prefix, mods, invoke);
      ApplyPendingShape(mid, ps[|ps| - 1], mods, invoke);
      SameShapeTrans(ApplyPending(mid, ps[|ps| - 1], mods, invoke), mid, blocks);
    }
  }

  /** A field's value once the tasks have run: resolved by the task that
      writes it when there is one, unchanged otherwise. */
  function Expected(orig: Property, src: Option<Source>, mods: Modules, invoke: (nat, Value) -> CallOutcome): Property {
    match src
    case None => orig
    case Some(s) => Resolve(orig, s, mods, invoke)
  }

  /** Each field of a block is resolved by its own task, whatever the other
      tasks do. */
  lemma {:induction false} ApplyAllEntry(blocks: Ordered<Block>, ps: seq<Pending>, mods: Modules, invoke: (nat, Value) -> CallOutcome, b: string, f: string)
    requires DistinctAddresses(ps)
    requires b in blocks.vals && f in blocks.vals[b].properties.vals
    ensures var r := ApplyAll(blocks, ps, mods, invoke);
      && b in r.vals && f in r.vals[b].properties.vals
      && r.vals[b].properties.vals[f] == Expected(blocks.vals[b].properties.vals[f], TaskSource(ps, b, f), mods, invoke)
  {
    if ps != [] {
      var prefix := ps[..|ps| - 1];
      var q := ps[|ps| - 1];
      assert DistinctAddresses(prefix);
      ApplyAllEntry(blocks, prefix, mods, invoke, b, f);
      if q.block == b && q.field == f {
        // no earlier task writes the same field
        forall p | p in prefix
          ensures p.block != b || p.field != f
        {
          var i :| 0 <= i < |prefix| && prefix[i] == p;
          assert ps[i] == p;
        }
      }
    }
  }

  /** Two blocks with the same shape and the same property values are equal. */
  lemma BlockExt(a: Block, b: Block)
    requires a.title == b.title && a.required == b.required
    requires a.properties.keys == b.properties.keys && a.properties.vals.Keys == b.properties.vals.Keys
    requires forall f :: f in a.properties.vals ==> a.properties.vals[f] == b.properties.vals[f]
    ensures a == b
  {
    assert a.properties.vals == b.properties.vals;
  }

  /** Promise.all: completing the same tasks in any order gives the same tree. */
  lemma ApplyAllPermutation(blocks: Ordered<Block>, ps: seq<Pending>, qs: seq<Pending>, mods: Modules, invoke: (nat, Value) -> CallOutcome)
    requires DistinctAddresses(ps) && DistinctAddresses(qs) && multiset(ps) == multiset(qs)
    ensures ApplyAll(blocks, ps, mods, invoke) == ApplyAll(blocks, qs, mods, invoke)
  {
    var r1 := ApplyAll(blocks, ps, mods, invoke);
    var r2 := ApplyAll(blocks, qs, mods, invoke);
    ApplyAllShape(blocks, ps, mods, invoke);
    ApplyAllShape(blocks, qs, mods, invoke);
    forall k | k in r1.vals
      ensures r1.vals[k] == r2.vals[k]
    {
      forall f | f in r1.vals[k].properties.vals
        ensures r1.vals[k].properties.vals[f] == r2.vals[k].properties.vals[f]
      {
        ApplyAllEntry(blocks, ps, mods, invoke, k, f);
        ApplyAllEntry(blocks, qs, mods, invoke, k, f);
        TaskSourcePermutation(ps, qs, k, f);
      }
      BlockExt(r1.vals[k], r2.vals[k]);
    }
    assert r1.vals == r2.vals;
  }

  /** Some task of `ps` looks a dictionary up by a non-empty code. */
  ghost predicate LoadsConstants(ps: seq<Pending>) {
    exists p :: p in ps && p.source.DictSource? && p.source.dictCode != ""
  }

  /** Some task of `ps` calls a lookup function by a non-empty path. */
  ghost predicate LoadsApi(ps: seq<Pending>) {
    exists p :: p in ps && p.source.ApiSource? && p.source.api != ""
  }

  /** The cache after the tasks, whatever their order: the function table is
      loaded once if some task needs it, the dictionary table once if some
      task needs it, and nothing else is added. */
  ghost function TasksCache(cache: map<string, Value>, ps: seq<Pending>, env: Env): map<string, Value> {
    var c := if LoadsApi(ps) then CacheAfterLoad(cache, ApiModuleKey, env.apiStrategies) else cache;
    if LoadsConstants(ps) then CacheAfterLoad(c, ConstantsModuleKey, env.constantsStrategies) else c
  }

  /** Loading the function table after the dictionary table, or before it,
      or twice, leaves the same cache. */
  lemma ApiLoadLast(cache: map<string, Value>, env: Env, api: bool, consts: bool)
    ensures var a := CacheAfterLoad(cache, ApiModuleKey, env.apiStrategies);
      var c := if api then a else cache;
      var d := if consts then CacheAfterLoad(c, ConstantsModuleKey, env.constantsStrategies) else c;
      CacheAfterLoad(d, ApiModuleKey, env.apiStrategies) ==
        if consts then CacheAfterLoad(a, ConstantsModuleKey, env.constantsStrategies) else a
  {
    var sa, sc := env.apiStrategies, env.constantsStrategies;
    var a := CacheAfterLoad(cache, ApiModuleKey, sa);
    LoadIdempotent(cache, ApiModuleKey, sa);
    if consts {
      if api {
        LoadsCommute(a, ApiModuleKey, sa, ConstantsModuleKey, sc);
      } else {
        LoadsCommute(cache, ConstantsModuleKey, sc, ApiModuleKey, sa);
      }
    }
  }

  /** Running the tasks in order leaves exactly that cache. */
  lemma {:induction false} CacheAfterTasksLoads(cache: map<string, Value>, ps: seq<Pending>, env: Env)
    ensures CacheAfterTasks(cache, ps, env) == TasksCache(cache, ps, env)
  {
    if ps != [] {
      var prefix := ps[..|ps| - 1];
      var q := ps[|ps| - 1];
      CacheAfterTasksLoads(cache, prefix, env);
      assert ps == prefix + [q];
      assert forall p :: p in ps <==> p in prefix || p == q;
      var mid := TasksCache(cache, prefix, env);
      match q.source
      case DictSource(dictCode) =>
        assert LoadsApi(ps) == LoadsApi(prefix);
        if dictCode != "" {
          var c := if LoadsApi(prefix) then CacheAfterLoad(cache, ApiModuleKey, env.apiStrategies) else cache;
          LoadIdempotent(c, ConstantsModuleKey, env.constantsStrategies);
        } else {
          assert LoadsConstants(ps) == LoadsConstants(prefix);
        }
      case ApiSource(api, _) =>
        assert LoadsConstants(ps) == LoadsConstants(prefix);
        if api != "" {
          ApiLoadLast(cache, env, LoadsApi(prefix), LoadsConstants(prefix));
        } else {
          assert LoadsApi(ps) == LoadsApi(prefix);
        }
    }
  }

  /** Promise.all: the same tasks in any order leave the same cache. */
  lemma CacheAfterTasksPermutation(cache: map<string, Value>, ps: seq<Pending>, qs: seq<Pending>, env: Env)
    requires multiset(ps) == multiset(qs)
    ensures CacheAfterTasks(cache, ps, env) == CacheAfterTasks(cache, qs, env)
  {
    CacheAfterTasksLoads(cache, ps, env);
    CacheAfterTasksLoads(cache, qs, env);
    assert forall p :: p in ps <==> p in multiset(qs);
  }
}

/** renderJsonSchemaAsync and processBindField: one pass over the blocks and
    fields in key order that writes the output tree and collects the deferred
    option-list tasks, followed by running every task. The pass is specified
    by a fold over the configuration (BlocksPrefix, FieldsPrefix); the tasks
    by ApplyAll. */
module SchemaCompiler {
  import opened JsValue
  import opened Schema
  import opened FieldSynthesis
  import opened ModuleLoader
  import opened EnumResolver

  /** processBindField's effect on the current block: the primary property
      overwrites its own key, the required list grows when the field is
      required, and the companion is written only if its key is absent, so
      it never replaces an entry. None when building the primary throws. */
  function BindFieldStep(blk: Block, key: string, propKey: string, f: Field, dictApiMaps: map<string, Value>): (r: Option<Block>)
    ensures r.None? <==> PrimaryProperty(key, propKey, f, dictApiMaps).None?
    ensures r.Some? ==>
      && r.value.title == blk.title
      && r.value.required == (if f.required then blk.required + [propKey] else blk.required)
      && propKey in r.value.properties.vals
      && r.value.properties.vals[propKey] == PrimaryProperty(key, propKey, f, dictApiMaps).value
      && BindCodeOf(propKey, f) in r.value.properties.vals
      && (BindCodeOf(propKey, f) !in blk.properties.vals && BindCodeOf(propKey, f) != propKey ==>
            r.value.properties.vals[BindCodeOf(propKey, f)] == CompanionProperty(key, propKey, f))
    ensures r.Some? ==> forall k :: k in blk.properties.vals && k != propKey ==>
      k in r.value.properties.vals && r.value.properties.vals[k] == blk.properties.vals[k]
    ensures r.Some? ==> forall k :: k in r.value.properties.vals ==>
      k in blk.properties.vals || k == propKey || k == BindCodeOf(propKey, f)
  {
    match PrimaryProperty(key, propKey, f, dictApiMaps)
    case None => None
    case Some(main) =>
      var props := blk.properties.Put(propKey, main);
      var required := if f.required then blk.required + [propKey] else blk.required;
      var bindField := BindCodeOf(propKey, f);
      Some(Block(blk.title, required,
                 if bindField in props.vals then props else props.Put(bindField, CompanionProperty(key, propKey, f))))
  }

  /** A block under construction and the tasks registered so far. */
  datatype BlockState = BlockState(block: Block, pending: seq<Pending>)

  /** The property a field writes under its own key: the primary property of
      a bound field, the normal property otherwise. */
  function OwnProperty(key: string, propKey: string, f: Field): Property {
    if IsBound(f) then PrimaryProperty(key, propKey, f, map[]).value else NormalProperty(f)
  }

  /** The block after one iteration of the field loop: bound fields go to
      processBindField with an empty `dictApiMaps`; any other field pushes its
      key when required and writes its normal property. Either way the field's
      own key ends up holding its own property, no other entry changes, and
      the only other key that can appear is a bound field's companion. */
  function FieldBlock(blk: Block, key: string, propKey: string, f: Field): (r: Block)
    ensures r.title == blk.title
    ensures r.required == if f.required then blk.required + [propKey] else blk.required
    ensures propKey in r.properties.vals && r.properties.vals[propKey] == OwnProperty(key, propKey, f)
    ensures IsBound(f) ==> BindCodeOf(propKey, f) in r.properties.vals
  {
    if IsBound(f) then BindFieldStep(blk, key, propKey, f, map[]).value
    else
      var required := if f.required then blk.required + [propKey] else blk.required;
      Block(blk.title, required, blk.properties.Put(propKey, NormalProperty(f)))
  }

  /** One iteration changes no entry but the field's own one, and adds at
      most a bound field's companion. */
  lemma FieldBlockEntries(blk: Block, key: string, propKey: string, f: Field)
    ensures var r := FieldBlock(blk, key, propKey, f);
      && (forall k :: k in blk.properties.vals && k != propKey ==>
            k in r.properties.vals && r.properties.vals[k] == blk.properties.vals[k])
      && (forall k :: k in r.properties.vals ==>
            k in blk.properties.vals || k == propKey || (IsBound(f) && k == BindCodeOf(propKey, f)))
  {
  }

  /** One iteration keeps the block's entries an ordered object. */
  lemma FieldBlockValid(blk: Block, key: string, propKey: string, f: Field)
    requires blk.properties.Valid()
    ensures FieldBlock(blk, key, propKey, f).properties.Valid()
  {
    PutValid(blk.properties, propKey, OwnProperty(key, propKey, f));
    var props := blk.properties.Put(propKey, OwnProperty(key, propKey, f));
    if IsBound(f) && BindCodeOf(propKey, f) !in props.vals {
      PutValid(props, BindCodeOf(propKey, f), CompanionProperty(key, propKey, f));
    }
  }

  /** The task one iteration registers: a dictionary or lookup source of a
      field that is not bound. */
  function FieldTasks(key: string, propKey: string, f: Field): seq<Pending> {
    if IsBound(f) then []
    else match NormalSource(f)
      case Some(src) => [Pending(key, propKey, src)]
      case None => []
  }

  function FieldStep(st: BlockState, key: string, propKey: string, f: Field): BlockState {
    BlockState(FieldBlock(st.block, key, propKey, f), st.pending + FieldTasks(key, propKey, f))
  }

  /** Every task of the block state writes an existing field of block `key`. */
  ghost predicate Placed(key: string, st: BlockState) {
    forall p :: p in st.pending ==> p.block == key && p.field in st.block.properties.vals
  }

  /** The block's own entries after its first n fields: the title is the
      block's, and every field has an entry in an ordered object. */
  ghost predicate EntriesInvariant(title: string, props: Ordered<Field>, n: nat, blk: Block)
    requires n <= |props.keys|
  {
    && blk.title == title
    && blk.properties.Valid()
    && (forall k :: k in props.keys[..n] ==> k in blk.properties.vals)
  }

  /** `required` holds each required field among the first n exactly once. */
  ghost predicate RequiredInvariant(props: Ordered<Field>, n: nat, required: seq<string>)
    requires props.Valid() && n <= |props.keys|
  {
    && (forall k :: k in required <==> k in props.keys[..n] && props.vals[k].required)
    && (forall i :: 0 <= i < |required| ==> required[i] !in required[..i])
  }

  /** The tasks are those the first n fields register, one per field, each
      writing an entry of block `key` that exists. */
  ghost predicate TasksInvariant(key: string, props: Ordered<Field>, n: nat, st: BlockState)
    requires props.Valid() && n <= |props.keys|
  {
    && Placed(key, st)
    && (forall p :: p in st.pending ==> p.field in props.keys[..n] && FieldTasks(key, p.field, props.vals[p.field]) == [p])
    && (forall i, j :: 0 <= i < j < |st.pending| ==> st.pending[i].field != st.pending[j].field)
  }

  ghost predicate BlockInvariant(key: string, title: string, props: Ordered<Field>, n: nat, st: BlockState)
    requires props.Valid() && n <= |props.keys|
  {
    EntriesInvariant(title, props, n, st.block) && RequiredInvariant(props, n, st.block.required) && TasksInvariant(key, props, n, st)
  }

  lemma EntriesStep(key: string, title: string, props: Ordered<Field>, n: nat, blk: Block)
    requires props.Valid() && 0 < n <= |props.keys|
    requires EntriesInvariant(title, props, n - 1, blk)
    ensures EntriesInvariant(title, props, n, FieldBlock(blk, key, props.keys[n - 1], props.vals[props.keys[n - 1]]))
  {
    assert props.keys[..n] == props.keys[..n - 1] + [props.keys[n - 1]];
    FieldBlockValid(blk, key, props.keys[n - 1], props.vals[props.keys[n - 1]]);
    FieldBlockEntries(blk, key, props.keys[n - 1], props.vals[props.keys[n - 1]]);
  }

  lemma RequiredStep(key: string, props: Ordered<Field>, n: nat, blk: Block)
    requires props.Valid() && 0 < n <= |props.keys|
    requires RequiredInvariant(props, n - 1, blk.required)
    ensures RequiredInvariant(props, n, FieldBlock(blk, key, props.keys[n - 1], props.vals[props.keys[n - 1]]).required)
  {
    var propKey := props.keys[n - 1];
    assert props.keys[..n] == props.keys[..n - 1] + [propKey];
    assert propKey !in props.keys[..n - 1];
    var required := FieldBlock(blk, key, propKey, props.vals[propKey]).required;
    if props.vals[propKey].required {
      assert required[..|required| - 1] == blk.required;
    }
  }

  lemma TasksStep(key: string, props: Ordered<Field>, n: nat, st: BlockState)
    requires props.Valid() && 0 < n <= |props.keys|
    requires TasksInvariant(key, props, n - 1, st)
    ensures TasksInvariant(key, props, n, FieldStep(st, key, props.keys[n - 1], props.vals[props.keys[n - 1]]))
  {
    TasksOriginStep(key, props, n, st);
    TasksDistinctStep(key, props, n, st);
  }

  lemma TasksOriginStep(key: string, props: Ordered<Field>, n: nat, st: BlockState)
    requires props.Valid() && 0 < n <= |props.keys|
    requires TasksInvariant(key, props, n - 1, st)
    ensures var st' := FieldStep(st, key, props.keys[n - 1], props.vals[props.keys[n - 1]]);
      && Placed(key, st')
      && forall p :: p in st'.pending ==> p.field in props.keys[..n] && FieldTasks(key, p.field, props.vals[p.field]) == [p]
  {
    var propKey := props.keys[n - 1];
    var f := props.vals[propKey];
    var st' := FieldStep(st, key, propKey, f);
    assert props.keys[..n] == props.keys[..n - 1] + [propKey];
    FieldBlockEntries(st.block, key, propKey, f);
    forall p | p in st'.pending
      ensures p.block == key && p.field in st'.block.properties.vals
      ensures p.field in props.keys[..n] && FieldTasks(key, p.field, props.vals[p.field]) == [p]
    {
      if p !in st.pending {
        assert p in FieldTasks(key, propKey, f);
      }
    }
  }

  lemma TasksDistinctStep(key: string, props: Ordered<Field>, n: nat, st: BlockState)
    requires props.Valid() && 0 < n <= |props.keys|
    requires TasksInvariant(key, props, n - 1, st)
    ensures var pending := FieldStep(st, key, props.keys[n - 1], props.vals[props.keys[n - 1]]).pending;
      forall i, j :: 0 <= i < j < |pending| ==> pending[i].field != pending[j].field
  {
    var propKey := props.keys[n - 1];
    assert propKey !in props.keys[..n - 1];
    var pending := FieldStep(st, key, propKey, props.vals[propKey]).pending;
    forall i, j | 0 <= i < j < |pending|
      ensures pending[i].field != pending[j].field
    {
      if j >= |st.pending| {
        assert st.pending[i] in st.pending;
      }
    }
  }

  /** The block `key` and its tasks after its first n fields. (Every key of
      an object has an entry; a key without one would contribute nothing.) */
  function FieldsPrefix(key: string, title: string, props: Ordered<Field>, n: nat): BlockState
    requires n <= |props.keys|
  {
    if n == 0 then BlockState(Block(title, [], EmptyObject()), [])
    else
      var st := FieldsPrefix(key, title, props, n - 1);
      var propKey := props.keys[n - 1];
      if propKey in props.vals then FieldStep(st, key, propKey, props.vals[propKey]) else st
  }

  /** The field loop keeps the block invariant. */
  lemma {:induction false} FieldsPrefixInvariant(key: string, title: string, props: Ordered<Field>, n: nat)
    requires props.Valid() && n <= |props.keys|
    ensures BlockInvariant(key, title, props, n, FieldsPrefix(key, title, props, n))
  {
    if n > 0 {
      FieldsPrefixInvariant(key, title, props, n - 1);
      var st := FieldsPrefix(key, title, props, n - 1);
      assert props.keys[n - 1] in props.keys;
      EntriesStep(key, title, props, n, st.block);
      RequiredStep(key, props, n, st.block);
      TasksStep(key, props, n, st);
    }
  }

  /** The key names a block that is emitted: not "title", and with truthy `properties`. */
  predicate Emits(cfg: Config, key: string) {
    key != "title" && key in cfg.blocks && cfg.blocks[key].properties.Some?
  }

  /** The tree before any block: title, type, required list and `ui:options`. */
  function InitialTree(cfg: Config): Tree {
    Tree(if cfg.title != "" then cfg.title else "title", "object", [], EmptyObject(), TopOptions(true, "0"))
  }

  /** The output tree and its tasks after the structural pass. */
  datatype Structure = Structure(tree: Tree, pending: seq<Pending>)

  /** Every task of the structure writes a field that exists. */
  ghost predicate TreePlaced(s: Structure) {
    forall p :: p in s.pending ==>
      p.block in s.tree.properties.vals && p.field in s.tree.properties.vals[p.block].properties.vals
  }

  /** Adding a block with placed tasks keeps the structure's tasks placed. */
  lemma AddBlockPlaced(s: Structure, key: string, st: BlockState)
    requires TreePlaced(s) && Placed(key, st)
    requires forall p :: p in s.pending ==> p.block != key
    ensures TreePlaced(AddBlock(s, key, st))
  {
    var t := AddBlock(s, key, st);
    forall p | p in t.pending
      ensures p.block in t.tree.properties.vals && p.field in t.tree.properties.vals[p.block].properties.vals
    {
      if p !in st.pending {
        assert p in s.pending;
      }
    }
  }

  /** The structural pass over the first n keys of the configuration. */
  function BlocksPrefix(cfg: Config, n: nat): Structure
    requires n <= |cfg.keys|
  {
    if n == 0 then Structure(InitialTree(cfg), [])
    else
      var s := BlocksPrefix(cfg, n - 1);
      var key := cfg.keys[n - 1];
      if !Emits(cfg, key) then s
      else
        var bc := cfg.blocks[key];
        AddBlock(s, key, FieldsPrefix(key, bc.title, bc.properties.value, |bc.properties.value.keys|))
  }

  /** Every task of a finished block writes an existing field of that block. */
  lemma BlockPlaced(key: string, title: string, props: Ordered<Field>)
    requires props.Valid()
    ensures Placed(key, FieldsPrefix(key, title, props, |props.keys|))
  {
    FieldsPrefixInvariant(key, title, props, |props.keys|);
  }

  /** Every task of the structural pass writes a field that exists, of a
      block among the keys passed so far. */
  lemma {:induction false} PendingPlaced(cfg: Config, n: nat)
    requires cfg.Valid() && n <= |cfg.keys|
    ensures TreePlaced(BlocksPrefix(cfg, n))
    ensures forall p :: p in BlocksPrefix(cfg, n).pending ==> p.block in cfg.keys[..n]
  {
    if n > 0 {
      PendingPlaced(cfg, n - 1);
      var key := cfg.keys[n - 1];
      assert cfg.keys[..n] == cfg.keys[..n - 1] + [key];
      if Emits(cfg, key) {
        var bc := cfg.blocks[key];
        BlockPlaced(key, bc.title, bc.properties.value);
        assert key !in cfg.keys[..n - 1];
        AddBlockPlaced(BlocksPrefix(cfg, n - 1), key, FieldsPrefix(key, bc.title, bc.properties.value, |bc.properties.value.keys|));
      }
    }
  }

  /** Writes a finished block under its key and appends its tasks. */
  function AddBlock(s: Structure, key: string, st: BlockState): Structure {
    Structure(s.tree.(properties := s.tree.properties.Put(key, st.block)), s.pending + st.pending)
  }

  /** The tasks run one after the other, in the order given. */
  function ApplyAll(blocks: Ordered<Block>, ps: seq<Pending>, mods: Modules, invoke: (nat, Value) -> CallOutcome): Ordered<Block> {
    if ps == [] then blocks
    else ApplyPending(ApplyAll(blocks, ps[..|ps| - 1], mods, invoke), ps[|ps| - 1], mods, invoke)
  }

  /** The module cache after running the tasks in order. */
  function CacheAfterTasks(cache: map<string, Value>, ps: seq<Pending>, env: Env): map<string, Value> {
    if ps == [] then cache
    else CacheAfterTask(CacheAfterTasks(cache, ps[..|ps| - 1], env), ps[|ps| - 1].source, env)
  }

  /** What renderJsonSchemaAsync resolves to, given the modules every load yields. */
  function Compile(formConfig: Option<FormConfig>, mods: Modules, invoke: (nat, Value) -> CallOutcome): Option<Tree> {
    if formConfig.None? || formConfig.value.config.None? then None
    else
      var cfg := formConfig.value.config.value;
      var s := BlocksPrefix(cfg, |cfg.keys|);
      Some(s.tree.(properties := ApplyAll(s.tree.properties, s.pending, mods, invoke)))
  }

  /** processBindField(key, jsonSchema, propKey, propConfig, dictApiMaps).
      Returns whether it threw, in which case nothing was written. */
  method ProcessBindField(key: string, jsonSchema: JsonSchema, propKey: string, propConfig: Field, dictApiMaps: map<string, Value>)
    returns (threw: bool)
    requires key in jsonSchema.properties.vals
    modifies jsonSchema`properties
    ensures threw <==> BindFieldStep(old(jsonSchema.properties.vals[key]), key, propKey, propConfig, dictApiMaps).None?
    ensures !threw ==>
      jsonSchema.properties == old(jsonSchema.properties).Put(key, BindFieldStep(old(jsonSchema.properties.vals[key]), key, propKey, propConfig, dictApiMaps).value)
    ensures threw ==> jsonSchema.properties == old(jsonSchema.properties)
  {
    var mainField := propKey;
    var bindField := BindCodeOf(propKey, propConfig);
    var mainProperty := PrimaryProperty(key, propKey, propConfig, dictApiMaps);
    if mainProperty.None? {
      return true;
    }
    threw := false;
    var blk := jsonSchema.properties.vals[key];
    blk := blk.(properties := blk.properties.Put(mainField, mainProperty.value));
    if propConfig.required {
      blk := blk.(required := blk.required + [mainField]);
    }
    // the companion never overwrites an existing entry
    if bindField !in blk.properties.vals {
      blk := blk.(properties := blk.properties.Put(bindField, CompanionProperty(key, mainField, propConfig)));
    }
    jsonSchema.properties := jsonSchema.properties.Put(key, blk);
  }

  /** Every task's address exists in the output tree. */
  ghost predicate AllPlaced(ps: seq<Pending>, blocks: Ordered<Block>) {
    forall p :: p in ps ==> p.block in blocks.vals && p.field in blocks.vals[p.block].properties.vals
  }

  /** One registered task, dispatched on where its options come from. */
  method RunTask(jsonSchema: JsonSchema, p: Pending, ghost ps: seq<Pending>, loader: Loader, env: Env)
    requires AllPlaced(ps, jsonSchema.properties) && p in ps
    modifies jsonSchema`properties, loader
    ensures jsonSchema.properties == ApplyPending(old(jsonSchema.properties), p, ModulesOf(old(loader.cache), env), env.invoke)
    ensures AllPlaced(ps, jsonSchema.properties)
    ensures ModulesOf(loader.cache, env) == ModulesOf(old(loader.cache), env)
    ensures loader.cache == CacheAfterTask(old(loader.cache), p.source, env)
  {
    match p.source {
      case DictSource(dictCode) =>
        ResolveDictField(jsonSchema, p.block, p.field, dictCode, loader, env);
      case ApiSource(api, params) =>
        var _ := ProcessEnumApi(jsonSchema, p.block, p.field, api, params, loader, env);
    }
    ApplyPendingShape(old(jsonSchema.properties), p, ModulesOf(old(loader.cache), env), env.invoke);
  }

  /** The join: run every registered task. */
  method ResolvePending(jsonSchema: JsonSchema, apiPromises: seq<Pending>, loader: Loader, env: Env)
    requires AllPlaced(apiPromises, jsonSchema.properties)
    modifies jsonSchema`properties, loader
    ensures jsonSchema.properties == ApplyAll(old(jsonSchema.properties), apiPromises, ModulesOf(old(loader.cache), env), env.invoke)
    ensures ModulesOf(loader.cache, env) == ModulesOf(old(loader.cache), env)
    ensures loader.cache == CacheAfterTasks(old(loader.cache), apiPromises, env)
  {
    ghost var mods := ModulesOf(loader.cache, env);
    var i := 0;
    while i < |apiPromises|
      invariant 0 <= i <= |apiPromises|
      invariant jsonSchema.properties == ApplyAll(old(jsonSchema.properties), apiPromises[..i], mods, env.invoke)
      invariant ModulesOf(loader.cache, env) == mods
      invariant loader.cache == CacheAfterTasks(old(loader.cache), apiPromises[..i], env)
      invariant AllPlaced(apiPromises, jsonSchema.properties)
    {
      RunTask(jsonSchema, apiPromises[i], apiPromises, loader, env);
      assert apiPromises[..i + 1][..i] == apiPromises[..i];
      i := i + 1;
    }
    assert apiPromises[..i] == apiPromises;
  }

  /** One iteration of the field loop on the block `key` of the document. */
  method ProcessField(jsonSchema: JsonSchema, key: string, propKey: string, propConfig: Field) returns (tasks: seq<Pending>)
    requires key in jsonSchema.properties.vals
    modifies jsonSchema`properties
    ensures jsonSchema.properties ==
      old(jsonSchema.properties).Put(key, FieldBlock(old(jsonSchema.properties.vals[key]), key, propKey, propConfig))
    ensures tasks == FieldTasks(key, propKey, propConfig)
  {
    if IsBound(propConfig) {
      var _ := ProcessBindField(key, jsonSchema, propKey, propConfig, map[]);
      return [];
    }
    var blk := jsonSchema.properties.vals[key];
    if propConfig.required {
      blk := blk.(required := blk.required + [propKey]);
    }
    var property := NormalProperty(propConfig);
    tasks := [];
    match NormalSource(propConfig) {
      case Some(src) =>
        tasks := [Pending(key, propKey, src)];
      case None =>
    }
    blk := blk.(properties := blk.properties.Put(propKey, property));
    jsonSchema.properties := jsonSchema.properties.Put(key, blk);
  }

  /** One iteration of the block loop: an empty block under `key`, then every
      field in key order. */
  method ProcessBlock(jsonSchema: JsonSchema, key: string, moduleConfig: BlockConfig) returns (tasks: seq<Pending>)
    requires moduleConfig.properties.Some? && moduleConfig.properties.value.Valid()
    modifies jsonSchema`properties
    ensures var st := FieldsPrefix(key, moduleConfig.title, moduleConfig.properties.value, |moduleConfig.properties.value.keys|);
      jsonSchema.properties == old(jsonSchema.properties).Put(key, st.block) && tasks == st.pending
  {
    ghost var base := jsonSchema.properties;
    jsonSchema.properties := jsonSchema.properties.Put(key, Block(moduleConfig.title, [], EmptyObject()));
    var props := moduleConfig.properties.value;
    tasks := [];
    var j := 0;
    while j < |props.keys|
      invariant 0 <= j <= |props.keys|
      invariant jsonSchema.properties == base.Put(key, FieldsPrefix(key, moduleConfig.title, props, j).block)
      invariant tasks == FieldsPrefix(key, moduleConfig.title, props, j).pending
    {
      ghost var st := FieldsPrefix(key, moduleConfig.title, props, j);
      var propKey := props.keys[j];
      assert propKey in props.keys;
      var more := ProcessField(jsonSchema, key, propKey, props.vals[propKey]);
      tasks := tasks + more;
      PutTwice(base, key, st.block, FieldBlock(st.block, key, propKey, props.vals[propKey]));
      j := j + 1;
    }
  }

  /** The synchronous part of renderJsonSchemaAsync: the tree without the
      deferred option lists, and the tasks that fill them in. */
  method BuildStructure(config: Config) returns (jsonSchema: JsonSchema, apiPromises: seq<Pending>)
    requires config.Valid()
    ensures fresh(jsonSchema)
    ensures jsonSchema.Snapshot() == BlocksPrefix(config, |config.keys|).tree
    ensures apiPromises == BlocksPrefix(config, |config.keys|).pending
  {
    jsonSchema := new JsonSchema(if config.title != "" then config.title else "title");
    apiPromises := [];
    var i := 0;
    while i < |config.keys|
      invariant 0 <= i <= |config.keys|
      invariant jsonSchema.Snapshot() == BlocksPrefix(config, i).tree
      invariant apiPromises == BlocksPrefix(config, i).pending
    {
      var key := config.keys[i];
      if key != "title" {
        var moduleConfig := config.blocks[key];
        if moduleConfig.properties.Some? {
          var tasks := ProcessBlock(jsonSchema, key, moduleConfig);
          apiPromises := apiPromises + tasks;
        }
      }
      i := i + 1;
    }
  }

  /** renderJsonSchemaAsync(formConfig): None is the `null` returned for a
      missing configuration. */
  method RenderJsonSchemaAsync(formConfig: Option<FormConfig>, loader: Loader, env: Env) returns (r: Option<Tree>)
    requires formConfig.Some? && formConfig.value.config.Some? ==> formConfig.value.config.value.Valid()
    modifies loader
    ensures r == Compile(formConfig, ModulesOf(old(loader.cache), env), env.invoke)
    // loading leaves what later loads yield unchanged, so compiling again gives the same tree
    ensures ModulesOf(loader.cache, env) == ModulesOf(old(loader.cache), env)
    // a missing configuration loads nothing; otherwise each task loads what its source names
    ensures formConfig.None? || formConfig.value.config.None? ==> loader.cache == old(loader.cache)
    ensures formConfig.Some? && formConfig.value.config.Some? ==>
      var cfg := formConfig.value.config.value;
      loader.cache == CacheAfterTasks(old(loader.cache), BlocksPrefix(cfg, |cfg.keys|).pending, env)
  {
    if formConfig.None? || formConfig.value.config.None? {
      return None;
    }
    var jsonSchema, apiPromises := BuildStructure(formConfig.value.config.value);
    PendingPlaced(formConfig.value.config.value, |formConfig.value.config.value.keys|);
    ResolvePending(jsonSchema, apiPromises, loader, env);
    r := Some(jsonSchema.Snapshot());
  }
}

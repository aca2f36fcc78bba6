/** What renderJsonSchemaAsync resolves to, stated block by block and field
    by field: the blocks appear in configuration order, each keeps its title
    and lists exactly its required fields, and every field ends up holding
    its own property, resolved by its own option-list task when it has one,
    whatever order the tasks finish in. */
module CompileFacts {
  import opened JsValue
  import opened Schema
  import opened FieldSynthesis
  import opened EnumResolver
  import opened SchemaCompiler
  import opened TaskOrder

  // ---------------------------------------------------------------- one block

  /** After the first n fields each of them holds its own property: later
      fields never overwrite it, since a companion is only written where no
      entry exists. */
  ghost predicate OwnEntries(key: string, props: Ordered<Field>, n: nat, blk: Block)
    requires props.Valid() && n <= |props.keys|
  {
    forall k :: k in props.keys[..n] ==> k in blk.properties.vals && blk.properties.vals[k] == OwnProperty(key, k, props.vals[k])
  }

  /** Every task the first n fields register is among the block's tasks. */
  ghost predicate TasksComplete(key: string, props: Ordered<Field>, n: nat, pending: seq<Pending>)
    requires props.Valid() && n <= |props.keys|
  {
    forall k, p :: k in props.keys[..n] && p in FieldTasks(key, k, props.vals[k]) ==> p in pending
  }

  lemma OwnEntriesStep(key: string, props: Ordered<Field>, n: nat, blk: Block)
    requires props.Valid() && 0 < n <= |props.keys|
    requires OwnEntries(key, props, n - 1, blk)
    ensures OwnEntries(key, props, n, FieldBlock(blk, key, props.keys[n - 1], props.vals[props.keys[n - 1]]))
  {
    assert props.keys[..n] == props.keys[..n - 1] + [props.keys[n - 1]];
    FieldBlockEntries(blk, key, props.keys[n - 1], props.vals[props.keys[n - 1]]);
  }

  lemma TasksCompleteStep(key: string, props: Ordered<Field>, n: nat, st: BlockState)
    requires props.Valid() && 0 < n <= |props.keys|
    requires TasksComplete(key, props, n - 1, st.pending)
    ensures TasksComplete(key, props, n, FieldStep(st, key, props.keys[n - 1], props.vals[props.keys[n - 1]]).pending)
  {
    assert props.keys[..n] == props.keys[..n - 1] + [props.keys[n - 1]];
  }

  /** The field loop leaves every field holding its own property and
      registers every field's task. */
  lemma {:induction false} FieldsPrefixFields(key: string, title: string, props: Ordered<Field>, n: nat)
    requires props.Valid() && n <= |props.keys|
    ensures OwnEntries(key, props, n, FieldsPrefix(key, title, props, n).block)
    ensures TasksComplete(key, props, n, FieldsPrefix(key, title, props, n).pending)
  {
    if n > 0 {
      FieldsPrefixFields(key, title, props, n - 1);
      var st := FieldsPrefix(key, title, props, n - 1);
      assert props.keys[n - 1] in props.keys;
      OwnEntriesStep(key, props, n, st.block);
      TasksCompleteStep(key, props, n, st);
    }
  }

  /** The keys of the required fields among the first n, in declaration order. */
  function RequiredKeys(props: Ordered<Field>, n: nat): seq<string>
    requires n <= |props.keys|
  {
    if n == 0 then []
    else
      var k := props.keys[n - 1];
      RequiredKeys(props, n - 1) + (if k in props.vals && props.vals[k].required then [k] else [])
  }

  /** A block's `required` list is its required field keys in declaration
      order: a bound field pushes its own key, never its companion's. */
  lemma {:induction false} FieldsPrefixRequired(key: string, title: string, props: Ordered<Field>, n: nat)
    requires n <= |props.keys|
    ensures FieldsPrefix(key, title, props, n).block.required == RequiredKeys(props, n)
  {
    if n > 0 {
      FieldsPrefixRequired(key, title, props, n - 1);
    }
  }

  // ------------------------------------------------------------ the structure

  /** The finished block `key` and its tasks. */
  function BlockOf(cfg: Config, key: string): BlockState
    requires Emits(cfg, key)
  {
    var bc := cfg.blocks[key];
    FieldsPrefix(key, bc.title, bc.properties.value, |bc.properties.value.keys|)
  }

  /** The emitted keys among the first n, in configuration order. */
  function EmittedKeys(cfg: Config, n: nat): seq<string>
    requires n <= |cfg.keys|
  {
    if n == 0 then []
    else EmittedKeys(cfg, n - 1) + (if Emits(cfg, cfg.keys[n - 1]) then [cfg.keys[n - 1]] else [])
  }

  /** The tree after the first n keys: the fixed top-level entries, and one
      finished block per emitted key, in order. */
  ghost predicate TreeInvariant(cfg: Config, n: nat, t: Tree)
    requires n <= |cfg.keys|
  {
    && t.(properties := EmptyObject()) == InitialTree(cfg)
    && t.properties.keys == EmittedKeys(cfg, n)
    && (forall k :: k in t.properties.vals <==> k in cfg.keys[..n] && Emits(cfg, k))
    && (forall k :: k in t.properties.vals ==> Emits(cfg, k) && t.properties.vals[k] == BlockOf(cfg, k).block)
  }

  /** Every task comes from an emitted block among the first n keys. */
  ghost predicate PendingOrigin(cfg: Config, n: nat, ps: seq<Pending>)
    requires n <= |cfg.keys|
  {
    forall p :: p in ps ==> p.block in cfg.keys[..n] && Emits(cfg, p.block) && p in BlockOf(cfg, p.block).pending
  }

  /** Every task of an emitted block among the first n keys is registered. */
  ghost predicate PendingComplete(cfg: Config, n: nat, ps: seq<Pending>)
    requires n <= |cfg.keys|
  {
    forall k, p :: k in cfg.keys[..n] && Emits(cfg, k) && p in BlockOf(cfg, k).pending ==> p in ps
  }

  lemma TreeStep(cfg: Config, n: nat)
    requires cfg.Valid() && 0 < n <= |cfg.keys|
    requires TreeInvariant(cfg, n - 1, BlocksPrefix(cfg, n - 1).tree)
    ensures TreeInvariant(cfg, n, BlocksPrefix(cfg, n).tree)
  {
    var key := cfg.keys[n - 1];
    assert cfg.keys[..n] == cfg.keys[..n - 1] + [key];
    if Emits(cfg, key) {
      assert key !in cfg.keys[..n - 1];
      AddedBlock(cfg, n);
    }
  }

  /** Adding the block of the n-th key, when it is emitted. */
  lemma AddedBlock(cfg: Config, n: nat)
    requires cfg.Valid() && 0 < n <= |cfg.keys| && Emits(cfg, cfg.keys[n - 1])
    ensures var t := BlocksPrefix(cfg, n).tree;
      t == BlocksPrefix(cfg, n - 1).tree.(properties := BlocksPrefix(cfg, n - 1).tree.properties.Put(cfg.keys[n - 1], BlockOf(cfg, cfg.keys[n - 1]).block))
  {
  }

  lemma PendingOriginStep(cfg: Config, n: nat)
    requires cfg.Valid() && 0 < n <= |cfg.keys|
    requires PendingOrigin(cfg, n - 1, BlocksPrefix(cfg, n - 1).pending)
    ensures PendingOrigin(cfg, n, BlocksPrefix(cfg, n).pending)
  {
    var key := cfg.keys[n - 1];
    assert cfg.keys[..n] == cfg.keys[..n - 1] + [key];
    if Emits(cfg, key) {
      var bc := cfg.blocks[key];
      FieldsPrefixInvariant(key, bc.title, bc.properties.value, |bc.properties.value.keys|);
    }
  }

  lemma PendingCompleteStep(cfg: Config, n: nat)
    requires 0 < n <= |cfg.keys|
    requires PendingComplete(cfg, n - 1, BlocksPrefix(cfg, n - 1).pending)
    ensures PendingComplete(cfg, n, BlocksPrefix(cfg, n).pending)
  {
    assert cfg.keys[..n] == cfg.keys[..n - 1] + [cfg.keys[n - 1]];
  }

  lemma PendingDistinctStep(cfg: Config, n: nat)
    requires cfg.Valid() && 0 < n <= |cfg.keys|
    requires PendingOrigin(cfg, n - 1, BlocksPrefix(cfg, n - 1).pending)
    requires DistinctAddresses(BlocksPrefix(cfg, n - 1).pending)
    ensures DistinctAddresses(BlocksPrefix(cfg, n).pending)
  {
    var key := cfg.keys[n - 1];
    if Emits(cfg, key) {
      var bc := cfg.blocks[key];
      FieldsPrefixInvariant(key, bc.title, bc.properties.value, |bc.properties.value.keys|);
      assert key !in cfg.keys[..n - 1];
      var old_ := BlocksPrefix(cfg, n - 1).pending;
      var new_ := BlockOf(cfg, key).pending;
      var ps := old_ + new_;
      forall i, j | 0 <= i < j < |ps|
        ensures ps[i].block != ps[j].block || ps[i].field != ps[j].field
      {
        if j >= |old_| {
          assert ps[j] == new_[j - |old_|] && ps[j] in new_;
          if i < |old_| {
            assert ps[i] in old_;
          } else {
            assert ps[i] == new_[i - |old_|];
          }
        }
      }
    }
  }

  /** The structural pass builds one finished block per emitted key, in
      configuration order, and registers exactly the blocks' tasks, no two
      of which write the same field. */
  lemma {:induction false} StructureFacts(cfg: Config, n: nat)
    requires cfg.Valid() && n <= |cfg.keys|
    ensures TreeInvariant(cfg, n, BlocksPrefix(cfg, n).tree)
    ensures PendingOrigin(cfg, n, BlocksPrefix(cfg, n).pending)
    ensures PendingComplete(cfg, n, BlocksPrefix(cfg, n).pending)
    ensures DistinctAddresses(BlocksPrefix(cfg, n).pending)
  {
    if n > 0 {
      StructureFacts(cfg, n - 1);
      TreeStep(cfg, n);
      PendingOriginStep(cfg, n);
      PendingCompleteStep(cfg, n);
      PendingDistinctStep(cfg, n);
    }
  }

  // ------------------------------------------------------------ the document

  /** The value a field ends up with: a bound field keeps the primary
      property processBindField built; any other field its normal property,
      with the option lists its dictionary or lookup task resolved. */
  function FinalProperty(key: string, propKey: string, f: Field, mods: Modules, invoke: (nat, Value) -> CallOutcome): Property {
    if IsBound(f) then PrimaryProperty(key, propKey, f, map[]).value
    else match NormalSource(f)
      case None => NormalProperty(f)
      case Some(src) => Resolve(NormalProperty(f), src, mods, invoke)
  }

  /** The compiled document's top level and blocks: the form title (or
      "title"), type "object", no required list, `ui:options`, and one block
      per key that has truthy `properties`, in key order, each with its
      title and the keys of its required fields, each once. */
  lemma CompileBlocks(formConfig: Option<FormConfig>, mods: Modules, invoke: (nat, Value) -> CallOutcome)
    requires formConfig.Some? && formConfig.value.config.Some? ==> formConfig.value.config.value.Valid()
    ensures Compile(formConfig, mods, invoke).None? <==> formConfig.None? || formConfig.value.config.None?
    ensures formConfig.Some? && formConfig.value.config.Some? ==>
      var cfg := formConfig.value.config.value;
      var r := Compile(formConfig, mods, invoke).value;
      && r.title == (if cfg.title != "" then cfg.title else "title")
      && r.typ == "object" && r.required == []
      && r.options == TopOptions(true, "0")
      && r.properties.keys == EmittedKeys(cfg, |cfg.keys|)
      && (forall k :: k in r.properties.vals <==> Emits(cfg, k))
      && (forall k :: k in r.properties.vals ==> BlockMatches(r.properties.vals[k], cfg.blocks[k]))
  {
    if formConfig.Some? && formConfig.value.config.Some? {
      var cfg := formConfig.value.config.value;
      var s := BlocksPrefix(cfg, |cfg.keys|);
      StructureFacts(cfg, |cfg.keys|);
      ApplyAllShape(s.tree.properties, s.pending, mods, invoke);
      assert cfg.keys[..|cfg.keys|] == cfg.keys;
      var r := Compile(formConfig, mods, invoke).value;
      forall k | k in r.properties.vals
        ensures BlockMatches(r.properties.vals[k], cfg.blocks[k])
      {
        var props := cfg.blocks[k].properties.value;
        FieldsPrefixInvariant(k, cfg.blocks[k].title, props, |props.keys|);
        FieldsPrefixRequired(k, cfg.blocks[k].title, props, |props.keys|);
        assert props.keys[..|props.keys|] == props.keys;
      }
    }
  }

  /** A compiled block agrees with its configuration: same title, an entry
      for every field, and a `required` list holding the required field
      keys, each once, in declaration order. */
  ghost predicate BlockMatches(blk: Block, bc: BlockConfig) {
    && bc.properties.Some?
    && blk.title == bc.title
    && (forall f :: f in bc.properties.value.vals ==> f in blk.properties.vals)
    && blk.required == RequiredKeys(bc.properties.value, |bc.properties.value.keys|)
    && (forall f :: f in blk.required <==> f in bc.properties.value.vals && bc.properties.value.vals[f].required)
    && (forall i :: 0 <= i < |blk.required| ==> blk.required[i] !in blk.required[..i])
  }

  /** A finished block holds, at each field key, that field's own property. */
  lemma BlockFieldEntry(key: string, title: string, props: Ordered<Field>, propKey: string)
    requires props.Valid() && propKey in props.vals
    ensures var blk := FieldsPrefix(key, title, props, |props.keys|).block;
      propKey in blk.properties.vals && blk.properties.vals[propKey] == OwnProperty(key, propKey, props.vals[propKey])
  {
    FieldsPrefixFields(key, title, props, |props.keys|);
    assert props.keys[..|props.keys|] == props.keys;
  }

  /** The tasks of a finished block writing a given field are exactly the
      one that field registers. */
  lemma BlockFieldTasks(key: string, title: string, props: Ordered<Field>, propKey: string, p: Pending)
    requires props.Valid() && propKey in props.vals
    ensures var pending := FieldsPrefix(key, title, props, |props.keys|).pending;
      && (p in FieldTasks(key, propKey, props.vals[propKey]) ==> p in pending)
      && (p in pending && p.field == propKey ==> FieldTasks(key, propKey, props.vals[propKey]) == [p])
  {
    FieldsPrefixFields(key, title, props, |props.keys|);
    FieldsPrefixInvariant(key, title, props, |props.keys|);
    assert props.keys[..|props.keys|] == props.keys;
  }

  /** The structural pass writes each emitted block in its finished form. */
  lemma StructureBlock(cfg: Config, key: string)
    requires cfg.Valid() && Emits(cfg, key)
    ensures var t := BlocksPrefix(cfg, |cfg.keys|).tree;
      key in t.properties.vals && t.properties.vals[key] == BlockOf(cfg, key).block
  {
    StructureFacts(cfg, |cfg.keys|);
    assert cfg.keys[..|cfg.keys|] == cfg.keys;
  }

  /** The structural pass registers the tasks of each emitted block, and a
      task addressed to that block is one of its own. */
  lemma StructureBlockTasks(cfg: Config, key: string, p: Pending)
    requires cfg.Valid() && Emits(cfg, key)
    ensures var pending := BlocksPrefix(cfg, |cfg.keys|).pending;
      && (p in BlockOf(cfg, key).pending ==> p in pending)
      && (p in pending && p.block == key ==> p in BlockOf(cfg, key).pending)
  {
    StructureFacts(cfg, |cfg.keys|);
    assert cfg.keys[..|cfg.keys|] == cfg.keys;
  }

  /** No two tasks of a compilation write the same field. */
  lemma StructureDistinct(cfg: Config)
    requires cfg.Valid()
    ensures DistinctAddresses(BlocksPrefix(cfg, |cfg.keys|).pending)
  {
    StructureFacts(cfg, |cfg.keys|);
  }

  /** The only task writing a field of an emitted block is the one that
      field registered. */
  lemma StructureTask(cfg: Config, key: string, propKey: string)
    requires cfg.Valid() && Emits(cfg, key) && propKey in cfg.blocks[key].properties.value.vals
    ensures var tasks := FieldTasks(key, propKey, cfg.blocks[key].properties.value.vals[propKey]);
      TaskSource(BlocksPrefix(cfg, |cfg.keys|).pending, key, propKey) == if tasks == [] then None else Some(tasks[0].source)
  {
    var bc := cfg.blocks[key];
    var tasks := FieldTasks(key, propKey, bc.properties.value.vals[propKey]);
    var src := TaskSource(BlocksPrefix(cfg, |cfg.keys|).pending, key, propKey);
    if src.Some? {
      // the task found is this block's, hence this field's
      var q := Pending(key, propKey, src.value);
      StructureBlockTasks(cfg, key, q);
      BlockFieldTasks(key, bc.title, bc.properties.value, propKey, q);
    }
    if tasks != [] {
      // the field's own task is registered
      BlockFieldTasks(key, bc.title, bc.properties.value, propKey, tasks[0]);
      StructureBlockTasks(cfg, key, tasks[0]);
    }
  }

  /** Every field of an emitted block holds its final property in the
      compiled document. */
  lemma CompiledField(formConfig: Option<FormConfig>, mods: Modules, invoke: (nat, Value) -> CallOutcome, key: string, propKey: string)
    requires formConfig.Some? && formConfig.value.config.Some? && formConfig.value.config.value.Valid()
    requires Emits(formConfig.value.config.value, key)
    requires propKey in formConfig.value.config.value.blocks[key].properties.value.vals
    ensures var cfg := formConfig.value.config.value;
      var r := Compile(formConfig, mods, invoke);
      && r.Some? && key in r.value.properties.vals
      && propKey in r.value.properties.vals[key].properties.vals
      && r.value.properties.vals[key].properties.vals[propKey] ==
           FinalProperty(key, propKey, cfg.blocks[key].properties.value.vals[propKey], mods, invoke)
  {
    var cfg := formConfig.value.config.value;
    var s := BlocksPrefix(cfg, |cfg.keys|);
    var bc := cfg.blocks[key];
    StructureBlock(cfg, key);
    BlockFieldEntry(key, bc.title, bc.properties.value, propKey);
    StructureTask(cfg, key, propKey);
    StructureDistinct(cfg);
    ApplyAllEntry(s.tree.properties, s.pending, mods, invoke, key, propKey);
  }

  // ------------------------------------------------------------ companions

  /** The companion keys (bind codes) of the bound fields among the first n. */
  function BindCodes(props: Ordered<Field>, n: nat): set<string>
    requires n <= |props.keys|
  {
    if n == 0 then {}
    else
      var k := props.keys[n - 1];
      BindCodes(props, n - 1) + (if k in props.vals && IsBound(props.vals[k]) then {BindCodeOf(k, props.vals[k])} else {})
  }

  /** After the first n fields every entry of the block is one of those
      fields or the companion of a bound one among them. */
  ghost predicate EntriesOrigin(props: Ordered<Field>, n: nat, blk: Block)
    requires n <= |props.keys|
  {
    forall k :: k in blk.properties.vals ==> k in props.keys[..n] || k in BindCodes(props, n)
  }

  lemma EntriesOriginStep(key: string, props: Ordered<Field>, n: nat, blk: Block)
    requires props.Valid() && 0 < n <= |props.keys|
    requires EntriesOrigin(props, n - 1, blk)
    ensures EntriesOrigin(props, n, FieldBlock(blk, key, props.keys[n - 1], props.vals[props.keys[n - 1]]))
  {
    assert props.keys[..n] == props.keys[..n - 1] + [props.keys[n - 1]];
    FieldBlockEntries(blk, key, props.keys[n - 1], props.vals[props.keys[n - 1]]);
  }

  /** The field loop writes no entry besides the fields and their companions. */
  lemma {:induction false} FieldsPrefixOrigin(key: string, title: string, props: Ordered<Field>, n: nat)
    requires props.Valid() && n <= |props.keys|
    ensures EntriesOrigin(props, n, FieldsPrefix(key, title, props, n).block)
  {
    if n > 0 {
      FieldsPrefixOrigin(key, title, props, n - 1);
      assert props.keys[n - 1] in props.keys;
      EntriesOriginStep(key, props, n, FieldsPrefix(key, title, props, n - 1).block);
    }
  }

  /** The block has an entry at `c`, and when `cond` holds that entry is `v`. */
  ghost predicate HoldsEntry(blk: Block, c: string, v: Property, cond: bool) {
    c in blk.properties.vals && (cond ==> blk.properties.vals[c] == v)
  }

  /** Whether the companion of the bound field at position i is free: no
      field has its key and no earlier bound field used it. */
  ghost predicate FreeCompanion(props: Ordered<Field>, i: nat)
    requires i < |props.keys| && props.keys[i] in props.vals
  {
    var c := BindCodeOf(props.keys[i], props.vals[props.keys[i]]);
    c !in props.vals && c !in BindCodes(props, i)
  }

  /** The bound field at position i writes its companion, and writes the
      companion property there when the key is free. */
  lemma CompanionWritten(key: string, props: Ordered<Field>, i: nat, blk: Block)
    requires props.Valid() && i < |props.keys| && IsBound(props.vals[props.keys[i]])
    requires EntriesOrigin(props, i, blk)
    ensures var f := props.vals[props.keys[i]];
      HoldsEntry(FieldBlock(blk, key, props.keys[i], f), BindCodeOf(props.keys[i], f), CompanionProperty(key, props.keys[i], f), FreeCompanion(props, i))
  {
  }

  /** A later field keeps an entry that is not a field key: it writes only
      its own key and adds at most a new companion. */
  lemma EntryKept(key: string, props: Ordered<Field>, n: nat, blk: Block, c: string, v: Property, cond: bool)
    requires props.Valid() && 0 < n <= |props.keys|
    requires HoldsEntry(blk, c, v, cond) && (cond ==> c !in props.vals)
    ensures HoldsEntry(FieldBlock(blk, key, props.keys[n - 1], props.vals[props.keys[n - 1]]), c, v, cond)
  {
    FieldBlockEntries(blk, key, props.keys[n - 1], props.vals[props.keys[n - 1]]);
  }

  /** Later fields keep an entry that is not a field key, once written. */
  lemma {:induction false} EntryPersists(key: string, title: string, props: Ordered<Field>, m: nat, n: nat,
                                         c: string, v: Property, cond: bool)
    requires props.Valid() && 0 < m <= n <= |props.keys|
    requires HoldsEntry(FieldsPrefix(key, title, props, m).block, c, v, cond) && (cond ==> c !in props.vals)
    ensures HoldsEntry(FieldsPrefix(key, title, props, n).block, c, v, cond)
  {
    if n > m {
      EntryPersists(key, title, props, m, n - 1, c, v, cond);
      var st := FieldsPrefix(key, title, props, n - 1);
      assert props.keys[n - 1] in props.keys;
      EntryKept(key, props, n, st.block, c, v, cond);
    }
  }

  /** Right after the bound field at position i, its companion is present,
      and holds its companion property when the key is free: the companion
      is written only where no entry exists. */
  lemma CompanionFirst(key: string, title: string, props: Ordered<Field>, i: nat)
    requires props.Valid() && i < |props.keys| && IsBound(props.vals[props.keys[i]])
    ensures var f := props.vals[props.keys[i]];
      HoldsEntry(FieldsPrefix(key, title, props, i + 1).block, BindCodeOf(props.keys[i], f), CompanionProperty(key, props.keys[i], f), FreeCompanion(props, i))
  {
    assert props.keys[i] in props.keys;
    FieldsPrefixOrigin(key, title, props, i);
    CompanionWritten(key, props, i, FieldsPrefix(key, title, props, i).block);
  }

  /** In the finished block the companion of the bound field at position i
      is present, and holds that field's companion property when its key is
      free. */
  lemma BlockCompanion(key: string, title: string, props: Ordered<Field>, i: nat)
    requires props.Valid() && i < |props.keys| && IsBound(props.vals[props.keys[i]])
    ensures var f := props.vals[props.keys[i]];
      HoldsEntry(FieldsPrefix(key, title, props, |props.keys|).block, BindCodeOf(props.keys[i], f), CompanionProperty(key, props.keys[i], f), FreeCompanion(props, i))
  {
    var f := props.vals[props.keys[i]];
    CompanionFirst(key, title, props, i);
    EntryPersists(key, title, props, i + 1, |props.keys|, BindCodeOf(props.keys[i], f), CompanionProperty(key, props.keys[i], f), FreeCompanion(props, i));
  }

  /** Every task of a finished block writes one of its fields. */
  lemma BlockTaskField(key: string, title: string, props: Ordered<Field>, p: Pending)
    requires props.Valid()
    ensures p in FieldsPrefix(key, title, props, |props.keys|).pending ==> p.field in props.vals
  {
    FieldsPrefixInvariant(key, title, props, |props.keys|);
  }

  /** A bound field's companion is in the compiled block; when no field of
      the block has its key and no earlier bound field used the same key, it
      holds the companion property built from this field, and no task
      rewrites it. */
  lemma CompiledCompanion(formConfig: Option<FormConfig>, mods: Modules, invoke: (nat, Value) -> CallOutcome, key: string, i: nat)
    requires formConfig.Some? && formConfig.value.config.Some? && formConfig.value.config.value.Valid()
    requires Emits(formConfig.value.config.value, key)
    requires i < |formConfig.value.config.value.blocks[key].properties.value.keys|
    requires IsBound(formConfig.value.config.value.blocks[key].properties.value.vals[formConfig.value.config.value.blocks[key].properties.value.keys[i]])
    ensures var props := formConfig.value.config.value.blocks[key].properties.value;
      var f := props.vals[props.keys[i]];
      var c := BindCodeOf(props.keys[i], f);
      var r := Compile(formConfig, mods, invoke);
      && r.Some? && key in r.value.properties.vals
      && c in r.value.properties.vals[key].properties.vals
      && (c !in props.vals && c !in BindCodes(props, i) ==>
            r.value.properties.vals[key].properties.vals[c] == CompanionProperty(key, props.keys[i], f))
  {
    var cfg := formConfig.value.config.value;
    var s := BlocksPrefix(cfg, |cfg.keys|);
    var bc := cfg.blocks[key];
    var props := bc.properties.value;
    var c := BindCodeOf(props.keys[i], props.vals[props.keys[i]]);
    StructureBlock(cfg, key);
    BlockCompanion(key, bc.title, props, i);
    StructureDistinct(cfg);
    if c !in props.vals {
      // every task of this block writes one of its fields, so none writes c
      forall p | p in s.pending && p.block == key
        ensures p.field != c
      {
        StructureBlockTasks(cfg, key, p);
        BlockTaskField(key, bc.title, props, p);
      }
    }
    ApplyAllEntry(s.tree.properties, s.pending, mods, invoke, key, c);
  }

  /** A field that takes the dictionary or lookup branch ends with option
      lists of equal length, `uniqueItems` false and `clearable` true, and
      its lists are empty whenever its source fails. */
  lemma DynamicFieldDegrades(key: string, propKey: string, f: Field, src: Source, mods: Modules, invoke: (nat, Value) -> CallOutcome)
    requires !IsBound(f) && NormalSource(f) == Some(src)
    ensures var p := FinalProperty(key, propKey, f, mods, invoke);
      && p.enumValues.Some? && p.enumNames.Some? && |p.enumValues.value| == |p.enumNames.value|
      && p.uniqueItems == Some(false) && p.options.clearable == Some(true)
      && (src.DictSource? && DictData(src.dictCode, mods.constants).None? ==> p.enumValues == Some([]) && p.enumNames == Some([]))
      && (src.ApiSource? && !ApiOutcome(src.api, src.params, mods.api, invoke).1 ==> p.enumValues == Some([]) && p.enumNames == Some([]))
  {
  }

  // ------------------------------------------------------------ task order

  lemma {:induction false} CountAtMostOne(ps: seq<Pending>, x: Pending)
    requires DistinctAddresses(ps)
    ensures multiset(ps)[x] <= 1
  {
    if ps != [] {
      var prefix := ps[..|ps| - 1];
      assert ps == prefix + [ps[|ps| - 1]];
      assert DistinctAddresses(prefix);
      CountAtMostOne(prefix, x);
      if ps[|ps| - 1] == x {
        forall i | 0 <= i < |prefix|
          ensures prefix[i] != x
        {
          assert ps[i] == prefix[i];
        }
      }
    }
  }

  lemma CountRepeated(qs: seq<Pending>, i: nat, j: nat)
    requires i < j < |qs| && qs[i] == qs[j]
    ensures multiset(qs)[qs[i]] >= 2
  {
    assert qs == qs[..j] + [qs[j]] + qs[j + 1..];
    assert qs[..j][i] == qs[i];
  }

  /** Reordering tasks that write distinct fields keeps them distinct. */
  lemma DistinctPermutation(ps: seq<Pending>, qs: seq<Pending>)
    requires DistinctAddresses(ps) && multiset(ps) == multiset(qs)
    ensures DistinctAddresses(qs)
  {
    forall i, j | 0 <= i < j < |qs|
      ensures qs[i].block != qs[j].block || qs[i].field != qs[j].field
    {
      assert qs[i] in multiset(ps) && qs[j] in multiset(ps);
      var a :| 0 <= a < |ps| && ps[a] == qs[i];
      var b :| 0 <= b < |ps| && ps[b] == qs[j];
      if a == b {
        CountAtMostOne(ps, qs[i]);
        CountRepeated(qs, i, j);
      }
    }
  }

  /** The tasks run concurrently (Promise.all): whatever order they finish
      in, the document is the one Compile describes. */
  lemma CompileAnyOrder(formConfig: Option<FormConfig>, mods: Modules, invoke: (nat, Value) -> CallOutcome, order: seq<Pending>)
    requires formConfig.Some? && formConfig.value.config.Some? && formConfig.value.config.value.Valid()
    requires multiset(order) == multiset(BlocksPrefix(formConfig.value.config.value, |formConfig.value.config.value.keys|).pending)
    ensures var s := BlocksPrefix(formConfig.value.config.value, |formConfig.value.config.value.keys|);
      Compile(formConfig, mods, invoke) == Some(s.tree.(properties := ApplyAll(s.tree.properties, order, mods, invoke)))
  {
    var cfg := formConfig.value.config.value;
    var s := BlocksPrefix(cfg, |cfg.keys|);
    StructureFacts(cfg, |cfg.keys|);
    DistinctPermutation(s.pending, order);
    ApplyAllPermutation(s.tree.properties, s.pending, order, mods, invoke);
  }
}

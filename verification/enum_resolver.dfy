/** The deferred option-list tasks: the dictionary task that
    renderJsonSchemaAsync starts for an `enumDict` field, and processEnumApi
    for an `enumApi` field. Each one writes only its own field, and every
    failure ends in empty `enum` / `enumNames` lists. */
module EnumResolver {
  import opened JsValue
  import opened Schema
  import opened FieldSynthesis
  import opened ModuleLoader

  /** What awaiting a lookup function's result gives: a value, or a rejection. */
  datatype CallOutcome = Returned(response: Value) | Rejected

  /** The collaborators' outcomes: how each support module's three loading
      strategies end, and what calling each lookup function with given
      arguments does. */
  datatype Env = Env(apiStrategies: Strategies, constantsStrategies: Strategies, invoke: (nat, Value) -> CallOutcome)

  /** The modules every load yields during one compilation: the lookup-function
      table and the dictionary table (None: the load throws). */
  datatype Modules = Modules(api: Option<Value>, constants: Option<Value>)

  function ModulesOf(cache: map<string, Value>, env: Env): Modules {
    Modules(LoadView(cache, ApiModuleKey, env.apiStrategies), LoadView(cache, ConstantsModuleKey, env.constantsStrategies))
  }

  /** The cache after one task: a dictionary task with a code loads the
      dictionary table, a lookup task with a path loads the function table,
      and a task with an empty code or path loads nothing. */
  function CacheAfterTask(cache: map<string, Value>, src: Source, env: Env): map<string, Value> {
    match src
    case DictSource(dictCode) =>
      if dictCode == "" then cache else CacheAfterLoad(cache, ConstantsModuleKey, env.constantsStrategies)
    case ApiSource(api, _) =>
      if api == "" then cache else CacheAfterLoad(cache, ApiModuleKey, env.apiStrategies)
  }

  const NoOptions := EnumLists([], [])

  /** getEnumFromDictMaps(dictCode): the dictionary entry at the dotted path
      when it is a list; None where the source returns null (empty code,
      failed load, missing or non-list entry). */
  function DictData(dictCode: string, constants: Option<Value>): (r: Option<seq<Value>>)
    ensures r.Some? <==>
      dictCode != "" && constants.Some? && GetNestedProperty(constants.value, dictCode).Arr?
    ensures r.Some? ==> r.value == GetNestedProperty(constants.value, dictCode).items
  {
    if dictCode == "" then None
    else match constants
      case None => None
      case Some(m) =>
        var d := GetNestedProperty(m, dictCode);
        if !d.Truthy() || !d.Arr? then None else Some(d.items)
  }

  /** What the dictionary task writes into `enum` and `enumNames`
      (src/utils/transformSchema.js:358-377). */
  function DictLists(dictCode: string, constants: Option<Value>): (l: EnumLists)
    ensures |l.values| == |l.names|
    // a usable dictionary maps `value || code` and `label || name`, in list order
    ensures var d := DictData(dictCode, constants);
      d.Some? && |d.value| > 0 && (forall i :: 0 <= i < |d.value| ==> !d.value[i].Nullish()) ==>
        && |l.values| == |d.value|
        && forall i :: 0 <= i < |d.value| ==> l.values[i] == CodeOf(d.value[i], false) && l.names[i] == LabelOf(d.value[i], false)
    // everything else degrades to empty lists
    ensures var d := DictData(dictCode, constants);
      d.None? || d.value == [] || (exists i :: 0 <= i < |d.value| && d.value[i].Nullish()) ==> l == NoOptions
  {
    match DictData(dictCode, constants)
    case None => NoOptions
    case Some(items) =>
      if |items| == 0 then NoOptions
      else match Project(items, false)
        case None => NoOptions
        case Some(lists) => lists
  }

  /** The awaited result of the lookup call, when processEnumApi gets that far:
      the code is set, the module loads, the path names a function and the
      call, made with `enumApiParams || {}`, does not reject. */
  function ApiResponse(api: string, params: Value, apiModule: Option<Value>, invoke: (nat, Value) -> CallOutcome): Option<Value> {
    if api == "" || apiModule.None? then None
    else
      var apiFunc := GetNestedProperty(apiModule.value, api);
      if !apiFunc.Func? then None
      else match invoke(apiFunc.id, Or(params, Obj(map[])))
        case Rejected => None
        case Returned(response) => Some(response)
  }

  /** `response && response.code === 0 && response.data && Array.isArray(response.data)` */
  predicate Usable(response: Value) {
    response.Truthy() && Prop(response, "code") == Num(0) && Prop(response, "data").Arr?
  }

  /** The lists processEnumApi writes and the boolean it returns
      (src/utils/transformSchema.js:25-77). */
  function ApiOutcome(api: string, params: Value, apiModule: Option<Value>, invoke: (nat, Value) -> CallOutcome): (r: (EnumLists, bool))
    ensures |r.0.values| == |r.0.names|
    ensures !r.1 ==> r.0 == NoOptions
    // success needs a function target, a response with code 0 and an array of entries
    ensures r.1 <==>
      var response := ApiResponse(api, params, apiModule, invoke);
      && response.Some? && Usable(response.value)
      && forall i :: 0 <= i < |Prop(response.value, "data").items| ==> !Prop(response.value, "data").items[i].Nullish()
    ensures api != "" && apiModule.Some? && !GetNestedProperty(apiModule.value, api).Func? ==> !r.1
    // on success the entries map `code || value` and `name || label`, in response order
    ensures r.1 ==>
      var data := Prop(ApiResponse(api, params, apiModule, invoke).value, "data").items;
      && |r.0.values| == |data|
      && forall i :: 0 <= i < |data| ==> r.0.values[i] == CodeOf(data[i], true) && r.0.names[i] == LabelOf(data[i], true)
  {
    match ApiResponse(api, params, apiModule, invoke)
    case None => (NoOptions, false)
    case Some(response) =>
      if !Usable(response) then (NoOptions, false)
      else match Project(Prop(response, "data").items, true)
        case None => (NoOptions, false)
        case Some(lists) => (lists, true)
  }

  /** A deferred task's effect on its own property: the dictionary task sets
      the two lists (the flags were set when the task was registered);
      processEnumApi sets the lists and the two flags. */
  function Resolve(p: Property, src: Source, mods: Modules, invoke: (nat, Value) -> CallOutcome): (r: Property)
    ensures r.enumValues.Some? && r.enumNames.Some? && |r.enumValues.value| == |r.enumNames.value|
    ensures src.DictSource? ==>
      && r.enumValues.value == DictLists(src.dictCode, mods.constants).values
      && r.enumNames.value == DictLists(src.dictCode, mods.constants).names
    ensures src.ApiSource? ==>
      && r.uniqueItems == Some(false) && r.options.clearable == Some(true)
      && r.enumValues.value == ApiOutcome(src.api, src.params, mods.api, invoke).0.values
      && r.enumNames.value == ApiOutcome(src.api, src.params, mods.api, invoke).0.names
    // nothing else about the property changes
    ensures r.(enumValues := p.enumValues, enumNames := p.enumNames, uniqueItems := p.uniqueItems, options := p.options) == p
    ensures src.DictSource? ==> r.uniqueItems == p.uniqueItems && r.options == p.options
    ensures r.options.(clearable := p.options.clearable) == p.options
  {
    match src
    case DictSource(code) =>
      var l := DictLists(code, mods.constants);
      p.(enumValues := Some(l.values), enumNames := Some(l.names))
    case ApiSource(api, params) =>
      var l := ApiOutcome(api, params, mods.api, invoke).0;
      p.(enumValues := Some(l.values), enumNames := Some(l.names), uniqueItems := Some(false),
         options := p.options.(clearable := Some(true)))
  }

  /** Applying one pending record: its own field, and nothing else, is resolved. */
  function ApplyPending(blocks: Ordered<Block>, p: Pending, mods: Modules, invoke: (nat, Value) -> CallOutcome): Ordered<Block> {
    if p.block in blocks.vals && p.field in blocks.vals[p.block].properties.vals then
      SetProperty(blocks, p.block, p.field, Resolve(blocks.vals[p.block].properties.vals[p.field], p.source, mods, invoke))
    else blocks
  }

  /** A task only rewrites the contents of one property. */
  lemma ApplyPendingShape(blocks: Ordered<Block>, p: Pending, mods: Modules, invoke: (nat, Value) -> CallOutcome)
    ensures SameShape(ApplyPending(blocks, p, mods, invoke), blocks)
  {
  }

  /** getEnumFromDictMaps(dictCode) */
  method GetEnumFromDictMaps(dictCode: string, loader: Loader, s: Strategies) returns (data: Option<seq<Value>>)
    modifies loader
    ensures data == DictData(dictCode, LoadView(old(loader.cache), ConstantsModuleKey, s))
    ensures loader.cache == if dictCode == "" then old(loader.cache) else CacheAfterLoad(old(loader.cache), ConstantsModuleKey, s)
  {
    if dictCode == "" {
      return None;
    }
    var dictModule, _ := loader.LoadConstantsModule(s);
    if dictModule.None? {
      return None;
    }
    var dictData := GetNestedProperty(dictModule.value, dictCode);
    if !dictData.Truthy() || !dictData.Arr? {
      return None;
    }
    return Some(dictData.items);
  }

  /** The dictionary task renderJsonSchemaAsync registers for a field. */
  method ResolveDictField(schema: JsonSchema, block: string, field: string, dictCode: string, loader: Loader, env: Env)
    requires block in schema.properties.vals && field in schema.properties.vals[block].properties.vals
    modifies schema`properties, loader
    ensures schema.properties == ApplyPending(old(schema.properties), Pending(block, field, DictSource(dictCode)), ModulesOf(old(loader.cache), env), env.invoke)
    ensures ModulesOf(loader.cache, env) == ModulesOf(old(loader.cache), env)
    ensures loader.cache == if dictCode == "" then old(loader.cache) else CacheAfterLoad(old(loader.cache), ConstantsModuleKey, env.constantsStrategies)
  {
    ghost var before := loader.cache;
    var dictData := GetEnumFromDictMaps(dictCode, loader, env.constantsStrategies);
    LoadKeepsView(before, ConstantsModuleKey, env.constantsStrategies, ApiModuleKey, env.apiStrategies);
    LoadKeepsView(before, ConstantsModuleKey, env.constantsStrategies, ConstantsModuleKey, env.constantsStrategies);
    var lists := NoOptions;
    if dictData.Some? && |dictData.value| > 0 {
      var mapped := Project(dictData.value, false);
      // a mapping that throws is caught and leaves the empty lists
      if mapped.Some? {
        lists := mapped.value;
      }
    }
    var property := schema.properties.vals[block].properties.vals[field];
    property := property.(enumValues := Some(lists.values), enumNames := Some(lists.names));
    schema.properties := SetProperty(schema.properties, block, field, property);
  }

  /** processEnumApi(property, propConfig); the property is the one at
      `block`/`field`. Returns whether the lookup succeeded. */
  method ProcessEnumApi(schema: JsonSchema, block: string, field: string, api: string, params: Value, loader: Loader, env: Env) returns (ok: bool)
    requires block in schema.properties.vals && field in schema.properties.vals[block].properties.vals
    modifies schema`properties, loader
    ensures ok == ApiOutcome(api, params, ModulesOf(old(loader.cache), env).api, env.invoke).1
    ensures schema.properties == ApplyPending(old(schema.properties), Pending(block, field, ApiSource(api, params)), ModulesOf(old(loader.cache), env), env.invoke)
    ensures ModulesOf(loader.cache, env) == ModulesOf(old(loader.cache), env)
    ensures loader.cache == if api == "" then old(loader.cache) else CacheAfterLoad(old(loader.cache), ApiModuleKey, env.apiStrategies)
  {
    var lists;
    lists, ok := FetchApiOptions(api, params, loader, env);
    // success and every failure end by writing the lists and both flags
    var property := schema.properties.vals[block].properties.vals[field];
    property := property.(enumValues := Some(lists.values), enumNames := Some(lists.names), uniqueItems := Some(false),
                          options := property.options.(clearable := Some(true)));
    schema.properties := SetProperty(schema.properties, block, field, property);
  }

  /** The first part of processEnumApi: load the module, call the function the
      path names and map the entries of a usable response. */
  method FetchApiOptions(api: string, params: Value, loader: Loader, env: Env) returns (lists: EnumLists, ok: bool)
    modifies loader
    ensures (lists, ok) == ApiOutcome(api, params, ModulesOf(old(loader.cache), env).api, env.invoke)
    ensures ModulesOf(loader.cache, env) == ModulesOf(old(loader.cache), env)
    ensures loader.cache == if api == "" then old(loader.cache) else CacheAfterLoad(old(loader.cache), ApiModuleKey, env.apiStrategies)
  {
    ghost var before := loader.cache;
    lists := NoOptions;
    ok := false;
    if api != "" {
      var apiModule, _ := loader.LoadApiModule(env.apiStrategies);
      LoadKeepsView(before, ApiModuleKey, env.apiStrategies, ApiModuleKey, env.apiStrategies);
      LoadKeepsView(before, ApiModuleKey, env.apiStrategies, ConstantsModuleKey, env.constantsStrategies);
      if apiModule.Some? {
        lists, ok := CallLookup(api, params, apiModule.value, env.invoke);
      }
    }
  }

  /** The second part of processEnumApi, once the function table is loaded:
      call the function the path names and map the entries of a usable
      response. */
  method CallLookup(api: string, params: Value, apiModule: Value, invoke: (nat, Value) -> CallOutcome) returns (lists: EnumLists, ok: bool)
    requires api != ""
    ensures (lists, ok) == ApiOutcome(api, params, Some(apiModule), invoke)
  {
    lists := NoOptions;
    ok := false;
    var apiFunc := GetNestedProperty(apiModule, api);
    if apiFunc.Func? {
      var response := invoke(apiFunc.id, Or(params, Obj(map[])));
      if response.Returned? && Usable(response.response) {
        var mapped := Project(Prop(response.response, "data").items, true);
        if mapped.Some? {
          lists := mapped.value;
          ok := true;
        }
      }
    }
  }

}

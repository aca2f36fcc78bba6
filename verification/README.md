# Form-configuration schema compiler: a Dafny model

This project models the schema compiler of a form-rendering application. The
compiler reads a form configuration: blocks of field descriptors, each field
with a type, prompts, validation rules and an option list. It writes the
JSON-Schema-like document that the form renderer consumes. The model also
covers the support-module loader the compiler uses to find dictionaries and
remote lookup functions.

The model follows the code's own structure:

- `js_value.dfy` (`JsValue`): the slice of JavaScript the code relies on.
  This covers truthiness, `a || b`, property access, `split('.')`,
  `startsWith`, `toLowerCase`, and objects whose keys keep insertion order
  (`Ordered`).
- `schema.dfy` (`Schema`): the configuration (`Config`, `BlockConfig`,
  `Field`), the output (`Tree`, `Block`, `Property`), the deferred tasks
  (`Pending`), and the `jsonSchema` object that is built in place (class
  `JsonSchema`).
- `fields.dfy` (`FieldSynthesis`): the property a normal field gets, the
  primary and companion properties of a bound field, and the mapping of
  option entries.
- `module_loader.dfy` (`ModuleLoader`):
  - `getNestedProperty`, as a fold over the path segments;
  - the module cache, as a class `Loader` holding a map;
  - three loading strategies tried in order, whose outcomes are parameters.
- `enum_resolver.dfy` (`EnumResolver`): `getEnumFromDictMaps`, the
  dictionary task, and `processEnumApi`. Each is an imperative method proved
  against a function (`DictData`, `DictLists`, `ApiOutcome`, `Resolve`).
- `compiler.dfy` (`SchemaCompiler`): `renderJsonSchemaAsync` and
  `processBindField` as imperative methods over `JsonSchema`. The nested
  block and field loops are proved against folds over the configuration:
  - `BlocksPrefix` and `FieldsPrefix` for the loops;
  - `ApplyAll` for running the collected tasks;
  - `Compile` for the whole result.
- `task_order.dfy` (`TaskOrder`): each task writes only its own field. As a
  result, running the same tasks in any order gives the same document.
- `compile_facts.dfy` (`CompileFacts`): what the compiled document contains,
  block by block and field by field.

Collaborators are parameters:

- `Env.apiStrategies` and `Env.constantsStrategies` give the outcome of each
  of the three loading strategies for the lookup-function module and the
  dictionary module.
- `Env.invoke` gives what calling a lookup function with given arguments
  resolves to: a value, or a rejection.
- A function value is known only by an identity (`Value.Func`).

Where the code and its design description differ, the model follows the code:

- A bound field's companion is written into the current block, not into the
  block `bindBlock` names (src/utils/transformSchema.js:211-213).
- Static and dictionary entries map `value || code` and `label || name`.
  Remote entries map `code || value` and `name || label`
  (src/utils/transformSchema.js:54-55 versus 346-347 and 362-363).
- The primary property of a bound field is not built like a normal field:
  - it always carries `ui:hidden`;
  - its prompts depend on the area widget, not on the option sources;
  - it resolves only a static list or a `dictApiMaps` entry;
  - it has no upload handling.
- Concurrent first loads of a module are not coalesced: each runs the
  strategies (src/utils/moduleLoader.js:16-51).

## Model

| member | source | states |
|---|---|---|
| JsValue.SplitJoin | src/utils/moduleLoader.js:116 | `path.split('.')` loses nothing: joining the segments with dots gives the path back, and no segment contains a dot |
| JsValue.SplitWithoutDot | src/utils/moduleLoader.js:111-113 | a path without a dot is a single segment, so the shortcut `obj[path]` agrees with the fold |
| JsValue.PutTwice | src/utils/transformSchema.js:424 | assigning a key twice keeps the second value at the key's first place |
| JsValue.PutValid | src/utils/transformSchema.js:274 | assigning into an object keeps its keys distinct and in step with its entries |
| ModuleLoader.GetNestedProperty | src/utils/moduleLoader.js:107-122 | undefined for an empty path or a falsy object; otherwise the fold over the dot-separated segments |
| ModuleLoader.WalkFromNullish | src/utils/moduleLoader.js:116-121 | once the fold meets undefined or null, every later segment yields undefined |
| ModuleLoader.WalkAppend | src/utils/moduleLoader.js:116-121 | walking the segments `a + b` is walking `a`, then `b` from where `a` ended |
| ModuleLoader.MissingSegment | src/utils/moduleLoader.js:116-121 | a path whose first k segments reach undefined or null yields undefined and never raises |
| ModuleLoader.Tried | src/utils/moduleLoader.js:20-48 | strategies are tried in order 1, 2, 3: every strategy before the last one tried failed, and the last one tried succeeded unless it was the third |
| ModuleLoader.FirstSuccess | src/utils/moduleLoader.js:20-48 | a load succeeds iff some strategy succeeds, and yields the first success's `default || module` |
| ModuleLoader.CacheAfterLoad | src/utils/moduleLoader.js:16-18 | a load keeps every cached module, adds at most its own key, and caches that key iff the load yields a module |
| ModuleLoader.LoadKeepsView | src/utils/moduleLoader.js:13-53 | a load changes nothing that any later load of either key yields: the two keys are independent, and a failure caches nothing |
| ModuleLoader.CachedModuleWins | src/utils/moduleLoader.js:16-18 | after a successful load, a later load of the same key yields the cached module whatever the strategies would now do |
| ModuleLoader.LoadIdempotent | src/utils/moduleLoader.js:16-51 | loading a key again, with the same strategy outcomes, leaves the cache as the first load left it |
| ModuleLoader.LoadsCommute | src/utils/moduleLoader.js:13-99 | loads of the two different keys leave the same cache in either order |
| ModuleLoader.Loader.constructor | src/utils/moduleLoader.js:7 | the cache starts empty |
| ModuleLoader.Loader.Load | src/utils/moduleLoader.js:13-53 | the loaded module is the cached one or the first success; a cached key runs no strategy, otherwise exactly `Tried` strategies run; the new cache is `CacheAfterLoad` |
| ModuleLoader.Loader.LoadApiModule | src/utils/moduleLoader.js:13-53 | `Load` under the key "apiModule" |
| ModuleLoader.Loader.LoadConstantsModule | src/utils/moduleLoader.js:59-99 | `Load` under the key "constantsModule" |
| ModuleLoader.Loader.ClearModuleCache | src/utils/moduleLoader.js:127-130 | the cache is empty, so every later load runs the strategies again |
| FieldSynthesis.HrAttributes | src/utils/transformSchema.js:313-318 | exactly the attributes whose name starts with "hr" are copied, with their values |
| FieldSynthesis.Project | src/utils/transformSchema.js:362-363 | mapping the entries succeeds iff no entry is undefined or null; on success both lists have one item per entry, in order, each the entry's code and label |
| FieldSynthesis.LoweredTypeIsLower | src/utils/transformSchema.js:301 | the synthesised type has no upper-case letter |
| FieldSynthesis.NormalProperty | src/utils/transformSchema.js:297-421 | lower-case type; a non-empty static list is resolved at once, in list order, as `value \|\| code` and `label \|\| name`; the flags are set for a static list or a dictionary and left unset otherwise |
| FieldSynthesis.NormalPropertyTexts | src/utils/transformSchema.js:297-311 | title, empty value, placeholder and required message, where the prompt is "select" as soon as any option source is configured |
| FieldSynthesis.NormalPropertyPassThrough | src/utils/transformSchema.js:389-416 | the `hr*` attributes, hidden only when set, the bind names, disabled, pattern with its default message, and a non-zero maxLength are carried over |
| FieldSynthesis.NormalPropertyWidgets | src/utils/transformSchema.js:320-339 | type defaults to "string"; the widget is set iff configured and not the upload widget; an `Array` upload field becomes an array of objects with limits 0, `maxCount \|\| 50`, `maxSize \|\| 20971520` and `fileTypes \|\| "jpeg,jpg,png"` |
| FieldSynthesis.EnumSourcePriority | src/utils/transformSchema.js:341-387 | option sources in priority order, static list, then dictionary, then remote lookup, and at most one is used |
| FieldSynthesis.PrimaryProperty | src/utils/transformSchema.js:134-199 | the primary property: bind names defaulted, prompts by widget, `hr*` attributes; with the empty `dictApiMaps` of the call site it never throws and resolves only a static list |
| FieldSynthesis.CompanionProperty | src/utils/transformSchema.js:213-224 | the companion is always a hidden string with no required message, titled after the primary, and points back at the primary's key |
| EnumResolver.DictData | src/utils/transformSchema.js:85-107 | a dictionary is found iff the code is set, the module loads and the path names a list; then it is that list |
| EnumResolver.DictLists | src/utils/transformSchema.js:358-377 | a non-empty dictionary without undefined or null entries is mapped in order; every other case gives empty lists; both lists always have equal length |
| EnumResolver.ApiOutcome | src/utils/transformSchema.js:25-77 | success iff the call returns a response with code 0, an array `data` and no undefined or null entry; then the entries map as `code \|\| value` and `name \|\| label`, in order; a non-function target fails; failure gives empty lists |
| EnumResolver.Resolve | src/utils/transformSchema.js:353-387 | a task sets equal-length lists from its source; a lookup also sets `uniqueItems` false and `clearable` true; nothing else in the property changes |
| EnumResolver.ApplyPendingShape | src/utils/transformSchema.js:379-385 | a task keeps every block, key, title and required list |
| EnumResolver.GetEnumFromDictMaps | src/utils/transformSchema.js:85-107 | returns `DictData` of what loading the dictionary module yields; an empty code loads nothing |
| EnumResolver.ResolveDictField | src/utils/transformSchema.js:358-377 | the dictionary task writes `Resolve` into its own field only; the cache is unchanged for an empty code, and otherwise is the cache after one load of the dictionary module |
| EnumResolver.ProcessEnumApi | src/utils/transformSchema.js:25-77 | returns whether the lookup succeeded and writes `Resolve` into its own field only; the cache is unchanged for an empty path, and otherwise is the cache after one load of the function table |
| EnumResolver.FetchApiOptions | src/utils/transformSchema.js:28-58 | the lists and the success flag are `ApiOutcome` of the module a load yields; the function table is loaded once when the path is set, and nothing is loaded otherwise |
| EnumResolver.CallLookup | src/utils/transformSchema.js:38-58 | once the function table is loaded, the lists and the success flag are `ApiOutcome` of it |
| Schema.JsonSchema.constructor | src/utils/transformSchema.js:252-261 | the document starts with its title, type "object", empty required list, no blocks and the fixed `ui:options` |
| SchemaCompiler.BindFieldStep | src/utils/transformSchema.js:127-226 | the primary overwrites its own key; a required field pushes its key; the companion is written only where its key is absent; no other entry changes; the only new keys are the field's and its companion's |
| SchemaCompiler.FieldBlock | src/utils/transformSchema.js:281-294 | one field iteration keeps the title, pushes the key iff required, and leaves the field's own property at its key |
| SchemaCompiler.FieldBlockEntries | src/utils/transformSchema.js:202-225 | one field iteration changes no other entry and adds at most a bound field's companion |
| SchemaCompiler.FieldBlockValid | src/utils/transformSchema.js:202-224 | one field iteration keeps the block's entries an ordered object with distinct keys |
| SchemaCompiler.FieldsPrefixInvariant | src/utils/transformSchema.js:281-425 | after the field loop every field has an entry; `required` holds each required field exactly once; each task belongs to one field and writes an existing entry |
| SchemaCompiler.PendingPlaced | src/utils/transformSchema.js:267-426 | every task collected by the structural pass writes an existing field of an emitted block |
| SchemaCompiler.ProcessBindField | src/utils/transformSchema.js:127-226 | throws iff building the primary throws, leaving the document unchanged; otherwise the block becomes `BindFieldStep` of it |
| SchemaCompiler.ProcessField | src/utils/transformSchema.js:281-425 | one field iteration writes `FieldBlock` and returns the field's task |
| SchemaCompiler.ProcessBlock | src/utils/transformSchema.js:270-425 | one block iteration writes the finished block under its key and returns its tasks |
| SchemaCompiler.BuildStructure | src/utils/transformSchema.js:249-426 | the structural pass produces the tree and task list of `BlocksPrefix` over all keys |
| SchemaCompiler.RunTask | src/utils/transformSchema.js:358-385 | one task changes only its own field and keeps every other task's field in place; it loads exactly the module its source names, when the code or path is set |
| SchemaCompiler.ResolvePending | src/utils/transformSchema.js:428-429 | the join leaves the blocks as `ApplyAll` of the tasks, with the modules every load yields, and the cache as `CacheAfterTasks` |
| SchemaCompiler.RenderJsonSchemaAsync | src/utils/transformSchema.js:236-432 | the result is `Compile` of the configuration; compiling leaves unchanged what later loads yield; a missing configuration loads nothing, otherwise the cache is `CacheAfterTasks` of the structural pass's tasks |
| SchemaCompiler.BlockPlaced | src/utils/transformSchema.js:281-425 | every task of a finished block writes an existing field of that block |
| TaskOrder.TaskSourcePermutation | src/utils/transformSchema.js:429 | which task writes a field is the same in any order of the same tasks |
| TaskOrder.ApplyAllShape | src/utils/transformSchema.js:379-385 | running tasks changes no block, key, title or required list |
| TaskOrder.ApplyAllEntry | src/utils/transformSchema.js:429 | after the tasks, each field is resolved by the task that writes it, or else unchanged |
| TaskOrder.ApplyAllPermutation | src/utils/transformSchema.js:428-429 | tasks that write distinct fields give the same document in any completion order |
| TaskOrder.ApiLoadLast | src/utils/moduleLoader.js:16-51 | loading the function table after, before or besides the dictionary table leaves the same cache |
| TaskOrder.CacheAfterTasksLoads | src/utils/transformSchema.js:358-387 | after the tasks, the function table has been loaded once iff some task has a non-empty lookup path, the dictionary table once iff some task has a non-empty dictionary code, and nothing else is cached |
| TaskOrder.CacheAfterTasksPermutation | src/utils/transformSchema.js:428-429 | the same tasks in any completion order leave the same cache |
| CompileFacts.FieldsPrefixFields | src/utils/transformSchema.js:211-224 | after the field loop each field holds its own property, since a companion never overwrites an entry, and every field's task is registered |
| CompileFacts.FieldsPrefixRequired | src/utils/transformSchema.js:292-294 | a block's `required` list is its required field keys in declaration order, with no companion key added |
| CompileFacts.StructureFacts | src/utils/transformSchema.js:267-426 | the structural pass emits one finished block per key with truthy `properties`, except "title", in key order; it registers exactly the blocks' tasks, and no two tasks write the same field |
| CompileFacts.StructureTask | src/utils/transformSchema.js:379-386 | the only task writing a field is the one that field registered |
| CompileFacts.CompileBlocks | src/utils/transformSchema.js:238-294 | the document title is `title \|\| "title"`, the type is "object", the top-level `required` is empty, and `ui:options` is fixed; the blocks appear in key order, each with its title and exactly its required fields, once each, in declaration order; a missing configuration yields null |
| CompileFacts.CompiledField | src/utils/transformSchema.js:236-432 | every field of every emitted block ends up holding its primary property, or its normal property with its option lists resolved by its own task |
| CompileFacts.FieldsPrefixOrigin | src/utils/transformSchema.js:202-225 | after the field loop every entry of a block is one of its fields or the companion of a bound field before it |
| CompileFacts.CompanionWritten | src/utils/transformSchema.js:209-225 | a bound field's iteration writes its companion key, and writes the companion property there when no field has that key and no earlier bound field used it |
| CompileFacts.EntryKept | src/utils/transformSchema.js:202-225 | a later field iteration keeps an entry whose key is not a field key |
| CompileFacts.EntryPersists | src/utils/transformSchema.js:281-425 | once written, such an entry is kept to the end of the field loop |
| CompileFacts.CompanionFirst | src/utils/transformSchema.js:209-225 | right after a bound field, its companion is present, and holds the companion property when its key is free |
| CompileFacts.BlockCompanion | src/utils/transformSchema.js:281-289 | in a finished block, each bound field's companion is present, and holds that field's companion property when its key is free |
| CompileFacts.CompiledCompanion | src/utils/transformSchema.js:127-226 | in the compiled document each bound field's companion key is present in the field's block; when no field of the block has that key and no earlier bound field used it, it holds `CompanionProperty` of that field, and no task rewrites it |
| CompileFacts.DynamicFieldDegrades | src/utils/transformSchema.js:353-387 | a dictionary or lookup field ends with equal-length lists, `uniqueItems` false and `clearable` true; its lists are empty when the source fails |
| CompileFacts.CompileAnyOrder | src/utils/transformSchema.js:428-429 | whatever order the tasks complete in, the document is the one `Compile` describes |

## Left out

- Logging (`console.*`) is not modelled, and neither are error messages: a throw is modelled as an error outcome.
- Promise scheduling is not modelled. The tasks are applied one after the other. Every write a task makes happens after its first `await`, and `TaskOrder.ApplyAllPermutation` shows that the completion order does not matter.
- Concurrent loads of the same module are not modelled: every load in one compilation yields the same module (`ModulesOf`).
- The host's module resolution (`import()`, `require`) is replaced by the given outcome of each strategy.
- `extProperties` is not modelled. It is always an empty object.
- The unused `getModule`/`moduleCache` in src/utils/transformSchema.js:109-116 is dead code and is left out.
- The configuration is typed, so only the following inputs are covered:
  - An absent attribute is its falsy value.
  - A block is either a record or a value without `properties`. A `null` block, whose `.properties` read would throw, is not covered.
  - Static option entries are records.
  - The form title is a string.
  - A field descriptor is a record. A `null` or non-object descriptor, whose `bindBlock` read throws (src/utils/transformSchema.js:285), is not covered.
  - A truthy `type` is a string. A truthy non-string `type`, whose `toLowerCase` call throws (src/utils/transformSchema.js:135, src/utils/transformSchema.js:301), is not covered.
  - `enums` is a list when present. A truthy non-array `enums` with a positive `length`, whose `.map` call throws (src/utils/transformSchema.js:182, src/utils/transformSchema.js:346), is not covered.
- Numbers are integers. Floating point, `NaN` and `-0` are not modelled.
- `toLowerCase` is modelled on ASCII letters only.
- Inherited object members such as `constructor` or `__proto__` are not modelled. Neither is the ordering JavaScript gives integer-like keys: keys keep plain insertion order.
- The options argument of renderJsonSchemaAsync and the base-path arguments are not modelled, because the code ignores them.
- SchemaCompiler.FieldsPrefix: a key without an entry contributes nothing. An object's keys always have entries, so this case never arises.
- CompileFacts.CompileBlocks: states each block's title and required list, and that every field has its entry. It does not state that a block's only other entries are bound fields' companions (that is stated one step at a time by `SchemaCompiler.FieldBlockEntries`).
- SchemaCompiler.ProcessBindField: the throwing case is reachable only with a non-empty `dictApiMaps`. The compiler always passes an empty one, so its throw does not propagate through `RenderJsonSchemaAsync`.

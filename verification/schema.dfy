/** The form configuration the compiler reads and the rendering schema it
    writes. In the configuration an attribute that is absent is represented by
    its falsy value ("" for a string, 0 for a number, false for a flag): the
    compiler only ever tests these attributes for truthiness and copies them. */
module Schema {
  import opened JsValue

  /** One entry of a static `enums` list: its `value`, `code`, `label` (here
      `caption`, as `label` is a Dafny keyword) and `name` attributes. */
  datatype EnumItem = EnumItem(value: Value, code: Value, caption: Value, name: Value)

  /** A field descriptor. `title` is optional because `${title}` prints an
      absent title as "undefined"; `extra` holds every other attribute, among
      them the `hr`-prefixed pass-through ones. */
  datatype Field = Field(
    title: Option<string>,
    typ: string,
    emptyValue: Value,
    required: bool,
    requiredMessage: string,
    disabled: bool,
    hidden: bool,
    placeholder: string,
    pattern: string,
    patternMessage: string,
    maxLength: int,
    enums: Option<seq<EnumItem>>,
    enumDict: string,
    enumApi: string,
    enumApiParams: Value,
    widget: string,
    maxCount: int,
    maxSize: int,
    fileTypes: string,
    bindBlock: string,
    bindCode: string,
    extra: map<string, Value>)

  /** A block: its title and, when truthy, its `properties` object. */
  datatype BlockConfig = BlockConfig(title: string, properties: Option<Ordered<Field>>)

  /** `formConfig.config`: `keys` is `Object.keys(config)`; the key "title"
      carries the form title, every other key names a block. */
  datatype Config = Config(keys: seq<string>, title: string, blocks: map<string, BlockConfig>)
  {
    ghost predicate Valid() {
      && (forall i :: 0 <= i < |keys| ==> keys[i] !in keys[..i])
      && (forall k :: k in keys ==> k == "title" || k in blocks)
      && (forall k :: k in blocks ==> k in keys)
      && "title" !in blocks
      && (forall k :: k in blocks && blocks[k].properties.Some? ==> blocks[k].properties.value.Valid())
    }
  }

  /** The argument of renderJsonSchemaAsync: its `config` may be missing. */
  datatype FormConfig = FormConfig(config: Option<Config>)

  /** The upload-specific entries of `ui:options`. */
  datatype UploadOptions = UploadOptions(maxCount: int, maxSize: int, fileTypes: string)

  /** `ui:options` of a property; None is an absent key. */
  datatype UiOptions = UiOptions(
    disabled: bool,
    placeholder: Option<string>,
    clearable: Option<bool>,
    pattern: Option<string>,
    errPattern: Option<string>,
    maxLength: Option<int>,
    upload: Option<UploadOptions>)

  /** `minItems`, `maxItems` and `items: {type}` of an upload property. */
  datatype ArrayShape = ArrayShape(minItems: int, maxItems: int, itemType: string)

  /** One output property; None is an absent key. */
  datatype Property = Property(
    typ: string,
    title: string,
    emptyValue: Value,
    hidden: Option<bool>,
    bindBlock: Option<string>,
    bindCode: Option<string>,
    options: UiOptions,
    errRequired: Option<string>,
    hr: map<string, Value>,
    widget: Option<string>,
    shape: Option<ArrayShape>,
    enumValues: Option<seq<Value>>,
    enumNames: Option<seq<Value>>,
    uniqueItems: Option<bool>)

  /** An output block. */
  datatype Block = Block(title: string, required: seq<string>, properties: Ordered<Property>)

  /** The top-level `ui:options`. */
  datatype TopOptions = TopOptions(canBeFolded: bool, hrBlockType: string)

  /** The whole output document. */
  datatype Tree = Tree(title: string, typ: string, required: seq<string>, properties: Ordered<Block>, options: TopOptions)

  /** A resolved option list: `enum` and `enumNames`. */
  datatype EnumLists = EnumLists(values: seq<Value>, names: seq<Value>)

  /** Where a deferred option list comes from. */
  datatype Source = DictSource(dictCode: string) | ApiSource(api: string, params: Value)

  /** A deferred resolution: the field it writes, addressed by block and key. */
  datatype Pending = Pending(block: string, field: string, source: Source)

  /** The `jsonSchema` object that renderJsonSchemaAsync builds in place. */
  class JsonSchema {
    var title: string
    var typ: string
    var required: seq<string>
    var properties: Ordered<Block>
    var options: TopOptions

    constructor (title: string)
      ensures Snapshot() == Tree(title, "object", [], EmptyObject(), TopOptions(true, "0"))
    {
      this.title := title;
      typ := "object";
      required := [];
      properties := EmptyObject();
      options := TopOptions(true, "0");
    }

    /** The document as it stands. */
    function Snapshot(): Tree
      reads this
    {
      Tree(title, typ, required, properties, options)
    }
  }

  /** `b` has the blocks, keys, titles and required lists of `a`: only
      property contents may differ. */
  ghost predicate SameShape(a: Ordered<Block>, b: Ordered<Block>) {
    && a.keys == b.keys
    && a.vals.Keys == b.vals.Keys
    && forall k :: k in a.vals ==>
         && k in b.vals
         && a.vals[k].title == b.vals[k].title
         && a.vals[k].required == b.vals[k].required
         && a.vals[k].properties.keys == b.vals[k].properties.keys
         && a.vals[k].properties.vals.Keys == b.vals[k].properties.vals.Keys
  }

  /** `properties[block].properties[field] = p` on a document whose block exists. */
  function SetProperty(blocks: Ordered<Block>, block: string, field: string, p: Property): Ordered<Block>
    requires block in blocks.vals
  {
    var blk := blocks.vals[block];
    blocks.(vals := blocks.vals[block := blk.(properties := blk.properties.Put(field, p))])
  }
}

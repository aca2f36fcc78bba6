/** How one field descriptor becomes an output property: the normal path of
    renderJsonSchemaAsync, and the primary and companion properties that
    processBindField writes for a bound field. */
module FieldSynthesis {
  import opened JsValue
  import opened Schema

  const SelectPrompt := "请选择"
  const InputPrompt := "请输入"
  const BadFormatMessage := "格式不正确"
  const AreaWidget := "AreaWidget"
  const UploadWidget := "uploadWidget"
  const AreaTitle := "省市区"
  const DefaultMaxCount := 50
  const DefaultMaxSize := 20971520
  const DefaultFileTypes := "jpeg,jpg,png"

  /** `propConfig.bindBlock && propConfig.bindCode`: the field takes the bound path. */
  predicate IsBound(f: Field) {
    f.bindBlock != "" && f.bindCode != ""
  }

  /** `!!(enums || enumDict || enumApi)`: an empty `enums` array is truthy. */
  predicate HasEnumOptions(f: Field) {
    f.enums.Some? || f.enumDict != "" || f.enumApi != ""
  }

  /** `enums && enums.length > 0` */
  predicate HasStaticEnums(f: Field) {
    f.enums.Some? && |f.enums.value| > 0
  }

  /** `title || default` */
  function TitleOr(f: Field, default: string): string {
    if f.title.Some? && f.title.value != "" then f.title.value else default
  }

  /** `${title}`: an absent title prints as "undefined". */
  function TitleText(f: Field): string {
    if f.title.Some? then f.title.value else "undefined"
  }

  /** `type ? type.toLowerCase() : "string"` */
  function LoweredType(f: Field): string {
    if f.typ != "" then ToLower(f.typ) else "string"
  }

  /** The attributes whose names start with "hr", copied verbatim. */
  function HrAttributes(extra: map<string, Value>): (r: map<string, Value>)
    ensures forall k :: k in r <==> k in extra && StartsWith(k, "hr")
    ensures forall k :: k in r ==> r[k] == extra[k]
  {
    map k | k in extra && StartsWith(k, "hr") :: extra[k]
  }

  /** `enums.map(item => item.value || item.code)` */
  function StaticCodes(items: seq<EnumItem>): seq<Value> {
    seq(|items|, i requires 0 <= i < |items| => Or(items[i].value, items[i].code))
  }

  /** `enums.map(item => item.label || item.name)` */
  function StaticNames(items: seq<EnumItem>): seq<Value> {
    seq(|items|, i requires 0 <= i < |items| => Or(items[i].caption, items[i].name))
  }

  /** `item.code || item.value` for a remote entry, `item.value || item.code` otherwise. */
  function CodeOf(item: Value, codeFirst: bool): Value
    requires !item.Nullish()
  {
    if codeFirst then Or(Prop(item, "code"), Prop(item, "value")) else Or(Prop(item, "value"), Prop(item, "code"))
  }

  /** `item.name || item.label` for a remote entry, `item.label || item.name` otherwise. */
  function LabelOf(item: Value, codeFirst: bool): Value
    requires !item.Nullish()
  {
    if codeFirst then Or(Prop(item, "name"), Prop(item, "label")) else Or(Prop(item, "label"), Prop(item, "name"))
  }

  /** Mapping a list of loaded entries to `enum` and `enumNames`, entry by
      entry; None when an entry is undefined or null, where reading its
      attribute throws. */
  function Project(items: seq<Value>, codeFirst: bool): (r: Option<EnumLists>)
    ensures r.Some? <==> forall i :: 0 <= i < |items| ==> !items[i].Nullish()
    ensures r.Some? ==>
      && |r.value.values| == |items| == |r.value.names|
      && forall i :: 0 <= i < |items| ==>
           r.value.values[i] == CodeOf(items[i], codeFirst) && r.value.names[i] == LabelOf(items[i], codeFirst)
  {
    if items == [] then Some(EnumLists([], []))
    else if items[0].Nullish() then None
    else match Project(items[1..], codeFirst)
      case None =>
        assert exists i :: 1 <= i < |items| && items[i].Nullish() by {
          var j :| 0 <= j < |items[1..]| && items[1..][j].Nullish();
          assert items[j + 1] == items[1..][j];
        }
        None
      case Some(rest) =>
        var r := EnumLists([CodeOf(items[0], codeFirst)] + rest.values, [LabelOf(items[0], codeFirst)] + rest.names);
        assert forall i :: 1 <= i < |items| ==> items[i] == items[1..][i - 1];
        Some(r)
  }

  lemma LowerArray()
    ensures ToLower("Array") == "array"
  {
    assert LowerChar('A') == 'a';
  }

  lemma LoweredTypeIsLower(f: Field)
    ensures forall i :: 0 <= i < |LoweredType(f)| ==> !IsUpper(LoweredType(f)[i])
  {
  }

  /** The property a field that is not bound gets before its deferred option
      list, if any, is resolved (src/utils/transformSchema.js:297-421). */
  function NormalProperty(f: Field): (p: Property)
    // type: lower-cased, "string" by default
    ensures forall i :: 0 <= i < |p.typ| ==> !IsUpper(p.typ[i])
    // a non-empty static list wins and is resolved at once, in list order
    ensures p.enumValues.Some? <==> HasStaticEnums(f)
    ensures p.enumNames.Some? <==> HasStaticEnums(f)
    ensures HasStaticEnums(f) ==>
      && |p.enumValues.value| == |f.enums.value| == |p.enumNames.value|
      && (forall i :: 0 <= i < |f.enums.value| ==>
            p.enumValues.value[i] == Or(f.enums.value[i].value, f.enums.value[i].code)
            && p.enumNames.value[i] == Or(f.enums.value[i].caption, f.enums.value[i].name))
    // the flags are set at once for a static list or a dictionary, and by the lookup task otherwise
    ensures HasStaticEnums(f) || f.enumDict != "" ==> p.uniqueItems == Some(false) && p.options.clearable == Some(true)
    ensures !HasStaticEnums(f) && f.enumDict == "" ==> p.uniqueItems.None? && p.options.clearable.None?
  {
    LowerArray();
    LoweredTypeIsLower(f);
    var prompt := if HasEnumOptions(f) then SelectPrompt else InputPrompt;
    var upload := f.typ == "Array" && f.widget == UploadWidget;
    var flagged := HasStaticEnums(f) || f.enumDict != "";
    var maxCount := if f.maxCount != 0 then f.maxCount else DefaultMaxCount;
    Property(
      typ := if f.typ == "Array" then "array" else LoweredType(f),
      title := TitleOr(f, ""),
      emptyValue := Or(f.emptyValue, Str("")),
      hidden := if f.hidden then Some(true) else None,
      bindBlock := if f.bindBlock != "" then Some(f.bindBlock) else None,
      bindCode := if f.bindCode != "" then Some(f.bindCode) else None,
      options := UiOptions(
        disabled := f.disabled,
        placeholder := Some(if f.placeholder != "" then f.placeholder else prompt),
        clearable := if flagged then Some(true) else None,
        pattern := if f.pattern != "" then Some(f.pattern) else None,
        errPattern := if f.pattern != "" then Some(if f.patternMessage != "" then f.patternMessage else BadFormatMessage) else None,
        maxLength := if f.maxLength != 0 then Some(f.maxLength) else None,
        upload := if upload then Some(UploadOptions(
                    maxCount,
                    if f.maxSize != 0 then f.maxSize else DefaultMaxSize,
                    if f.fileTypes != "" then f.fileTypes else DefaultFileTypes))
                  else None),
      errRequired := Some(if f.requiredMessage != "" then f.requiredMessage else prompt + TitleText(f)),
      hr := HrAttributes(f.extra),
      widget := if f.widget != "" && f.widget != UploadWidget then Some(f.widget)
                else if upload then Some(UploadWidget)
                else None,
      shape := if upload then Some(ArrayShape(0, maxCount, "object")) else None,
      enumValues := if HasStaticEnums(f) then Some(StaticCodes(f.enums.value)) else None,
      enumNames := if HasStaticEnums(f) then Some(StaticNames(f.enums.value)) else None,
      uniqueItems := if flagged then Some(false) else None)
  }

  /** The texts of a normal property: title, empty value and the two
      prompts, which say "select" as soon as any option source is configured. */
  lemma NormalPropertyTexts(f: Field)
    ensures var p := NormalProperty(f);
      && p.title == TitleOr(f, "")
      && p.emptyValue == Or(f.emptyValue, Str(""))
      && p.options.placeholder ==
           Some(if f.placeholder != "" then f.placeholder else if HasEnumOptions(f) then SelectPrompt else InputPrompt)
      && p.errRequired ==
           Some(if f.requiredMessage != "" then f.requiredMessage
                else (if HasEnumOptions(f) then SelectPrompt else InputPrompt) + TitleText(f))
  {
  }

  /** The attributes a normal property passes through: `hr*` attributes,
      hidden, the bind names, disabled and the validation rules. */
  lemma NormalPropertyPassThrough(f: Field)
    ensures var p := NormalProperty(f);
      && p.hr == HrAttributes(f.extra)
      && (p.hidden.Some? <==> f.hidden)
      && (p.hidden.Some? ==> p.hidden.value)
      && p.bindBlock == (if f.bindBlock != "" then Some(f.bindBlock) else None)
      && p.bindCode == (if f.bindCode != "" then Some(f.bindCode) else None)
      && p.options.disabled == f.disabled
      && (p.options.pattern.Some? <==> f.pattern != "")
      && (f.pattern != "" ==>
            && p.options.pattern == Some(f.pattern)
            && p.options.errPattern == Some(if f.patternMessage != "" then f.patternMessage else BadFormatMessage))
      && (f.pattern == "" ==> p.options.errPattern.None?)
      && p.options.maxLength == (if f.maxLength != 0 then Some(f.maxLength) else None)
  {
  }

  /** Type and widget of a normal property: an `Array` field with the upload
      widget becomes an array of objects with upload limits defaulted. */
  lemma NormalPropertyWidgets(f: Field)
    ensures var p := NormalProperty(f);
      && (f.typ == "" ==> p.typ == "string")
      && (f.typ != "" ==> p.typ == ToLower(f.typ))
      && (f.widget != "" && f.widget != UploadWidget ==> p.widget == Some(f.widget))
      && ((f.widget == "" || f.widget == UploadWidget) && !(f.typ == "Array" && f.widget == UploadWidget) ==> p.widget.None?)
      && (p.shape.Some? <==> f.typ == "Array" && f.widget == UploadWidget)
      && (p.shape.Some? ==>
            && p.typ == "array"
            && p.widget == Some(UploadWidget)
            && p.shape.value == ArrayShape(0, if f.maxCount != 0 then f.maxCount else DefaultMaxCount, "object")
            && p.options.upload == Some(UploadOptions(
                 if f.maxCount != 0 then f.maxCount else DefaultMaxCount,
                 if f.maxSize != 0 then f.maxSize else DefaultMaxSize,
                 if f.fileTypes != "" then f.fileTypes else DefaultFileTypes)))
      && (p.shape.None? ==> p.options.upload.None?)
  {
    LowerArray();
  }

  /** The deferred option list a field that is not bound registers: a
      dictionary when there is no non-empty static list, else a remote lookup. */
  function NormalSource(f: Field): Option<Source> {
    if HasStaticEnums(f) then None
    else if f.enumDict != "" then Some(DictSource(f.enumDict))
    else if f.enumApi != "" then Some(ApiSource(f.enumApi, f.enumApiParams))
    else None
  }

  /** The three option sources are used in priority order and at most one is
      used: static list, then dictionary, then remote lookup. */
  lemma EnumSourcePriority(f: Field)
    ensures HasStaticEnums(f) ==> NormalSource(f).None? && NormalProperty(f).enumValues.Some?
    ensures !HasStaticEnums(f) && f.enumDict != "" ==> NormalSource(f) == Some(DictSource(f.enumDict))
    ensures !HasStaticEnums(f) && f.enumDict == "" && f.enumApi != "" ==>
      NormalSource(f) == Some(ApiSource(f.enumApi, f.enumApiParams))
    ensures NormalSource(f).Some? ==> NormalProperty(f).enumValues.None? && HasEnumOptions(f)
  {
  }

  /** `bindBlock || key` */
  function BlockKeyOf(key: string, f: Field): string {
    if f.bindBlock != "" then f.bindBlock else key
  }

  /** `bindCode || mainField + "Code"` */
  function BindCodeOf(propKey: string, f: Field): string {
    if f.bindCode != "" then f.bindCode else propKey + "Code"
  }

  /** The entry processBindField looks up in `dictApiMaps`, when it is used. */
  predicate DictMapHit(f: Field, dictApiMaps: map<string, Value>) {
    !HasStaticEnums(f) && f.enumDict != "" && f.enumDict in dictApiMaps && dictApiMaps[f.enumDict].Truthy()
  }

  /** The primary property processBindField builds
      (src/utils/transformSchema.js:134-199); None when mapping the
      `dictApiMaps` entry throws on an undefined or null item. */
  function PrimaryProperty(key: string, propKey: string, f: Field, dictApiMaps: map<string, Value>): (r: Option<Property>)
    ensures dictApiMaps == map[] ==> r.Some?
    ensures r.None? <==>
      DictMapHit(f, dictApiMaps) && dictApiMaps[f.enumDict].Arr? && Project(dictApiMaps[f.enumDict].items, false).None?
    ensures r.Some? ==>
      var p := r.value;
      && p.typ == LoweredType(f)
      && p.title == TitleOr(f, "")
      && p.hidden == Some(f.hidden)
      && p.bindBlock == Some(BlockKeyOf(key, f))
      && p.bindCode == Some(BindCodeOf(propKey, f))
      && p.shape.None? && p.options.upload.None?
      && p.options.placeholder ==
           Some(if f.placeholder != "" then f.placeholder
                else if f.widget == AreaWidget then SelectPrompt else InputPrompt)
      && p.errRequired ==
           Some(if f.requiredMessage != "" then f.requiredMessage
                else if f.widget == AreaWidget then SelectPrompt + TitleOr(f, AreaTitle)
                else InputPrompt + TitleOr(f, ""))
      && p.widget == (if f.widget != "" && f.widget != UploadWidget then Some(f.widget) else None)
      && p.hr == HrAttributes(f.extra)
    // with the empty `dictApiMaps` of the call site only a static list is resolved
    ensures dictApiMaps == map[] ==> (r.value.enumValues.Some? <==> HasStaticEnums(f))
    ensures r.Some? && HasStaticEnums(f) ==>
      r.value.enumValues == Some(StaticCodes(f.enums.value)) && r.value.enumNames == Some(StaticNames(f.enums.value))
      && r.value.uniqueItems == Some(false) && r.value.options.clearable == Some(true)
    ensures r.Some? ==> (r.value.enumValues.Some? <==> r.value.enumNames.Some?)
    ensures r.Some? && r.value.enumValues.Some? ==> |r.value.enumValues.value| == |r.value.enumNames.value|
  {
    var area := f.widget == AreaWidget;
    var hit := DictMapHit(f, dictApiMaps);
    var dictData := if hit then dictApiMaps[f.enumDict] else Undefined;
    var projected := if dictData.Arr? then Project(dictData.items, false) else None;
    if dictData.Arr? && projected.None? then None
    else
      var lists :=
        if HasStaticEnums(f) then Some(EnumLists(StaticCodes(f.enums.value), StaticNames(f.enums.value)))
        else if hit then Some(if dictData.Arr? then projected.value else EnumLists([], []))
        else None;
      var flagged := HasStaticEnums(f) || dictData.Arr?;
      Some(Property(
        typ := LoweredType(f),
        title := TitleOr(f, ""),
        emptyValue := Or(f.emptyValue, Str("")),
        hidden := Some(f.hidden),
        bindBlock := Some(BlockKeyOf(key, f)),
        bindCode := Some(BindCodeOf(propKey, f)),
        options := UiOptions(
          disabled := f.disabled,
          placeholder := Some(if f.placeholder != "" then f.placeholder else if area then SelectPrompt else InputPrompt),
          clearable := if flagged then Some(true) else None,
          pattern := if f.pattern != "" then Some(f.pattern) else None,
          errPattern := if f.pattern != "" then Some(if f.patternMessage != "" then f.patternMessage else BadFormatMessage) else None,
          maxLength := if f.maxLength != 0 then Some(f.maxLength) else None,
          upload := None),
        errRequired := Some(if f.requiredMessage != "" then f.requiredMessage
                            else if area then SelectPrompt + TitleOr(f, AreaTitle)
                            else InputPrompt + TitleOr(f, "")),
        hr := HrAttributes(f.extra),
        widget := if area then Some(AreaWidget)
                  else if f.widget != "" && f.widget != UploadWidget then Some(f.widget)
                  else None,
        shape := None,
        enumValues := if lists.Some? then Some(lists.value.values) else None,
        enumNames := if lists.Some? then Some(lists.value.names) else None,
        uniqueItems := if flagged then Some(false) else None))
  }

  /** The hidden companion property processBindField writes at the bind code
      (src/utils/transformSchema.js:213-224): always a hidden string with no
      required message, pointing back at the primary key. */
  function CompanionProperty(key: string, propKey: string, f: Field): (p: Property)
    ensures p.typ == "string"
    ensures p.hidden == Some(true)
    ensures p.errRequired.None?
    ensures p.title == TitleOr(f, if f.widget == AreaWidget then AreaTitle else "") + "Code"
    ensures p.bindBlock == Some(BlockKeyOf(key, f))
    ensures p.bindCode == Some(propKey)
    ensures p.emptyValue == Str("")
    ensures p.options == UiOptions(f.disabled, None, None, None, None, None, None)
    ensures p.enumValues.None? && p.enumNames.None? && p.widget.None? && p.hr == map[]
  {
    Property(
      typ := "string",
      title := TitleOr(f, if f.widget == AreaWidget then AreaTitle else "") + "Code",
      emptyValue := Str(""),
      hidden := Some(true),
      bindBlock := Some(BlockKeyOf(key, f)),
      bindCode := Some(propKey),
      options := UiOptions(f.disabled, None, None, None, None, None, None),
      errRequired := None,
      hr := map[],
      widget := None,
      shape := None,
      enumValues := None,
      enumNames := None,
      uniqueItems := None)
  }
}

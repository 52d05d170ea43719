/**
 * KeywordFormMapper: the field value form mapper of the keyword field type. It adds the
 * `value` child to a field's form, labelled with the field definition's name in the
 * form's main language (or its first name), and declares the translation domain default.
 */
module KeywordFormMapper {
  import opened PhpValue
  import PhpArray

  /** KeywordFieldType::class, the form type of the added child. */
  const KEYWORD_FIELD_TYPE := "EzSystems\\RepositoryForms\\Form\\Type\\FieldType\\KeywordFieldType"

  const TRANSLATION_DOMAIN := "ezrepoforms_content_type"

  /** A field definition as the mapper reads it: its names by language code, in order, and whether it is required. */
  datatype FieldDefinition = FieldDefinition(names: PhpArray.Entries<string>, isRequired: bool)

  datatype FieldData = FieldData(fieldDefinition: FieldDefinition)

  /** A child form's label: a string, or `false` when `reset` found no name. */
  datatype Label = Text(s: string) | False

  /** The child form the mapper builds. */
  datatype ChildForm = ChildForm(name: string, formType: string, required: bool, formLabel: Label, autoInitialize: bool)

  /**
   * `getName(mainLanguageCode) ?: reset(names)`: the main-language name when it is truthy,
   * otherwise the first name, otherwise `false`.
   */
  function LabelFor(definition: FieldDefinition, mainLanguageCode: string): (r: Label)
    ensures Truthy(PhpArray.Lookup(definition.names, mainLanguageCode)) ==>
      r == Text(PhpArray.Lookup(definition.names, mainLanguageCode).value)
    ensures !Truthy(PhpArray.Lookup(definition.names, mainLanguageCode)) && definition.names != [] ==>
      r == Text(definition.names[0].1)
    ensures r == False <==> definition.names == []
    ensures r.Text? ==> exists i :: 0 <= i < |definition.names| && definition.names[i].1 == r.s
  {
    var main := PhpArray.Lookup(definition.names, mainLanguageCode);
    if Truthy(main) then Text(main.value)
    else if definition.names == [] then False
    else Text(definition.names[0].1)
  }

  /** The `value` child: keyword field type, required as the definition is, not auto-initialized. */
  function ValueChild(definition: FieldDefinition, mainLanguageCode: string): (child: ChildForm)
    ensures child.name == "value" && child.formType == KEYWORD_FIELD_TYPE
    ensures child.required == definition.isRequired
    ensures child.formLabel == LabelFor(definition, mainLanguageCode)
    ensures !child.autoInitialize
  {
    ChildForm("value", KEYWORD_FIELD_TYPE, definition.isRequired, LabelFor(definition, mainLanguageCode), false)
  }

  /** A field's form: its `mainLanguageCode` option and its children by name. */
  class FieldForm {
    const mainLanguageCode: string
    var children: map<string, ChildForm>

    constructor (mainLanguageCode: string, children: map<string, ChildForm>)
      ensures this.mainLanguageCode == mainLanguageCode && this.children == children
    {
      this.mainLanguageCode := mainLanguageCode;
      this.children := children;
    }

    /** `add($child)`: a child of the same name is replaced. */
    method Add(child: ChildForm)
      modifies this
      ensures children == old(children)[child.name := child]
    {
      children := children[child.name := child];
    }
  }

  /** A Symfony OptionsResolver, reduced to its defaults and its defined options. */
  class OptionsResolver {
    var defaults: Parameters
    var defined: set<string>

    constructor ()
      ensures defaults == map[] && defined == {}
    {
      defaults, defined := map[], {};
    }

    /** `setDefaults($d)`: every option of `d` becomes defined with that default. */
    method SetDefaults(d: Parameters)
      modifies this
      ensures defaults == old(defaults) + d
      ensures defined == old(defined) + d.Keys
    {
      defaults := defaults + d;
      defined := defined + d.Keys;
    }
  }

  /** mapFieldValueForm: the field form gains exactly one child, `value`; nothing else changes. */
  method MapFieldValueForm(fieldForm: FieldForm, data: FieldData)
    modifies fieldForm
    ensures fieldForm.children == old(fieldForm.children)["value" := ValueChild(data.fieldDefinition, fieldForm.mainLanguageCode)]
  {
    var child := ValueChild(data.fieldDefinition, fieldForm.mainLanguageCode);
    fieldForm.Add(child);
  }

  /** configureOptions: the only default declared is the translation domain. */
  method ConfigureOptions(resolver: OptionsResolver)
    modifies resolver
    ensures resolver.defaults == old(resolver.defaults)["translation_domain" := Str(TRANSLATION_DOMAIN)]
    ensures resolver.defined == old(resolver.defined) + {"translation_domain"}
  {
    resolver.SetDefaults(map["translation_domain" := Str(TRANSLATION_DOMAIN)]);
  }
}

/**
 * `FieldDefinition` as the model handlers read it, and the small definition
 * records they use. A definition is not changed while it is being deployed,
 * so the handlers see it as one value: the value its property getters return.
 */
module Definitions {
  import opened Wrappers
  import opened Text
  import opened Guids
  import opened FieldXml

  /** One entry of `FieldDefinition.AdditionalAttributes`. */
  datatype FieldAttributeValue = FieldAttributeValue(name: string, value: string)

  /** `AddFieldOptions.DefaultValue`; the other options are flags with non-zero values. */
  const AddFieldOptionsDefaultValue: int := 0

  datatype FieldDefinition = FieldDefinition(
    id: Guid,
    title: string,
    internalName: string,
    fieldType: string,
    group: NStr,
    description: NStr,
    required: bool,
    hidden: bool,
    indexed: bool,
    jsLink: NStr,
    validationMessage: NStr,
    validationFormula: NStr,
    defaultValue: NStr,
    showInDisplayForm: Option<bool>,
    showInEditForm: Option<bool>,
    showInListSettings: Option<bool>,
    showInNewForm: Option<bool>,
    showInVersionHistory: Option<bool>,
    showInViewForms: Option<bool>,
    allowDeletion: Option<bool>,
    /** The root element of `RawXml` once parsed; `None` when `RawXml` is null or empty. */
    rawXml: Option<FieldXml>,
    additionalAttributes: seq<FieldAttributeValue>,
    addFieldOptions: int,
    addToDefaultView: bool)

  /** `ListFieldLinkDefinition`: a site field to be linked into a list. */
  datatype ListFieldLinkDefinition = ListFieldLinkDefinition(
    fieldId: Guid,
    addFieldOptions: int,
    addToDefaultView: bool)

  /** Field type names (SPMeta2's BuiltInFieldTypes). */
  const LookupType := "Lookup"
  const CalculatedType := "Calculated"
  const URLType := "URL"
  const ComputedType := "Computed"
}

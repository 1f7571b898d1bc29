/**
 * `LookupFieldDefinition`: a lookup field. A multi-value lookup cannot be
 * indexed, so `Indexed` reads false while `AllowMultipleValues` is set and
 * a write to it is then dropped; the stored base value survives.
 */
module LookupField {
  import opened Wrappers
  import opened Text
  import opened Guids
  import opened Definitions

  /** `BuiltInInternalFieldNames.Title`. */
  const TitleInternalName := "Title"

  class LookupFieldDefinition {
    /** What the base class `FieldDefinition` stores (`base.Indexed` and the rest). */
    var inherited: FieldDefinition
    var allowMultipleValues: bool
    var lookupWebId: Option<Guid>
    var lookupList: NStr
    var lookupListTitle: NStr
    var lookupListUrl: NStr
    var lookupField: NStr

    /** `baseState` is the object as the base-class constructor leaves it. */
    constructor (baseState: FieldDefinition)
      ensures inherited == baseState.(fieldType := LookupType)
      ensures lookupField == Some(TitleInternalName)
      ensures !allowMultipleValues && lookupWebId.None?
      ensures lookupList.None? && lookupListTitle.None? && lookupListUrl.None?
    {
      inherited := baseState.(fieldType := LookupType);
      lookupField := Some(TitleInternalName);
      allowMultipleValues := false;
      lookupWebId, lookupList, lookupListTitle, lookupListUrl := None, None, None, None;
    }

    /** The `Indexed` getter. */
    function Indexed(): (r: bool)
      reads this
      ensures allowMultipleValues ==> !r
      ensures !allowMultipleValues ==> r == inherited.indexed
    {
      if allowMultipleValues then false else inherited.indexed
    }

    /** The `Indexed` setter: stores only while the field is single-valued. */
    method SetIndexed(value: bool)
      modifies this
      ensures inherited == if old(allowMultipleValues) then old(inherited) else old(inherited).(indexed := value)
      ensures allowMultipleValues == old(allowMultipleValues)
      ensures lookupWebId == old(lookupWebId) && lookupList == old(lookupList) && lookupField == old(lookupField)
      ensures lookupListTitle == old(lookupListTitle) && lookupListUrl == old(lookupListUrl)
      ensures !allowMultipleValues ==> Indexed() == value
      ensures allowMultipleValues ==> !Indexed()
    {
      if !allowMultipleValues {
        inherited := inherited.(indexed := value);
      }
    }

    method SetAllowMultipleValues(value: bool)
      modifies this
      ensures allowMultipleValues == value
      ensures inherited == old(inherited)
      ensures lookupWebId == old(lookupWebId) && lookupList == old(lookupList) && lookupField == old(lookupField)
      ensures lookupListTitle == old(lookupListTitle) && lookupListUrl == old(lookupListUrl)
    {
      allowMultipleValues := value;
    }

    /** The `ValidationMessage` and `ValidationFormula` getters: always empty. */
    function ValidationMessage(): (r: string)
      ensures r == ""
    {
      ""
    }

    function ValidationFormula(): (r: string)
      ensures r == ""
    {
      ""
    }

    /** The setters of `ValidationMessage` and `ValidationFormula` do nothing. */
    method SetValidationMessage(value: NStr)
      ensures AsFieldDefinition() == old(AsFieldDefinition())
    {
    }

    method SetValidationFormula(value: NStr)
      ensures AsFieldDefinition() == old(AsFieldDefinition())
    {
    }

    /** The definition as a model handler reads it, through the overriding getters. */
    function AsFieldDefinition(): (d: FieldDefinition)
      reads this
      ensures d.validationMessage == Some(ValidationMessage())
      ensures d.validationFormula == Some(ValidationFormula())
      ensures d.indexed == Indexed()
      ensures allowMultipleValues ==> !d.indexed
      ensures d.(indexed := inherited.indexed, validationMessage := inherited.validationMessage,
                 validationFormula := inherited.validationFormula) == inherited
    {
      inherited.(indexed := Indexed(), validationMessage := Some(ValidationMessage()),
                 validationFormula := Some(ValidationFormula()))
    }
  }

  /**
   * Switching `AllowMultipleValues` on, writing `Indexed`, and switching it
   * back off, leaves `Indexed` reading what it read before.
   */
  method IndexedSurvivesMultiValueToggle(d: LookupFieldDefinition, value: bool)
    requires !d.allowMultipleValues
    modifies d
    ensures d.Indexed() == old(d.Indexed())
    ensures !d.allowMultipleValues
  {
    d.SetAllowMultipleValues(true);
    d.SetIndexed(value);
    d.SetAllowMultipleValues(false);
  }
}

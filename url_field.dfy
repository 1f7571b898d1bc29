/** `URLFieldDefinition`: a hyperlink or picture field, with no validation message or formula. */
module URLField {
  import opened Wrappers
  import opened Text
  import opened Definitions

  /** `BuiltInUrlFieldFormatType.Hyperlink`. */
  const Hyperlink := "Hyperlink"

  class URLFieldDefinition {
    /** What the base class `FieldDefinition` stores. */
    var inherited: FieldDefinition
    var displayFormat: NStr

    /** `baseState` is the object as the base-class constructor leaves it. */
    constructor (baseState: FieldDefinition)
      ensures inherited == baseState.(fieldType := URLType)
      ensures displayFormat == Some(Hyperlink)
    {
      inherited := baseState.(fieldType := URLType);
      displayFormat := Some(Hyperlink);
    }

    /** The `ValidationMessage` and `ValidationFormula` getters: always empty. */
    function ValidationMessage(): (r: string)
      ensures r == ""
    {
      ""
    }

    function ValidationFormula(): (r: string)
      ensures r == ""
    {
      ""
    }

    /** Their setters do nothing. */
    method SetValidationMessage(value: NStr)
      ensures AsFieldDefinition() == old(AsFieldDefinition())
    {
    }

    method SetValidationFormula(value: NStr)
      ensures AsFieldDefinition() == old(AsFieldDefinition())
    {
    }

    /** `DisplayFormat` is plain storage. */
    method SetDisplayFormat(value: NStr)
      modifies this`displayFormat
      ensures displayFormat == value
    {
      displayFormat := value;
    }

    /** The definition as a model handler reads it, through the overriding getters. */
    function AsFieldDefinition(): (d: FieldDefinition)
      reads this
      ensures d.validationMessage == Some(ValidationMessage())
      ensures d.validationFormula == Some(ValidationFormula())
      ensures d.(validationMessage := inherited.validationMessage,
                 validationFormula := inherited.validationFormula) == inherited
    {
      inherited.(validationMessage := Some(ValidationMessage()), validationFormula := Some(ValidationFormula()))
    }
  }
}

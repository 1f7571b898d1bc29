/** `ComputedFieldDefinition`: a computed field, with no validation message or formula. */
module ComputedField {
  import opened Wrappers
  import opened Text
  import opened Definitions

  class ComputedFieldDefinition {
    /** What the base class `FieldDefinition` stores. */
    var inherited: FieldDefinition
    var enableLookup: Option<bool>

    /** `baseState` is the object as the base-class constructor leaves it. */
    constructor (baseState: FieldDefinition)
      ensures inherited == baseState.(fieldType := ComputedType)
      ensures enableLookup.None?
    {
      inherited := baseState.(fieldType := ComputedType);
      enableLookup := None;
    }

    /** The `ValidationMessage` and `ValidationFormula` getters: always empty. */
    function ValidationMessage(): (r: string)
      ensures r == ""
    {
      ""
    }

    function ValidationFormula(): (r: string)
      ensures r == ""
    {
      ""
    }

    /** Their setters do nothing. */
    method SetValidationMessage(value: NStr)
      ensures AsFieldDefinition() == old(AsFieldDefinition())
    {
    }

    method SetValidationFormula(value: NStr)
      ensures AsFieldDefinition() == old(AsFieldDefinition())
    {
    }

    /** `EnableLookup` is plain optional storage. */
    method SetEnableLookup(value: Option<bool>)
      modifies this`enableLookup
      ensures enableLookup == value
    {
      enableLookup := value;
    }

    /** The definition as a model handler reads it, through the overriding getters. */
    function AsFieldDefinition(): (d: FieldDefinition)
      reads this
      ensures d.validationMessage == Some(ValidationMessage())
      ensures d.validationFormula == Some(ValidationFormula())
      ensures d.(validationMessage := inherited.validationMessage,
                 validationFormula := inherited.validationFormula) == inherited
    {
      inherited.(validationMessage := Some(ValidationMessage()), validationFormula := Some(ValidationFormula()))
    }
  }
}

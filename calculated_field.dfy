/**
 * `CalculatedFieldDefinition`: a calculated field. It never reports a
 * default value (SharePoint breaks a calculated field that has one) and has
 * no validation message or formula.
 */
module CalculatedField {
  import opened Wrappers
  import opened Text
  import opened Definitions

  /** `BuiltInDateTimeFieldFormatType.DateOnly`. */
  const DateOnly := "DateOnly"

  class CalculatedFieldDefinition {
    /** What the base class `FieldDefinition` stores. */
    var inherited: FieldDefinition
    var currencyLocaleId: Option<int>
    var dateFormat: NStr
    var displayFormat: NStr
    var formula: NStr
    var outputType: NStr
    var showAsPercentage: Option<bool>
    /** `FieldReferences`, a collection reference; `None` is null. */
    var fieldReferences: Option<seq<string>>

    /** `baseState` is the object as the base-class constructor leaves it. */
    constructor (baseState: FieldDefinition)
      ensures inherited == baseState.(fieldType := CalculatedType)
      ensures fieldReferences == Some([])
      ensures dateFormat == Some(DateOnly)
      ensures currencyLocaleId == Some(1033)
      ensures displayFormat.None? && formula.None? && outputType.None? && showAsPercentage.None?
    {
      inherited := baseState.(fieldType := CalculatedType);
      fieldReferences := Some([]);
      dateFormat := Some(DateOnly);
      currencyLocaleId := Some(1033);
      displayFormat, formula, outputType, showAsPercentage := None, None, None, None;
    }

    /** The `DefaultValue`, `ValidationMessage` and `ValidationFormula` getters: always empty. */
    function DefaultValue(): (r: string)
      ensures r == ""
    {
      ""
    }

    function ValidationMessage(): (r: string)
      ensures r == ""
    {
      ""
    }

    function ValidationFormula(): (r: string)
      ensures r == ""
    {
      ""
    }

    /** Their setters do nothing. */
    method SetDefaultValue(value: NStr)
      ensures AsFieldDefinition() == old(AsFieldDefinition())
    {
    }

    method SetValidationMessage(value: NStr)
      ensures AsFieldDefinition() == old(AsFieldDefinition())
    {
    }

    method SetValidationFormula(value: NStr)
      ensures AsFieldDefinition() == old(AsFieldDefinition())
    {
    }

    /** Plain storage: `Formula`, `OutputType`, `DisplayFormat`, `ShowAsPercentage`. */
    method SetFormula(value: NStr)
      modifies this`formula
      ensures formula == value
    {
      formula := value;
    }

    method SetOutputType(value: NStr)
      modifies this`outputType
      ensures outputType == value
    {
      outputType := value;
    }

    method SetDisplayFormat(value: NStr)
      modifies this`displayFormat
      ensures displayFormat == value
    {
      displayFormat := value;
    }

    method SetShowAsPercentage(value: Option<bool>)
      modifies this`showAsPercentage
      ensures showAsPercentage == value
    {
      showAsPercentage := value;
    }

    /** The definition as a model handler reads it, through the overriding getters. */
    function AsFieldDefinition(): (d: FieldDefinition)
      reads this
      ensures d.defaultValue == Some(DefaultValue())
      ensures d.validationMessage == Some(ValidationMessage())
      ensures d.validationFormula == Some(ValidationFormula())
      ensures d.(defaultValue := inherited.defaultValue, validationMessage := inherited.validationMessage,
                 validationFormula := inherited.validationFormula) == inherited
    {
      inherited.(defaultValue := Some(DefaultValue()), validationMessage := Some(ValidationMessage()),
                 validationFormula := Some(ValidationFormula()))
    }
  }
}

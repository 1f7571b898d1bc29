/**
 * The `Field` element of a field schema: its attributes and its optional
 * `Default` sub-node. `XElement` is the mutable element the handler edits
 * in place; `FieldXml` is its value.
 */
module FieldXml {
  import opened Wrappers

  datatype FieldXml = FieldXml(attributes: map<string, string>, defaultNode: Option<string>)

  /** Set-or-replace one attribute. */
  function WithAttribute(x: FieldXml, name: string, value: string): (r: FieldXml)
    ensures name in r.attributes && r.attributes[name] == value
    ensures forall n :: n != name ==> (n in r.attributes <==> n in x.attributes)
    ensures forall n :: n != name && n in x.attributes ==> r.attributes[n] == x.attributes[n]
    ensures r.defaultNode == x.defaultNode
  {
    x.(attributes := x.attributes[name := value])
  }

  /** Attribute names of the field schema (SPMeta2's BuiltInFieldAttributes). */
  const ID := "ID"
  const StaticName := "StaticName"
  const DisplayName := "DisplayName"
  const Title := "Title"
  const Name := "Name"
  const Type := "Type"
  const Group := "Group"
  const JSLink := "JSLink"
  const Hidden := "Hidden"
  const ShowInDisplayForm := "ShowInDisplayForm"
  const ShowInEditForm := "ShowInEditForm"
  const ShowInListSettings := "ShowInListSettings"
  const ShowInNewForm := "ShowInNewForm"
  const ShowInVersionHistory := "ShowInVersionHistory"
  const ShowInViewForms := "ShowInViewForms"
  const AllowDeletion := "AllowDeletion"
  const Indexed := "Indexed"
  const Required := "Required"
  const Description := "Description"

  class XElement {
    var attributes: map<string, string>
    var defaultNode: Option<string>

    function Value(): FieldXml
      reads this
    {
      FieldXml(attributes, defaultNode)
    }

    constructor (x: FieldXml)
      ensures Value() == x
    {
      attributes := x.attributes;
      defaultNode := x.defaultNode;
    }

    /** The `SetAttribute` extension: set or replace one attribute. */
    method SetAttribute(name: string, value: string)
      modifies this
      ensures Value() == WithAttribute(old(Value()), name, value)
    {
      attributes := attributes[name := value];
    }

    /** The `SetSubNode("Default", value)` extension: set or replace the `Default` sub-node. */
    method SetDefaultSubNode(value: string)
      modifies this
      ensures Value() == old(Value()).(defaultNode := Some(value))
    {
      defaultNode := Some(value);
    }
  }
}

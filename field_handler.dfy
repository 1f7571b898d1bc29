/**
 * The client-side field model handler: find a field by Id under a site or a
 * list, create it from a schema built out of the definition when it is
 * missing, and copy the definition's properties onto it.
 */
module FieldHandler {
  import opened Wrappers
  import opened Text
  import opened Guids
  import opened FieldXml
  import opened Definitions
  import opened Remote

  // ---------------------------------------------------------------------
  // Model hosts
  // ---------------------------------------------------------------------

  /** The hosts the handler accepts. */
  predicate IsFieldHost(host: ModelHost) {
    host.SiteModelHost? || host.ListModelHost?
  }

  function ExtractSiteFromHost(host: ModelHost): (r: Option<Site>)
    ensures r.Some? <==> IsFieldHost(host)
    ensures r.Some? ==> r.value == host.hostSite
  {
    if IsFieldHost(host) then Some(host.hostSite) else None
  }

  function ExtractWebFromHost(host: ModelHost): (r: Option<Web>)
    ensures r.Some? <==> IsFieldHost(host)
    ensures r.Some? ==> r.value == host.hostWeb
  {
    if IsFieldHost(host) then Some(host.hostWeb) else None
  }

  function ExtractListFromHost(host: ModelHost): (r: Option<List>)
    ensures r.Some? <==> host.ListModelHost?
    ensures r.Some? ==> r.value == host.hostList
  {
    if host.ListModelHost? then Some(host.hostList) else None
  }

  /** The collection a host's fields are deployed to: the root web's fields, or the list's. */
  function HostFields(host: ModelHost): FieldCollection
    requires IsFieldHost(host)
  {
    if host.SiteModelHost? then host.hostSite.rootWeb.fields else host.hostList.fields
  }

  function HostReads(host: ModelHost): set<FieldCollection>
  {
    if IsFieldHost(host) then {HostFields(host)} else {}
  }

  /** What a deployment under `host` may change: the target collection and its fields. */
  function Footprint(host: ModelHost): set<object>
    reads HostReads(host)
  {
    if IsFieldHost(host) then {HostFields(host) as object} + set f | f in HostFields(host).fields.Values :: f as object
    else {}
  }

  // ---------------------------------------------------------------------
  // Probes: a fault during the probe reads as "not found"
  // ---------------------------------------------------------------------

  function FindExistingSiteField(host: ModelHost, d: FieldDefinition, fault: bool): (r: Option<Field>)
    requires host.SiteModelHost?
    reads host.hostSite.rootWeb.fields
    ensures r.Some? <==> !fault && d.id in host.hostSite.rootWeb.fields.fields
    ensures r.Some? ==> r.value == host.hostSite.rootWeb.fields.fields[d.id]
  {
    host.hostSite.rootWeb.fields.GetById(d.id, fault)
  }

  function FindExistingListField(list: List, d: FieldDefinition, fault: bool): (r: Option<Field>)
    reads list.fields
    ensures r.Some? <==> !fault && d.id in list.fields.fields
    ensures r.Some? ==> r.value == list.fields.fields[d.id]
  {
    list.fields.GetById(d.id, fault)
  }

  /** `FindField`: the probe for the host's kind; any other host is not supported. */
  function FindField(host: ModelHost, d: FieldDefinition, fault: bool): (r: Result<Option<Field>, Fault>)
    reads HostReads(host)
    ensures !IsFieldHost(host) ==> r == Failure(NotSupported)
    ensures IsFieldHost(host) ==> r.Success?
    ensures IsFieldHost(host) ==> (r.value.Some? <==> !fault && d.id in HostFields(host).fields)
    ensures IsFieldHost(host) && r.value.Some? ==> r.value.value == HostFields(host).fields[d.id]
  {
    if host.SiteModelHost? then Success(FindExistingSiteField(host, d, fault))
    else if host.ListModelHost? then Success(FindExistingListField(host.hostList, d, fault))
    else Failure(NotSupported)
  }

  // ---------------------------------------------------------------------
  // The field schema
  // ---------------------------------------------------------------------

  /** `GetNewMinimalSPFieldTemplate`: a `Field` element with the seven required attributes, all empty. */
  function GetNewMinimalSPFieldTemplate(): (r: FieldXml)
    ensures r.attributes.Keys == {ID, StaticName, DisplayName, Title, Name, Type, Group}
    ensures forall n :: n in r.attributes ==> r.attributes[n] == ""
    ensures r.defaultNode.None?
  {
    FieldXml(map[ID := "", StaticName := "", DisplayName := "", Title := "", Name := "", Type := "", Group := ""],
             None)
  }

  /** The element the schema starts from: the parsed `RawXml` if there is one, else the minimal template. */
  function StartTemplate(d: FieldDefinition): FieldXml
  {
    if d.rawXml.Some? then d.rawXml.value else GetNewMinimalSPFieldTemplate()
  }

  /** `name` is where it was in `x`, with the same value. */
  predicate Kept(x: FieldXml, r: FieldXml, name: string)
  {
    (name in r.attributes <==> name in x.attributes) &&
    (name in x.attributes ==> r.attributes[name] == x.attributes[name])
  }

  /** `name` is set to `value`, or kept when there is no value. */
  predicate SetOrKept(x: FieldXml, r: FieldXml, name: string, value: Option<string>)
  {
    if value.Some? then name in r.attributes && r.attributes[name] == value.value else Kept(x, r, name)
  }

  function UpperOpt(b: Option<bool>): (r: Option<string>)
    ensures r.Some? <==> b.Some?
    ensures r.Some? ==> r.value == UpperBool(b.value)
  {
    if b.Some? then Some(UpperBool(b.value)) else None
  }

  function WithOptional(x: FieldXml, name: string, value: Option<string>): (r: FieldXml)
    ensures SetOrKept(x, r, name, value)
    ensures forall n :: n != name ==> Kept(x, r, n)
    ensures r.defaultNode == x.defaultNode
  {
    if value.Some? then WithAttribute(x, name, value.value) else x
  }

  // ProcessSPFieldXElement, in the order it sets things, cut into stages.

  /** The minimal set: identity, names, type and group. */
  function IdentityStage(x: FieldXml, d: FieldDefinition): (r: FieldXml)
    ensures ID in r.attributes && r.attributes[ID] == FormatB(d.id)
    ensures StaticName in r.attributes && r.attributes[StaticName] == d.internalName
    ensures DisplayName in r.attributes && r.attributes[DisplayName] == d.title
    ensures Title in r.attributes && r.attributes[Title] == d.title
    ensures Name in r.attributes && r.attributes[Name] == d.internalName
    ensures Type in r.attributes && r.attributes[Type] == d.fieldType
    ensures Group in r.attributes && r.attributes[Group] == OrEmpty(d.group)
    ensures forall n :: n !in {ID, StaticName, DisplayName, Title, Name, Type, Group} ==> Kept(x, r, n)
    ensures r.defaultNode == x.defaultNode
  {
    x.(attributes := x.attributes[ID := FormatB(d.id)][StaticName := d.internalName][DisplayName := d.title]
                                 [Title := d.title][Name := d.internalName][Type := d.fieldType]
                                 [Group := OrEmpty(d.group)])
  }

  /** JSLink and the `Default` sub-node when non-empty, then `Hidden`. */
  function AdditionsStage(x: FieldXml, d: FieldDefinition): (r: FieldXml)
    ensures SetOrKept(x, r, JSLink, if IsNullOrEmpty(d.jsLink) then None else d.jsLink)
    ensures Hidden in r.attributes && r.attributes[Hidden] == UpperBool(d.hidden)
    ensures forall n :: n !in {JSLink, Hidden} ==> Kept(x, r, n)
    ensures r.defaultNode == if IsNullOrEmpty(d.defaultValue) then x.defaultNode else d.defaultValue
  {
    var a := WithOptional(x, JSLink, if IsNullOrEmpty(d.jsLink) then None else d.jsLink);
    var b := if IsNullOrEmpty(d.defaultValue) then a else a.(defaultNode := d.defaultValue);
    WithAttribute(b, Hidden, UpperBool(d.hidden))
  }

  /** `ShowInDisplayForm`, `ShowInEditForm`, `ShowInListSettings`, when they have values. */
  function FormsStage(x: FieldXml, d: FieldDefinition): (r: FieldXml)
    ensures SetOrKept(x, r, ShowInDisplayForm, UpperOpt(d.showInDisplayForm))
    ensures SetOrKept(x, r, ShowInEditForm, UpperOpt(d.showInEditForm))
    ensures SetOrKept(x, r, ShowInListSettings, UpperOpt(d.showInListSettings))
    ensures forall n :: n !in {ShowInDisplayForm, ShowInEditForm, ShowInListSettings} ==> Kept(x, r, n)
    ensures r.defaultNode == x.defaultNode
  {
    var a := WithOptional(x, ShowInDisplayForm, UpperOpt(d.showInDisplayForm));
    var b := WithOptional(a, ShowInEditForm, UpperOpt(d.showInEditForm));
    WithOptional(b, ShowInListSettings, UpperOpt(d.showInListSettings))
  }

  /** `ShowInNewForm`, `ShowInVersionHistory`, `ShowInViewForms`, when they have values. */
  function ViewsStage(x: FieldXml, d: FieldDefinition): (r: FieldXml)
    ensures SetOrKept(x, r, ShowInNewForm, UpperOpt(d.showInNewForm))
    ensures SetOrKept(x, r, ShowInVersionHistory, UpperOpt(d.showInVersionHistory))
    ensures SetOrKept(x, r, ShowInViewForms, UpperOpt(d.showInViewForms))
    ensures forall n :: n !in {ShowInNewForm, ShowInVersionHistory, ShowInViewForms} ==> Kept(x, r, n)
    ensures r.defaultNode == x.defaultNode
  {
    var a := WithOptional(x, ShowInNewForm, UpperOpt(d.showInNewForm));
    var b := WithOptional(a, ShowInVersionHistory, UpperOpt(d.showInVersionHistory));
    WithOptional(b, ShowInViewForms, UpperOpt(d.showInViewForms))
  }

  /** `AllowDeletion` when it has a value, then `Indexed`. */
  function MiscStage(x: FieldXml, d: FieldDefinition): (r: FieldXml)
    ensures SetOrKept(x, r, AllowDeletion, UpperOpt(d.allowDeletion))
    ensures Indexed in r.attributes && r.attributes[Indexed] == UpperBool(d.indexed)
    ensures forall n :: n !in {AllowDeletion, Indexed} ==> Kept(x, r, n)
    ensures r.defaultNode == x.defaultNode
  {
    WithAttribute(WithOptional(x, AllowDeletion, UpperOpt(d.allowDeletion)), Indexed, UpperBool(d.indexed))
  }

  /** The element after `ProcessSPFieldXElement`. */
  function ProcessedSchema(x: FieldXml, d: FieldDefinition): FieldXml
  {
    MiscStage(ViewsStage(FormsStage(AdditionsStage(IdentityStage(x, d), d), d), d), d)
  }

  /** Apply the additional attributes in order. */
  function WithAttributes(x: FieldXml, attrs: seq<FieldAttributeValue>): FieldXml
  {
    if attrs == [] then x
    else
      var last := attrs[|attrs| - 1];
      WithAttribute(WithAttributes(x, attrs[..|attrs| - 1]), last.name, last.value)
  }

  /** The schema `GetTargetSPFieldXmlDefinition` builds for a definition. */
  function TargetSchema(d: FieldDefinition): FieldXml
  {
    WithAttributes(ProcessedSchema(StartTemplate(d), d), d.additionalAttributes)
  }

  /** `ProcessSPFieldXElement`: the chain of `SetAttribute` calls on the element, stage by stage. */
  method ProcessSPFieldXElement(t: XElement, d: FieldDefinition)
    modifies t
    ensures t.Value() == ProcessedSchema(old(t.Value()), d)
  {
    SetIdentity(t, d);
    SetAdditions(t, d);
    SetForms(t, d);
    SetViews(t, d);
    SetMisc(t, d);
  }

  method SetIdentity(t: XElement, d: FieldDefinition)
    modifies t
    ensures t.Value() == IdentityStage(old(t.Value()), d)
  {
    t.SetAttribute(ID, FormatB(d.id));
    t.SetAttribute(StaticName, d.internalName);
    t.SetAttribute(DisplayName, d.title);
    t.SetAttribute(Title, d.title);
    t.SetAttribute(Name, d.internalName);
    t.SetAttribute(Type, d.fieldType);
    t.SetAttribute(Group, OrEmpty(d.group));
  }

  method SetAdditions(t: XElement, d: FieldDefinition)
    modifies t
    ensures t.Value() == AdditionsStage(old(t.Value()), d)
  {
    if !IsNullOrEmpty(d.jsLink) {
      t.SetAttribute(JSLink, d.jsLink.value);
    }
    if !IsNullOrEmpty(d.defaultValue) {
      t.SetDefaultSubNode(d.defaultValue.value);
    }
    t.SetAttribute(Hidden, UpperBool(d.hidden));
  }

  method SetForms(t: XElement, d: FieldDefinition)
    modifies t
    ensures t.Value() == FormsStage(old(t.Value()), d)
  {
    if d.showInDisplayForm.Some? {
      t.SetAttribute(ShowInDisplayForm, UpperBool(d.showInDisplayForm.value));
    }
    if d.showInEditForm.Some? {
      t.SetAttribute(ShowInEditForm, UpperBool(d.showInEditForm.value));
    }
    if d.showInListSettings.Some? {
      t.SetAttribute(ShowInListSettings, UpperBool(d.showInListSettings.value));
    }
  }

  method SetViews(t: XElement, d: FieldDefinition)
    modifies t
    ensures t.Value() == ViewsStage(old(t.Value()), d)
  {
    if d.showInNewForm.Some? {
      t.SetAttribute(ShowInNewForm, UpperBool(d.showInNewForm.value));
    }
    if d.showInVersionHistory.Some? {
      t.SetAttribute(ShowInVersionHistory, UpperBool(d.showInVersionHistory.value));
    }
    if d.showInViewForms.Some? {
      t.SetAttribute(ShowInViewForms, UpperBool(d.showInViewForms.value));
    }
  }

  method SetMisc(t: XElement, d: FieldDefinition)
    modifies t
    ensures t.Value() == MiscStage(old(t.Value()), d)
  {
    if d.allowDeletion.Some? {
      t.SetAttribute(AllowDeletion, UpperBool(d.allowDeletion.value));
    }
    t.SetAttribute(Indexed, UpperBool(d.indexed));
  }

  /** The `foreach` over the additional attributes, each set in turn. */
  method SetAdditionalAttributes(t: XElement, attrs: seq<FieldAttributeValue>)
    modifies t
    ensures t.Value() == WithAttributes(old(t.Value()), attrs)
  {
    ghost var start := t.Value();
    var i := 0;
    while i < |attrs|
      invariant 0 <= i <= |attrs|
      invariant t.Value() == WithAttributes(start, attrs[..i])
    {
      assert attrs[..i + 1][..i] == attrs[..i];
      t.SetAttribute(attrs[i].name, attrs[i].value);
      i := i + 1;
    }
    assert attrs[..i] == attrs;
  }

  /** `GetTargetSPFieldXmlDefinition`, up to the final serialisation of the element. */
  method GetTargetSPFieldXmlDefinition(d: FieldDefinition) returns (r: FieldXml)
    ensures r == TargetSchema(d)
  {
    var t := new XElement(GetNewMinimalSPFieldTemplate());
    if d.rawXml.Some? {
      t := new XElement(d.rawXml.value);
    }
    ProcessSPFieldXElement(t, d);
    SetAdditionalAttributes(t, d.additionalAttributes);
    r := t.Value();
  }

  // ---------------------------------------------------------------------
  // Properties
  // ---------------------------------------------------------------------

  /**
   * `ProcessFieldProperties` on a field's value: title, description, group,
   * required, indexed and JSLink always follow the definition (an unset
   * description or group becomes ""); the validation message and formula and
   * the default value follow it only when it has a non-empty one.
   */
  function SyncedProperties(p: FieldProps, d: FieldDefinition): (r: FieldProps)
    ensures r.schemaXml == p.schemaXml
    ensures r.title == Some(d.title)
    ensures r.description == Some(OrEmpty(d.description)) && r.group == Some(OrEmpty(d.group))
    ensures r.required == d.required && r.indexed == d.indexed && r.jsLink == d.jsLink
    ensures r.validationMessage == (if IsNullOrEmpty(d.validationMessage) then p.validationMessage else d.validationMessage)
    ensures r.validationFormula == (if IsNullOrEmpty(d.validationFormula) then p.validationFormula else d.validationFormula)
    ensures r.defaultValue == (if IsNullOrEmpty(d.defaultValue) then p.defaultValue else d.defaultValue)
  {
    p.(title := Some(d.title),
       description := Some(OrEmpty(d.description)),
       group := Some(OrEmpty(d.group)),
       required := d.required,
       validationMessage := if IsNullOrEmpty(d.validationMessage) then p.validationMessage else d.validationMessage,
       validationFormula := if IsNullOrEmpty(d.validationFormula) then p.validationFormula else d.validationFormula,
       defaultValue := if IsNullOrEmpty(d.defaultValue) then p.defaultValue else d.defaultValue,
       indexed := d.indexed,
       jsLink := d.jsLink)
  }

  method ProcessFieldProperties(f: Field, d: FieldDefinition)
    modifies f
    ensures f.Props() == SyncedProperties(old(f.Props()), d)
  {
    SyncNames(f, d);
    SyncValues(f, d);
  }

  /** Title, description, group and required: always written. */
  method SyncNames(f: Field, d: FieldDefinition)
    modifies f
    ensures f.Props() == old(f.Props()).(title := Some(d.title), description := Some(OrEmpty(d.description)),
                                         group := Some(OrEmpty(d.group)), required := d.required)
  {
    f.title := Some(d.title);
    f.description := Some(OrEmpty(d.description));
    f.group := Some(OrEmpty(d.group));
    f.required := d.required;
  }

  /** Validation and default only when non-empty; then indexed and JSLink. */
  method SyncValues(f: Field, d: FieldDefinition)
    modifies f
    ensures var p := old(f.Props());
      f.Props() == p.(validationMessage := if IsNullOrEmpty(d.validationMessage) then p.validationMessage else d.validationMessage,
                      validationFormula := if IsNullOrEmpty(d.validationFormula) then p.validationFormula else d.validationFormula,
                      defaultValue := if IsNullOrEmpty(d.defaultValue) then p.defaultValue else d.defaultValue,
                      indexed := d.indexed, jsLink := d.jsLink)
  {
    if !IsNullOrEmpty(d.validationMessage) {
      f.validationMessage := d.validationMessage;
    }
    if !IsNullOrEmpty(d.validationFormula) {
      f.validationFormula := d.validationFormula;
    }
    if !IsNullOrEmpty(d.defaultValue) {
      f.defaultValue := d.defaultValue;
    }
    f.indexed := d.indexed;
    f.jsLink := d.jsLink;
  }

  // ---------------------------------------------------------------------
  // The store-level specification of a deployment
  // ---------------------------------------------------------------------

  /** The store with the field under `k` synced to `d`, every other field as it was. */
  function SyncedAt(store: map<Guid, FieldProps>, k: Guid, d: FieldDefinition): (r: map<Guid, FieldProps>)
    requires k in store
    ensures r.Keys == store.Keys && r[k] == SyncedProperties(store[k], d)
    ensures forall g :: g in store && g != k ==> r[g] == store[g]
  {
    store[k := SyncedProperties(store[k], d)]
  }

  /**
   * `EnsureField` on the store's value: a field that was found gets its
   * properties synced in place; otherwise a field is added from the target
   * schema and then synced. The result carries the key of the field and the
   * new store.
   */
  function EnsuredStore(store: map<Guid, FieldProps>, found: bool, d: FieldDefinition)
    : (r: Result<(Guid, map<Guid, FieldProps>), Fault>)
    requires found ==> d.id in store
    ensures found ==> r.Success? && r.value.0 == d.id && r.value.1.Keys == store.Keys
    ensures found ==> r.value.1[d.id] == SyncedProperties(store[d.id], d)
    ensures !found ==> (r.Failure? <==> AddedAsXml(store, TargetSchema(d)).Failure?)
    ensures !found && r.Failure? ==> r.error == AddedAsXml(store, TargetSchema(d)).error
    ensures !found && r.Success? ==>
              r.value.0 == SchemaId(TargetSchema(d)).value && r.value.0 !in store &&
              r.value.1.Keys == store.Keys + {r.value.0} &&
              r.value.1[r.value.0] == SyncedProperties(PropsFromSchema(TargetSchema(d)), d)
    ensures r.Success? ==> forall g :: g in store && g != r.value.0 ==> r.value.1[g] == store[g]
  {
    if found then Success((d.id, SyncedAt(store, d.id, d)))
    else
      match AddedAsXml(store, TargetSchema(d))
      case Failure(e) => Failure(e)
      case Success((k, added)) => Success((k, SyncedAt(added, k, d)))
  }

  /**
   * One deployment of `d` to a collection whose value is `store`: the
   * guarded probe (which a network fault, `probeFault`, turns into "not
   * found"), then `EnsureField`.
   */
  function Reconcile(store: map<Guid, FieldProps>, d: FieldDefinition, probeFault: bool)
    : (r: Result<(Guid, map<Guid, FieldProps>), Fault>)
    ensures !probeFault && d.id in store ==> r.Success? && r.value.0 == d.id && r.value.1.Keys == store.Keys
    ensures r.Success? ==> r.value.0 in r.value.1 && store.Keys <= r.value.1.Keys
    ensures r.Success? ==> forall g :: g in store && g != r.value.0 ==> r.value.1[g] == store[g]
  {
    EnsuredStore(store, !probeFault && d.id in store, d)
  }

  // ---------------------------------------------------------------------
  // EnsureField and the two deployment paths
  // ---------------------------------------------------------------------

  /** Syncing one field of a valid collection leaves every other field's value alone. */
  method SyncCollectionField(coll: FieldCollection, f: Field, d: FieldDefinition)
    requires coll.Valid() && f.id in coll.fields && coll.fields[f.id] == f
    modifies f
    ensures f.id in old(coll.Snapshot()) && coll.Snapshot() == SyncedAt(old(coll.Snapshot()), f.id, d)
  {
    ghost var before := coll.Snapshot();
    ProcessFieldProperties(f, d);
    forall g | g in coll.fields && g != f.id
      ensures coll.fields[g].Props() == before[g]
    {
      assert coll.fields[g].id == g;
      assert coll.fields[g] != f;
    }
    assert coll.Snapshot() == before[f.id := f.Props()];
  }

  /** `GetTargetSPFieldXmlDefinition` seen from a collection: building the schema touches no field. */
  method BuildSchema(d: FieldDefinition, ghost coll: FieldCollection) returns (schema: FieldXml)
    ensures schema == TargetSchema(d)
    ensures coll.Snapshot() == old(coll.Snapshot()) && coll.Valid() == old(coll.Valid())
  {
    schema := GetTargetSPFieldXmlDefinition(d);
  }

  /** `AddFieldAsXml` with a schema, then the sync of the new field. */
  method AddSynced(coll: FieldCollection, schema: FieldXml, d: FieldDefinition) returns (r: Result<Field, Fault>)
    requires coll.Valid()
    modifies coll
    ensures coll.Valid()
    ensures match AddedAsXml(old(coll.Snapshot()), schema)
            case Failure(e) => r == Failure(e)
            case Success((k, added)) => r.Success? && r.value.id == k && coll.Snapshot() == SyncedAt(added, k, d)
    ensures r.Success? ==> fresh(r.value) && coll.fields == old(coll.fields)[r.value.id := r.value]
    ensures r.Failure? ==> coll.fields == old(coll.fields) && coll.Snapshot() == old(coll.Snapshot())
  {
    r := coll.AddFieldAsXml(schema, d.addToDefaultView, d.addFieldOptions);
    if r.Success? {
      SyncCollectionField(coll, r.value, d);
    }
  }

  /** The create path of `EnsureField`: add a field from the target schema, then sync it. */
  method EnsureNewField(coll: FieldCollection, d: FieldDefinition) returns (r: Result<Field, Fault>)
    requires coll.Valid()
    modifies coll
    ensures coll.Valid()
    ensures EnsuredStore(old(coll.Snapshot()), false, d) ==
            if r.Success? then Success((r.value.id, coll.Snapshot())) else Failure(r.error)
    ensures r.Success? ==> fresh(r.value) && coll.fields == old(coll.fields)[r.value.id := r.value]
    ensures r.Failure? ==> coll.fields == old(coll.fields) && coll.Snapshot() == old(coll.Snapshot())
  {
    var schema := BuildSchema(d, coll);
    r := AddSynced(coll, schema, d);
  }

  /** `EnsureField`: sync the field that was found, or add one from the target schema and sync it. */
  method EnsureField(current: Option<Field>, coll: FieldCollection, d: FieldDefinition) returns (r: Result<Field, Fault>)
    requires coll.Valid()
    requires current.Some? ==> d.id in coll.fields && coll.fields[d.id] == current.value
    modifies coll, coll.fields.Values
    ensures coll.Valid()
    ensures EnsuredStore(old(coll.Snapshot()), current.Some?, d) ==
            if r.Success? then Success((r.value.id, coll.Snapshot())) else Failure(r.error)
    ensures current.Some? ==> r == Success(current.value) && coll.fields == old(coll.fields)
    ensures current.None? && r.Success? ==> fresh(r.value) && coll.fields == old(coll.fields)[r.value.id := r.value]
    ensures r.Failure? ==> coll.fields == old(coll.fields) && coll.Snapshot() == old(coll.Snapshot())
  {
    if current.None? {
      r := EnsureNewField(coll, d);
    } else {
      assert coll.fields[d.id].id == d.id;
      SyncCollectionField(coll, current.value, d);
      r := Success(current.value);
    }
  }

  /** `DeploySiteField`: probe the root web's fields, then `EnsureField` there. */
  method DeploySiteField(host: ModelHost, d: FieldDefinition, probeFault: bool) returns (r: Result<Field, Fault>)
    requires host.SiteModelHost? && HostFields(host).Valid()
    modifies Footprint(host)
    ensures HostFields(host).Valid()
    ensures Reconcile(old(HostFields(host).Snapshot()), d, probeFault) ==
            if r.Success? then Success((r.value.id, HostFields(host).Snapshot())) else Failure(r.error)
    ensures r.Failure? ==> HostFields(host).Snapshot() == old(HostFields(host).Snapshot())
  {
    var field := FindExistingSiteField(host, d, probeFault);
    r := EnsureField(field, host.hostSite.rootWeb.fields, d);
  }

  /** `DeployListField`: the guarded probe of the list's fields, then `EnsureField` there. */
  method DeployListField(host: ModelHost, d: FieldDefinition, probeFault: bool) returns (r: Result<Field, Fault>)
    requires host.ListModelHost? && HostFields(host).Valid()
    modifies Footprint(host)
    ensures HostFields(host).Valid()
    ensures Reconcile(old(HostFields(host).Snapshot()), d, probeFault) ==
            if r.Success? then Success((r.value.id, HostFields(host).Snapshot())) else Failure(r.error)
    ensures r.Failure? ==> HostFields(host).Snapshot() == old(HostFields(host).Snapshot())
  {
    var field := host.hostList.fields.GetById(d.id, probeFault);
    r := EnsureField(field, host.hostList.fields, d);
  }

  // ---------------------------------------------------------------------
  // The handler
  // ---------------------------------------------------------------------

  class FieldModelHandler {
    /** The host of the last deployment when it was a site host. */
    var currentSiteModelHost: Option<ModelHost>
    var hostSite: Option<Site>
    var hostWeb: Option<Web>
    /** The model events raised so far, in order. */
    var events: seq<ModelEvent>

    constructor ()
      ensures currentSiteModelHost.None? && hostSite.None? && hostWeb.None? && events == []
    {
      currentSiteModelHost, hostSite, hostWeb, events := None, None, None, [];
    }

    /** The host fields `DeployModel` sets first. */
    method Remember(host: ModelHost)
      requires IsFieldHost(host)
      modifies this`currentSiteModelHost, this`hostSite, this`hostWeb
      ensures HostFields(host).Snapshot() == old(HostFields(host).Snapshot())
      ensures HostFields(host).Valid() == old(HostFields(host).Valid())
      ensures currentSiteModelHost == (if host.SiteModelHost? then Some(host) else None)
      ensures hostSite == ExtractSiteFromHost(host) && hostWeb == ExtractWebFromHost(host)
    {
      currentSiteModelHost := if host.SiteModelHost? then Some(host) else None;
      hostSite := ExtractSiteFromHost(host);
      hostWeb := ExtractWebFromHost(host);
    }

    method Raise(es: seq<ModelEvent>, ghost coll: FieldCollection)
      modifies this`events
      ensures events == old(events) + es
      ensures coll.Snapshot() == old(coll.Snapshot()) && coll.Valid() == old(coll.Valid())
    {
      events := events + es;
    }

    /**
     * `DeployModel`: refuse a host that is neither a site nor a list host;
     * otherwise remember the host, raise `OnProvisioning` and `OnUpdating`
     * (with no field yet), deploy to the site or the list, and raise
     * `OnProvisioned` and `OnUpdated` with the field.
     */
    method DeployModel(host: ModelHost, d: FieldDefinition, probeFault: bool) returns (r: Result<Field, Fault>)
      requires IsFieldHost(host) ==> HostFields(host).Valid()
      modifies this, Footprint(host)
      ensures !IsFieldHost(host) ==> r == Failure(InvalidHost) && unchanged(this)
      ensures IsFieldHost(host) ==>
                currentSiteModelHost == (if host.SiteModelHost? then Some(host) else None) &&
                hostSite == ExtractSiteFromHost(host) && hostWeb == ExtractWebFromHost(host)
      ensures IsFieldHost(host) ==>
                events == old(events) + [ModelEvent(OnProvisioning, None), ModelEvent(OnUpdating, None)] +
                          (if r.Success? then [ModelEvent(OnProvisioned, Some(r.value)), ModelEvent(OnUpdated, Some(r.value))]
                           else [])
      ensures IsFieldHost(host) ==> HostFields(host).Valid()
      ensures IsFieldHost(host) ==>
                Reconcile(old(HostFields(host).Snapshot()), d, probeFault) ==
                if r.Success? then Success((r.value.id, HostFields(host).Snapshot())) else Failure(r.error)
      ensures IsFieldHost(host) && r.Failure? ==> HostFields(host).Snapshot() == old(HostFields(host).Snapshot())
    {
      if !IsFieldHost(host) {
        return Failure(InvalidHost);
      }
      Remember(host);
      Raise([ModelEvent(OnProvisioning, None), ModelEvent(OnUpdating, None)], HostFields(host));
      assert this as object !in Footprint(host);
      if host.SiteModelHost? {
        r := DeploySiteField(host, d, probeFault);
      } else {
        r := DeployListField(host, d, probeFault);
      }
      if r.Success? {
        Raise([ModelEvent(OnProvisioned, Some(r.value)), ModelEvent(OnUpdated, Some(r.value))], HostFields(host));
      }
    }
  }
}

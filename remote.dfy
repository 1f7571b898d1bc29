/**
 * The remote SharePoint store as the client object model shows it, reduced
 * to field collections. Round trips (`Load`, `ExecuteQuery`) are not
 * modelled; a change to a handle is its effect on the store.
 */
module Remote {
  import opened Wrappers
  import opened Text
  import opened Guids
  import opened FieldXml

  /** The properties of a remote field that the handlers read or write. */
  datatype FieldProps = FieldProps(
    schemaXml: FieldXml,
    title: NStr,
    description: NStr,
    group: NStr,
    required: bool,
    validationMessage: NStr,
    validationFormula: NStr,
    defaultValue: NStr,
    indexed: bool,
    jsLink: NStr)

  /** The exceptions a deployment can end with. */
  datatype Fault =
    | InvalidHost       // ArgumentException, or a failed assert-and-cast of the model host
    | NotSupported      // SPMeta2NotSupportedException
    | NullReference     // a member read through a null field handle
    | MalformedSchema   // the server cannot read the ID of a field schema
    | DuplicateField    // the server already holds a field with that ID

  function Attribute(x: FieldXml, name: string): (r: NStr)
    ensures r.Some? <==> name in x.attributes
    ensures r.Some? ==> r.value == x.attributes[name]
  {
    if name in x.attributes then Some(x.attributes[name]) else None
  }

  /**
   * The field the server creates from a schema. The server's own reading of
   * a schema is not part of this model; this is the plain reading of the
   * attributes the handlers write.
   */
  function PropsFromSchema(x: FieldXml): (p: FieldProps)
    ensures p.schemaXml == x && p.defaultValue == x.defaultNode
    ensures p.validationMessage.None? && p.validationFormula.None?
  {
    FieldProps(x, Attribute(x, Title), Attribute(x, Description), Attribute(x, Group),
               Attribute(x, Required) == Some("TRUE"), None, None, x.defaultNode,
               Attribute(x, Indexed) == Some("TRUE"), Attribute(x, JSLink))
  }

  /** The Id a schema gives the field created from it: its `ID` attribute, read back. */
  function SchemaId(x: FieldXml): (r: Option<Guid>)
    ensures r.Some? ==> ID in x.attributes && x.attributes[ID] == FormatB(r.value)
  {
    if ID in x.attributes then
      var g := ParseB(x.attributes[ID]);
      if g.Some? then FormatParseB(x.attributes[ID]); g else None
    else None
  }

  lemma SchemaIdOfFormatB(x: FieldXml, g: Guid)
    requires ID in x.attributes && x.attributes[ID] == FormatB(g)
    ensures SchemaId(x) == Some(g)
  {
    ParseFormatB(g);
  }

  /**
   * `FieldCollection.AddFieldAsXml` on the store's value: one new field,
   * keyed by the schema's Id; refused when the Id is unreadable or taken.
   */
  function AddedAsXml(store: map<Guid, FieldProps>, x: FieldXml): (r: Result<(Guid, map<Guid, FieldProps>), Fault>)
    ensures r.Failure? <==> SchemaId(x).None? || SchemaId(x).value in store
    ensures SchemaId(x).None? ==> r == Failure(MalformedSchema)
    ensures r.Success? ==> r.value.0 == SchemaId(x).value && r.value.0 !in store
    ensures r.Success? ==> r.value.1.Keys == store.Keys + {r.value.0}
    ensures r.Success? ==> r.value.1[r.value.0] == PropsFromSchema(x)
    ensures r.Success? ==> forall g :: g in store ==> r.value.1[g] == store[g]
  {
    match SchemaId(x)
    case None => Failure(MalformedSchema)
    case Some(g) => if g in store then Failure(DuplicateField) else Success((g, store[g := PropsFromSchema(x)]))
  }

  /** `FieldCollection.Add(field)` on the store's value: a copy of `p` under `id`; refused when `id` is taken. */
  function AddedCopy(store: map<Guid, FieldProps>, id: Guid, p: FieldProps): (r: Result<map<Guid, FieldProps>, Fault>)
    ensures r.Failure? <==> id in store
    ensures r.Success? ==> r.value.Keys == store.Keys + {id} && r.value[id] == p
    ensures r.Success? ==> forall g :: g in store ==> r.value[g] == store[g]
  {
    if id in store then Failure(DuplicateField) else Success(store[id := p])
  }

  /** A field handle. Its Id never changes. */
  class Field {
    const id: Guid
    var schemaXml: FieldXml
    var title: NStr
    var description: NStr
    var group: NStr
    var required: bool
    var validationMessage: NStr
    var validationFormula: NStr
    var defaultValue: NStr
    var indexed: bool
    var jsLink: NStr

    function Props(): FieldProps
      reads this
    {
      FieldProps(schemaXml, title, description, group, required, validationMessage,
                 validationFormula, defaultValue, indexed, jsLink)
    }

    constructor (id: Guid, p: FieldProps)
      ensures this.id == id && Props() == p
    {
      this.id := id;
      schemaXml, title, description, group := p.schemaXml, p.title, p.description, p.group;
      required, validationMessage, validationFormula := p.required, p.validationMessage, p.validationFormula;
      defaultValue, indexed, jsLink := p.defaultValue, p.indexed, p.jsLink;
    }
  }

  /** A remote field collection (`Web.Fields`, `Web.AvailableFields`, `List.Fields`). */
  class FieldCollection {
    var fields: map<Guid, Field>

    /** Every field sits under its own Id, so no Id has two fields. */
    ghost predicate Valid()
      reads this
    {
      forall g :: g in fields ==> fields[g].id == g
    }

    /** The store's value: the properties of each field, by Id. */
    ghost function Snapshot(): map<Guid, FieldProps>
      reads this, fields.Values
    {
      map g | g in fields :: fields[g].Props()
    }

    constructor ()
      ensures fields == map[]
    {
      fields := map[];
    }

    /**
     * `GetById` run inside a guarded probe: a fault, whether the field is
     * missing or the network failed (`fault`), reads as "not found".
     */
    function GetById(id: Guid, fault: bool): (r: Option<Field>)
      reads this
      ensures r.Some? <==> !fault && id in fields
      ensures r.Some? ==> r.value == fields[id]
    {
      if !fault && id in fields then Some(fields[id]) else None
    }

    method AddFieldAsXml(schemaXml: FieldXml, addToDefaultView: bool, options: int) returns (r: Result<Field, Fault>)
      requires Valid()
      modifies this
      ensures Valid()
      ensures AddedAsXml(old(Snapshot()), schemaXml) ==
              if r.Success? then Success((r.value.id, Snapshot())) else Failure(r.error)
      ensures r.Success? ==> fresh(r.value) && fields == old(fields)[r.value.id := r.value]
      ensures r.Failure? ==> fields == old(fields)
    {
      ghost var before := Snapshot();
      var key := SchemaId(schemaXml);
      if key.None? {
        return Failure(MalformedSchema);
      }
      if key.value in fields {
        return Failure(DuplicateField);
      }
      var f := new Field(key.value, PropsFromSchema(schemaXml));
      fields := fields[key.value := f];
      r := Success(f);
      assert Snapshot() == before[key.value := f.Props()];
    }

    method Add(source: Field) returns (r: Result<Field, Fault>)
      requires Valid()
      modifies this
      ensures Valid()
      ensures AddedCopy(old(Snapshot()), source.id, old(source.Props())) ==
              if r.Success? then Success(Snapshot()) else Failure(r.error)
      ensures r.Success? ==> fresh(r.value) && r.value.id == source.id && fields == old(fields)[source.id := r.value]
      ensures r.Failure? ==> fields == old(fields)
    {
      ghost var before := Snapshot();
      if source.id in fields {
        return Failure(DuplicateField);
      }
      var f := new Field(source.id, source.Props());
      fields := fields[source.id := f];
      r := Success(f);
      assert Snapshot() == before[source.id := f.Props()];
    }
  }

  class Web {
    const fields: FieldCollection
    /** The fields of this web and of its parent webs, as the server lists them. */
    const availableFields: FieldCollection

    constructor (fields: FieldCollection, availableFields: FieldCollection)
      ensures this.fields == fields && this.availableFields == availableFields
    {
      this.fields := fields;
      this.availableFields := availableFields;
    }
  }

  class Site {
    const rootWeb: Web

    constructor (rootWeb: Web)
      ensures this.rootWeb == rootWeb
    {
      this.rootWeb := rootWeb;
    }
  }

  class List {
    const fields: FieldCollection
    const parentWeb: Web

    constructor (fields: FieldCollection, parentWeb: Web)
      ensures this.fields == fields && this.parentWeb == parentWeb
    {
      this.fields := fields;
      this.parentWeb := parentWeb;
    }
  }

  /** The model hosts a field handler may meet; every other kind is `OtherModelHost`. */
  datatype ModelHost =
    | SiteModelHost(hostSite: Site, hostWeb: Web)
    | ListModelHost(hostSite: Site, hostWeb: Web, hostList: List)
    | OtherModelHost

  datatype ModelEventType = OnProvisioning | OnProvisioned | OnUpdating | OnUpdated

  /** A raised model event and the field object it carries (`None` is null). */
  datatype ModelEvent = ModelEvent(eventType: ModelEventType, obj: Option<Field>)
}

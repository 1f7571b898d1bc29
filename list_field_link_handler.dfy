/**
 * The client-side list field link handler: make a site field available in a
 * list. A field the list already has is left alone; otherwise the site field
 * is looked up among the parent web's available fields and added to the
 * list, from its schema or as a copy.
 */
module ListFieldLinkHandler {
  import opened Wrappers
  import opened Guids
  import opened Definitions
  import opened Remote

  /**
   * What the guarded probe of the list leaves behind: the handle `tmp`
   * (`None` when the probe threw) and its `ServerObjectIsNull` flag
   * (`None` when the server never answered for it).
   */
  datatype ListFieldProbe = ListFieldProbe(tmp: Option<Field>, serverObjectIsNull: Option<bool>)

  /** The probe of the list's fields by Id; a fault reads as "not found". */
  function ProbeListField(coll: FieldCollection, id: Guid, fault: bool): (r: ListFieldProbe)
    reads coll
    ensures r.tmp.Some? <==> !fault && id in coll.fields
    ensures r.tmp.Some? ==> r.tmp.value == coll.fields[id] && r.serverObjectIsNull == Some(false)
    ensures r.tmp.None? ==> r.serverObjectIsNull.None?
  {
    match coll.GetById(id, fault)
    case Some(f) => ListFieldProbe(Some(f), Some(false))
    case None => ListFieldProbe(None, None)
  }

  /** The `finally` block: a field exists only if the probe returned it and the server says it is not null. */
  function ExistingListField(p: ListFieldProbe): (r: Option<Field>)
    ensures r.Some? <==> p.tmp.Some? && p.serverObjectIsNull == Some(false)
    ensures r.Some? ==> r.value == p.tmp.value
  {
    if p.tmp.Some? && p.serverObjectIsNull == Some(false) then p.tmp else None
  }

  /** `FindExistingSiteField`: the guarded probe of the web's available fields. */
  function FindExistingSiteField(web: Web, id: Guid, fault: bool): (r: Option<Field>)
    reads web.availableFields
    ensures r.Some? <==> !fault && id in web.availableFields.fields
    ensures r.Some? ==> r.value == web.availableFields.fields[id]
  {
    web.availableFields.GetById(id, fault)
  }

  /** The add path: from the schema unless the options are the default and the field stays out of the default view. */
  predicate UsesSchemaPath(d: ListFieldLinkDefinition)
  {
    d.addFieldOptions != AddFieldOptionsDefaultValue || d.addToDefaultView
  }

  /**
   * `DeployListFieldLink` on values: `store` is the list's fields, `available`
   * the parent web's available fields. The result carries the key of the
   * list field and the list's new fields.
   */
  function LinkedStore(store: map<Guid, FieldProps>, available: map<Guid, FieldProps>, d: ListFieldLinkDefinition,
                       listFault: bool, siteFault: bool): (r: Result<(Guid, map<Guid, FieldProps>), Fault>)
    ensures !listFault && d.fieldId in store ==> r == Success((d.fieldId, store))
    ensures (listFault || d.fieldId !in store) && (siteFault || d.fieldId !in available) ==> r == Failure(NullReference)
    ensures (listFault || d.fieldId !in store) && !siteFault && d.fieldId in available && UsesSchemaPath(d) ==>
              r == AddedAsXml(store, available[d.fieldId].schemaXml)
    ensures (listFault || d.fieldId !in store) && !siteFault && d.fieldId in available && !UsesSchemaPath(d) ==>
              match AddedCopy(store, d.fieldId, available[d.fieldId])
              case Success(s) => r == Success((d.fieldId, s))
              case Failure(e) => r == Failure(e)
  {
    if !listFault && d.fieldId in store then Success((d.fieldId, store))
    else if siteFault || d.fieldId !in available then Failure(NullReference)
    else if UsesSchemaPath(d) then AddedAsXml(store, available[d.fieldId].schemaXml)
    else
      match AddedCopy(store, d.fieldId, available[d.fieldId])
      case Success(s) => Success((d.fieldId, s))
      case Failure(e) => Failure(e)
  }

  /** The list collection a link under `host` changes. */
  function LinkTarget(host: ModelHost): set<object>
  {
    if host.ListModelHost? then {host.hostList.fields} else {}
  }

  class ListFieldLinkModelHandler {
    /** The model events raised so far, in order. */
    var events: seq<ModelEvent>

    constructor ()
      ensures events == []
    {
      events := [];
    }

    method Raise(e: ModelEvent, ghost coll: FieldCollection)
      modifies this`events
      ensures events == old(events) + [e]
      ensures coll.Snapshot() == old(coll.Snapshot()) && coll.Valid() == old(coll.Valid())
    {
      events := events + [e];
    }

    /**
     * `DeployModel`: only a list host is accepted; then `DeployListFieldLink`.
     * `listFault` and `siteFault` stand for network faults in the two probes.
     */
    method DeployModel(host: ModelHost, d: ListFieldLinkDefinition, listFault: bool, siteFault: bool)
      returns (r: Result<Field, Fault>)
      requires host.ListModelHost? ==> host.hostList.fields.Valid() && host.hostList.parentWeb.availableFields.Valid()
      modifies this, LinkTarget(host)
      ensures !host.ListModelHost? ==> r == Failure(InvalidHost) && unchanged(this)
      ensures host.ListModelHost? ==> host.hostList.fields.Valid()
      ensures host.ListModelHost? ==>
                LinkedStore(old(host.hostList.fields.Snapshot()), old(host.hostList.parentWeb.availableFields.Snapshot()),
                            d, listFault, siteFault) ==
                if r.Success? then Success((r.value.id, host.hostList.fields.Snapshot())) else Failure(r.error)
      ensures host.ListModelHost? ==>
                var existing := old(ExistingListField(ProbeListField(host.hostList.fields, d.fieldId, listFault)));
                events == old(events) + [ModelEvent(OnProvisioning, existing)] +
                          (if r.Success? then [ModelEvent(OnProvisioned, Some(r.value))] else [])
      ensures host.ListModelHost? && !listFault && d.fieldId in old(host.hostList.fields.fields) ==>
                r == Success(old(host.hostList.fields.fields[d.fieldId])) && host.hostList.fields.fields == old(host.hostList.fields.fields)
      ensures host.ListModelHost? && r.Failure? ==>
                host.hostList.fields.fields == old(host.hostList.fields.fields) &&
                host.hostList.fields.Snapshot() == old(host.hostList.fields.Snapshot())
    {
      if !host.ListModelHost? {
        return Failure(InvalidHost);
      }
      r := DeployListFieldLink(host.hostList, d, listFault, siteFault);
    }

    /** `DeployListFieldLink`. */
    method DeployListFieldLink(list: List, d: ListFieldLinkDefinition, listFault: bool, siteFault: bool)
      returns (r: Result<Field, Fault>)
      requires list.fields.Valid() && list.parentWeb.availableFields.Valid()
      modifies this`events, list.fields
      ensures list.fields.Valid()
      ensures LinkedStore(old(list.fields.Snapshot()), old(list.parentWeb.availableFields.Snapshot()), d, listFault, siteFault) ==
              if r.Success? then Success((r.value.id, list.fields.Snapshot())) else Failure(r.error)
      ensures var existing := old(ExistingListField(ProbeListField(list.fields, d.fieldId, listFault)));
              events == old(events) + [ModelEvent(OnProvisioning, existing)] +
                        (if r.Success? then [ModelEvent(OnProvisioned, Some(r.value))] else [])
      ensures !listFault && d.fieldId in old(list.fields.fields) ==>
                r == Success(old(list.fields.fields[d.fieldId])) && list.fields.fields == old(list.fields.fields)
      ensures r.Failure? ==> list.fields.fields == old(list.fields.fields) && list.fields.Snapshot() == old(list.fields.Snapshot())
    {
      var fields := list.fields;
      var tmp := ProbeListField(fields, d.fieldId, listFault);
      var existingListField := ExistingListField(tmp);
      Raise(ModelEvent(OnProvisioning, existingListField), fields);
      if existingListField.None? {
        var siteField := FindExistingSiteField(list.parentWeb, d.fieldId, siteFault);
        if siteField.None? {
          // the new field is read through a null site field
          return Failure(NullReference);
        }
        var listField: Result<Field, Fault>;
        if UsesSchemaPath(d) {
          listField := fields.AddFieldAsXml(siteField.value.schemaXml, d.addToDefaultView, d.addFieldOptions);
        } else {
          listField := fields.Add(siteField.value);
        }
        if listField.Failure? {
          return Failure(listField.error);
        }
        Raise(ModelEvent(OnProvisioned, Some(listField.value)), fields);
        r := listField;
      } else {
        Raise(ModelEvent(OnProvisioned, existingListField), fields);
        r := Success(existingListField.value);
      }
    }
  }
}

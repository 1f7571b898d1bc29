/** What linking a site field into a list promises, over `LinkedStore`. */
module ListFieldLinkLemmas {
  import opened Wrappers
  import opened Guids
  import opened FieldXml
  import opened Definitions
  import opened Remote
  import opened ListFieldLinkHandler

  /** A field the list already has is left alone: nothing is added and nothing changes. */
  lemma LinkExistingChangesNothing(store: map<Guid, FieldProps>, available: map<Guid, FieldProps>,
                                   d: ListFieldLinkDefinition, siteFault: bool)
    requires d.fieldId in store
    ensures LinkedStore(store, available, d, false, siteFault) == Success((d.fieldId, store))
  {
  }

  /**
   * When the list's probe finds nothing, a successful link adds exactly one
   * field, new to the list, and changes no other: the site field's copy, or
   * the field the server reads from the site field's schema.
   */
  lemma LinkAddsExactlyOne(store: map<Guid, FieldProps>, available: map<Guid, FieldProps>,
                           d: ListFieldLinkDefinition, listFault: bool, siteFault: bool)
    requires listFault || d.fieldId !in store
    requires LinkedStore(store, available, d, listFault, siteFault).Success?
    ensures var (k, s) := LinkedStore(store, available, d, listFault, siteFault).value;
      !siteFault && d.fieldId in available &&
      k !in store && s.Keys == store.Keys + {k} &&
      (forall g :: g in store ==> s[g] == store[g]) &&
      s[k] == (if UsesSchemaPath(d) then PropsFromSchema(available[d.fieldId].schemaXml) else available[d.fieldId]) &&
      (!UsesSchemaPath(d) ==> k == d.fieldId)
  {
  }

  /**
   * Linking twice without faults is linking once, provided a schema-path add
   * keeps the site field's Id.
   */
  lemma LinkTwiceIsStable(store: map<Guid, FieldProps>, available: map<Guid, FieldProps>, d: ListFieldLinkDefinition)
    requires UsesSchemaPath(d) && d.fieldId in available ==> SchemaId(available[d.fieldId].schemaXml) == Some(d.fieldId)
    requires LinkedStore(store, available, d, false, false).Success?
    ensures LinkedStore(store, available, d, false, false).value.0 == d.fieldId
    ensures var s := LinkedStore(store, available, d, false, false).value.1;
      LinkedStore(s, available, d, false, false) == Success((d.fieldId, s))
  {
  }

  /** A fault in the list's probe of a field the list has sends the link down the add path, which is refused. */
  lemma LinkProbeFaultOnExistingFails(store: map<Guid, FieldProps>, available: map<Guid, FieldProps>,
                                      d: ListFieldLinkDefinition)
    requires d.fieldId in store && d.fieldId in available
    requires UsesSchemaPath(d) ==> SchemaId(available[d.fieldId].schemaXml) == Some(d.fieldId)
    ensures LinkedStore(store, available, d, true, false) == Failure(DuplicateField)
  {
  }

  /** Without the site field (missing from the web or lost to a fault) the link fails on the null field and adds nothing. */
  lemma LinkWithoutSiteFieldFails(store: map<Guid, FieldProps>, available: map<Guid, FieldProps>,
                                  d: ListFieldLinkDefinition, listFault: bool, siteFault: bool)
    requires listFault || d.fieldId !in store
    requires siteFault || d.fieldId !in available
    ensures LinkedStore(store, available, d, listFault, siteFault) == Failure(NullReference)
  {
  }
}

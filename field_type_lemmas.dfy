/**
 * What the overridden getters of the field definition subclasses mean once
 * the field handler reads a definition through them.
 */
module FieldTypeLemmas {
  import opened Wrappers
  import opened Text
  import opened Guids
  import opened FieldXml
  import opened Definitions
  import opened Remote
  import opened FieldHandler
  import opened FieldHandlerLemmas
  import opened LookupField
  import opened CalculatedField
  import opened URLField
  import opened ComputedField

  /** A multi-value lookup reaches the server unindexed: in the sync, and in the schema unless an additional attribute says otherwise. */
  lemma MultiValueLookupNeverIndexed(l: LookupFieldDefinition, p: FieldProps)
    requires l.allowMultipleValues
    ensures !SyncedProperties(p, l.AsFieldDefinition()).indexed
    ensures NotNamed(l.inherited.additionalAttributes, Indexed) ==>
              Indexed in TargetSchema(l.AsFieldDefinition()).attributes &&
              TargetSchema(l.AsFieldDefinition()).attributes[Indexed] == "FALSE"
  {
    var d := l.AsFieldDefinition();
    ProcessedFlags(StartTemplate(d), d);
    if NotNamed(d.additionalAttributes, Indexed) {
      TargetKeeps(d, Indexed);
    }
  }

  /** A lookup definition never overwrites the remote validation message or formula. */
  lemma LookupKeepsRemoteValidation(l: LookupFieldDefinition, store: map<Guid, FieldProps>, probeFault: bool)
    requires Reconcile(store, l.AsFieldDefinition(), probeFault).Success?
    ensures var (k, s) := Reconcile(store, l.AsFieldDefinition(), probeFault).value;
      s[k].validationMessage == (if k in store then store[k].validationMessage else None) &&
      s[k].validationFormula == (if k in store then store[k].validationFormula else None)
  {
    ReconcileKeepsUnsetValidation(store, l.AsFieldDefinition(), probeFault);
  }

  /** A calculated field's schema never gets a `Default` node from the definition, and the sync never writes the default. */
  lemma CalculatedNeverGetsDefault(c: CalculatedFieldDefinition, p: FieldProps)
    ensures TargetSchema(c.AsFieldDefinition()).defaultNode == StartTemplate(c.AsFieldDefinition()).defaultNode
    ensures c.inherited.rawXml.None? ==> TargetSchema(c.AsFieldDefinition()).defaultNode.None?
    ensures SyncedProperties(p, c.AsFieldDefinition()).defaultValue == p.defaultValue
  {
    TargetSchemaDefault(c.AsFieldDefinition());
  }

  /** Deploying a calculated definition without a raw schema never changes the remote default. */
  lemma CalculatedKeepsRemoteDefault(c: CalculatedFieldDefinition, store: map<Guid, FieldProps>, probeFault: bool)
    requires c.inherited.rawXml.None?
    requires Reconcile(store, c.AsFieldDefinition(), probeFault).Success?
    ensures var (k, s) := Reconcile(store, c.AsFieldDefinition(), probeFault).value;
      s[k].defaultValue == (if k in store then store[k].defaultValue else None)
  {
    ReconcileKeepsUnsetDefault(store, c.AsFieldDefinition(), probeFault);
  }

  lemma CalculatedKeepsRemoteValidation(c: CalculatedFieldDefinition, store: map<Guid, FieldProps>, probeFault: bool)
    requires Reconcile(store, c.AsFieldDefinition(), probeFault).Success?
    ensures var (k, s) := Reconcile(store, c.AsFieldDefinition(), probeFault).value;
      s[k].validationMessage == (if k in store then store[k].validationMessage else None) &&
      s[k].validationFormula == (if k in store then store[k].validationFormula else None)
  {
    ReconcileKeepsUnsetValidation(store, c.AsFieldDefinition(), probeFault);
  }

  lemma URLKeepsRemoteValidation(u: URLFieldDefinition, store: map<Guid, FieldProps>, probeFault: bool)
    requires Reconcile(store, u.AsFieldDefinition(), probeFault).Success?
    ensures var (k, s) := Reconcile(store, u.AsFieldDefinition(), probeFault).value;
      s[k].validationMessage == (if k in store then store[k].validationMessage else None) &&
      s[k].validationFormula == (if k in store then store[k].validationFormula else None)
  {
    ReconcileKeepsUnsetValidation(store, u.AsFieldDefinition(), probeFault);
  }

  lemma ComputedKeepsRemoteValidation(c: ComputedFieldDefinition, store: map<Guid, FieldProps>, probeFault: bool)
    requires Reconcile(store, c.AsFieldDefinition(), probeFault).Success?
    ensures var (k, s) := Reconcile(store, c.AsFieldDefinition(), probeFault).value;
      s[k].validationMessage == (if k in store then store[k].validationMessage else None) &&
      s[k].validationFormula == (if k in store then store[k].validationFormula else None)
  {
    ReconcileKeepsUnsetValidation(store, c.AsFieldDefinition(), probeFault);
  }
}

# SPMeta2 field provisioning, modelled in Dafny

SPMeta2 deploys SharePoint artefacts described by definition objects. This
project models the client-side (CSOM) core that provisions **fields**. That core covers:

- `FieldModelHandler`. It accepts a site or a list host and probes the target field collection for the
  definition's Id. A fault during the probe counts as "not found". When the field is missing, the handler builds a
  `Field` schema from the definition and adds it with `AddFieldAsXml`. Then it copies the definition's
  properties onto the field, new or found. It raises `OnProvisioning`/`OnUpdating` before the work and
  `OnProvisioned`/`OnUpdated` after it.
- `ListFieldLinkModelHandler`. It links a site field into a list. A field the list already has is left alone.
  Otherwise the site field is taken from the parent web's available fields and added to the list, either from
  its schema or as a copy.
- The field definition subclasses `LookupFieldDefinition`, `CalculatedFieldDefinition`,
  `URLFieldDefinition` and `ComputedFieldDefinition`. Their overridden getters and setters force invariants:
  a multi-value lookup is never indexed, a calculated field has no default value, and none of these types has a
  validation message or formula.
- `TestReport`, a named report with a list of nodes that grows by appending.

## Layout

| file | module | contents |
|---|---|---|
| wrappers.dfy | Wrappers | `Option`, `Result` |
| text.dfy | Text | nullable .NET strings, `IsNullOrEmpty`, `?? string.Empty`, `bool.ToString().ToUpper()` |
| guids.dfy | Guids | Guids and their brace format, with its parser and round trips |
| field_xml.dfy | FieldXml | the `Field` element: attributes plus an optional `Default` sub-node; the mutable `XElement` |
| definitions.dfy | Definitions | `FieldDefinition` and `ListFieldLinkDefinition` as the handlers read them |
| remote.dfy | Remote | the remote store: fields, field collections, webs, sites, lists, model hosts and events |
| field_handler.dfy | FieldHandler | `FieldModelHandler`; the value-level specs `TargetSchema`, `SyncedProperties`, `EnsuredStore`, `Reconcile` |
| field_handler_lemmas.dfy | FieldHandlerLemmas | what the schema, the sync and a deployment promise |
| list_field_link_handler.dfy | ListFieldLinkHandler | `ListFieldLinkModelHandler`; the value-level spec `LinkedStore` |
| list_field_link_lemmas.dfy | ListFieldLinkLemmas | what linking promises |
| lookup_field.dfy, calculated_field.dfy, url_field.dfy, computed_field.dfy | LookupField, CalculatedField, URLField, ComputedField | the definition subclasses as classes over their base-class state |
| field_type_lemmas.dfy | FieldTypeLemmas | the subclasses' invariants carried through a deployment |
| test_report.dfy | Reports | `TestReport` over an `ItemList` object |

The remote store is a class `FieldCollection` that holds a `map<Guid, Field>`. Each `Field` is a class whose
property fields the handler assigns in place. `Snapshot()` is the store's value: the properties of each field,
keyed by Id. Every state-changing method states its new state as a value-level function applied to the old
state. The lemmas then establish what that function promises.

## Model

| member | source | states |
|---|---|---|
| Guids.FormatB | SPMeta2/SPMeta2.CSOM/ModelHandlers/FieldModelHandler.cs:411 | the brace format of a Guid: the hex digits between `{` and `}`, two per byte |
| Guids.HexRoundTrip | SPMeta2/SPMeta2.CSOM/ModelHandlers/FieldModelHandler.cs:411 | reading back the hex digits of some bytes gives those bytes |
| Guids.ParseFormatB | SPMeta2/SPMeta2.CSOM/ModelHandlers/FieldModelHandler.cs:411 | reading back a brace-formatted Guid gives that Guid |
| Guids.BytesOfHexExact | SPMeta2/SPMeta2.CSOM/ModelHandlers/FieldModelHandler.cs:411 | hex text that parses is exactly the hex of the bytes it parses to |
| Guids.FormatParseB | SPMeta2/SPMeta2.CSOM/ModelHandlers/FieldModelHandler.cs:411 | `ParseB` accepts only what `FormatB` writes, so the two are inverse on that set |
| Guids.FormatBInjective | SPMeta2/SPMeta2.CSOM/ModelHandlers/FieldModelHandler.cs:411 | distinct Guids get distinct brace formats |
| Text.OrEmpty | SPMeta2/SPMeta2.CSOM/ModelHandlers/FieldModelHandler.cs:291-292 | `s ?? string.Empty`: the string itself, or "" when null |
| Text.UpperBool | SPMeta2/SPMeta2.CSOM/ModelHandlers/FieldModelHandler.cs:426 | an upper-cased .NET bool is "TRUE" exactly when the bool is true, and "FALSE" otherwise |
| FieldXml.WithAttribute | SPMeta2/SPMeta2.CSOM/ModelHandlers/FieldModelHandler.cs:410-417 | set-or-replace: the named attribute takes the value; every other attribute and the `Default` node stay as they were |
| FieldXml.XElement.SetAttribute | SPMeta2/SPMeta2.CSOM/ModelHandlers/FieldModelHandler.cs:410-417 | the element's new value is the old one with that attribute set or replaced |
| FieldXml.XElement.SetDefaultSubNode | SPMeta2/SPMeta2.CSOM/ModelHandlers/FieldModelHandler.cs:423-424 | the element's new value is the old one with the `Default` sub-node set to the value |
| Remote.SchemaId | SPMeta2/SPMeta2.CSOM/ModelHandlers/FieldModelHandler.cs:344-347 | the Id the server gives a field added from a schema is the one whose brace format is the schema's `ID` attribute |
| Remote.SchemaIdOfFormatB | SPMeta2/SPMeta2.CSOM/ModelHandlers/FieldModelHandler.cs:411 | a schema whose `ID` is the brace format of `g` creates a field with Id `g` |
| Remote.PropsFromSchema | SPMeta2/SPMeta2.CSOM/ModelHandlers/FieldModelHandler.cs:347 | a field created from a schema carries that schema and its `Default` node as its default, with no validation |
| Remote.AddedAsXml | SPMeta2/SPMeta2.CSOM/ModelHandlers/FieldModelHandler.cs:347 | `AddFieldAsXml` on the store's value: it fails exactly when the Id is unreadable or taken; otherwise it adds one new key with the schema's field and keeps every other field |
| Remote.AddedCopy | SPMeta2/SPMeta2.CSOM/ModelHandlers/ListFieldLinkModelHandler.cs:141 | `Add(field)` on the store's value: it fails exactly when the Id is taken; otherwise it adds a copy under that Id and keeps every other field |
| Remote.FieldCollection.GetById | SPMeta2/SPMeta2.CSOM/ModelHandlers/FieldModelHandler.cs:241-266 | the guarded probe returns a field exactly when there was no fault and a field has that Id, and the field it returns has that Id |
| Remote.FieldCollection.AddFieldAsXml | SPMeta2/SPMeta2.CSOM/ModelHandlers/FieldModelHandler.cs:347 | the collection's new value is `AddedAsXml` of the old one; the handle it returns is fresh and sits under the new key; a failure changes nothing |
| Remote.FieldCollection.Add | SPMeta2/SPMeta2.CSOM/ModelHandlers/ListFieldLinkModelHandler.cs:141 | the collection's new value is `AddedCopy` of the old one under the source field's Id; a failure changes nothing |
| FieldHandler.ExtractSiteFromHost | SPMeta2/SPMeta2.CSOM/ModelHandlers/FieldModelHandler.cs:80-89 | there is a site exactly for a site or list host, and it is that host's site |
| FieldHandler.ExtractWebFromHost | SPMeta2/SPMeta2.CSOM/ModelHandlers/FieldModelHandler.cs:91-100 | there is a web exactly for a site or list host, and it is that host's web |
| FieldHandler.ExtractListFromHost | SPMeta2/SPMeta2.CSOM/ModelHandlers/FieldModelHandler.cs:50-56 | there is a list exactly for a list host, and it is that host's list |
| FieldHandler.FindExistingSiteField | SPMeta2/SPMeta2.CSOM/ModelHandlers/FieldModelHandler.cs:229-273 | the root web's field with the Id is found exactly when it exists and the probe did not fault |
| FieldHandler.FindExistingListField | SPMeta2/SPMeta2.CSOM/ModelHandlers/FieldModelHandler.cs:363-405 | the list's field with the Id is found exactly when it exists and the probe did not fault |
| FieldHandler.FindField | SPMeta2/SPMeta2.CSOM/ModelHandlers/FieldModelHandler.cs:58-72 | any host other than a site or list host is not supported; for those two, the field is found exactly when the host's collection has it and there was no fault |
| FieldHandler.GetNewMinimalSPFieldTemplate | SPMeta2/SPMeta2.CSOM/ModelHandlers/FieldModelHandler.cs:33-43 | the template has exactly the seven attributes ID, StaticName, DisplayName, Title, Name, Type and Group, all empty, and no `Default` node |
| FieldHandler.UpperOpt | SPMeta2/SPMeta2.CSOM/ModelHandlers/FieldModelHandler.cs:429-449 | an optional bool gives an upper-cased value exactly when it has a value |
| FieldHandler.WithOptional | SPMeta2/SPMeta2.CSOM/ModelHandlers/FieldModelHandler.cs:420-449 | an optional attribute is set when it has a value and left alone otherwise; nothing else changes |
| FieldHandler.IdentityStage | SPMeta2/SPMeta2.CSOM/ModelHandlers/FieldModelHandler.cs:409-417 | the minimal set: ID from the Id in brace format, StaticName and Name from the internal name, DisplayName and Title from the title, Type from the field type, Group from the group or ""; other attributes and the `Default` node are untouched |
| FieldHandler.AdditionsStage | SPMeta2/SPMeta2.CSOM/ModelHandlers/FieldModelHandler.cs:419-426 | JSLink is written only when non-empty and `Default` only for a non-empty default value; `Hidden` is always written; nothing else changes |
| FieldHandler.FormsStage | SPMeta2/SPMeta2.CSOM/ModelHandlers/FieldModelHandler.cs:428-436 | ShowInDisplayForm, ShowInEditForm and ShowInListSettings are each written exactly when they have a value; nothing else changes |
| FieldHandler.ViewsStage | SPMeta2/SPMeta2.CSOM/ModelHandlers/FieldModelHandler.cs:438-445 | ShowInNewForm, ShowInVersionHistory and ShowInViewForms are each written exactly when they have a value; nothing else changes |
| FieldHandler.MiscStage | SPMeta2/SPMeta2.CSOM/ModelHandlers/FieldModelHandler.cs:447-451 | AllowDeletion is written exactly when it has a value; `Indexed` is always written; nothing else changes |
| FieldHandler.ProcessSPFieldXElement | SPMeta2/SPMeta2.CSOM/ModelHandlers/FieldModelHandler.cs:407-453 | the element, edited in place, ends as `ProcessedSchema` of where it started |
| FieldHandler.SetIdentity | SPMeta2/SPMeta2.CSOM/ModelHandlers/FieldModelHandler.cs:410-417 | the chained `SetAttribute` calls of the minimal set leave the element at `IdentityStage` of its old value |
| FieldHandler.SetAdditions | SPMeta2/SPMeta2.CSOM/ModelHandlers/FieldModelHandler.cs:419-426 | the conditional JSLink and `Default` writes and the `Hidden` write leave the element at `AdditionsStage` |
| FieldHandler.SetForms | SPMeta2/SPMeta2.CSOM/ModelHandlers/FieldModelHandler.cs:428-436 | the three form flags leave the element at `FormsStage` |
| FieldHandler.SetViews | SPMeta2/SPMeta2.CSOM/ModelHandlers/FieldModelHandler.cs:438-445 | the three view flags leave the element at `ViewsStage` |
| FieldHandler.SetMisc | SPMeta2/SPMeta2.CSOM/ModelHandlers/FieldModelHandler.cs:447-451 | AllowDeletion and Indexed leave the element at `MiscStage` |
| FieldHandler.SetAdditionalAttributes | SPMeta2/SPMeta2.CSOM/ModelHandlers/FieldModelHandler.cs:464-467 | the loop over the additional attributes applies each in order (invariant: after `i` of them, the element is those `i` applied) |
| FieldHandler.GetTargetSPFieldXmlDefinition | SPMeta2/SPMeta2.CSOM/ModelHandlers/FieldModelHandler.cs:455-470 | the schema is the minimal template, or the raw schema when there is one, processed and then given the additional attributes in order |
| FieldHandler.SyncedProperties | SPMeta2/SPMeta2.CSOM/ModelHandlers/FieldModelHandler.cs:287-309 | these are always overwritten: title, required, indexed and JSLink; description and group, as "" when unset. Validation message, validation formula and default value change only for a non-empty value. The schema is kept |
| FieldHandler.ProcessFieldProperties | SPMeta2/SPMeta2.CSOM/ModelHandlers/FieldModelHandler.cs:287-309 | the field's new properties are `SyncedProperties` of its old ones |
| FieldHandler.SyncNames | SPMeta2/SPMeta2.CSOM/ModelHandlers/FieldModelHandler.cs:289-294 | title and required follow the definition; description and group too, as "" when unset; nothing else changes |
| FieldHandler.SyncValues | SPMeta2/SPMeta2.CSOM/ModelHandlers/FieldModelHandler.cs:296-308 | validation message, formula and default value change only for a non-empty value; indexed and JSLink always follow the definition; nothing else changes |
| FieldHandler.SyncedAt | SPMeta2/SPMeta2.CSOM/ModelHandlers/FieldModelHandler.cs:357 | the field under the key is synced to the definition; the keys and every other field stay as they were |
| FieldHandler.EnsuredStore | SPMeta2/SPMeta2.CSOM/ModelHandlers/FieldModelHandler.cs:335-361 | a found field is synced in place, and no key is added. Otherwise the add fails exactly when `AddFieldAsXml` would. On success exactly one new key holds the synced new field. No other field changes |
| FieldHandler.Reconcile | SPMeta2/SPMeta2.CSOM/ModelHandlers/FieldModelHandler.cs:184-227 | with no fault and the field present, the deployment succeeds under the definition's Id without adding a key. Any success keeps every existing key and changes no other field |
| FieldHandler.SyncCollectionField | SPMeta2/SPMeta2.CSOM/ModelHandlers/FieldModelHandler.cs:349-357 | syncing one field of a collection changes that field's value to the synced one and leaves every other field's value alone |
| FieldHandler.BuildSchema | SPMeta2/SPMeta2.CSOM/ModelHandlers/FieldModelHandler.cs:344 | building the schema gives the target schema and changes no field of the collection |
| FieldHandler.AddSynced | SPMeta2/SPMeta2.CSOM/ModelHandlers/FieldModelHandler.cs:347-349 | the store fails as `AddFieldAsXml` would. On success the new key holds the synced new field under a fresh handle. A failure leaves the keys and every field's properties as they were |
| FieldHandler.EnsureNewField | SPMeta2/SPMeta2.CSOM/ModelHandlers/FieldModelHandler.cs:340-352 | the create path of `EnsureField`: the collection's new value is `EnsuredStore` of the old one for a field that was not found; a failure leaves the keys and every field's properties as they were |
| FieldHandler.EnsureField | SPMeta2/SPMeta2.CSOM/ModelHandlers/FieldModelHandler.cs:335-361 | the collection's new value is `EnsuredStore` of the old one. A found field is returned as the same handle, with no field added. A new field is a fresh handle under its key. A failure adds no key and changes no field's properties |
| FieldHandler.DeploySiteField | SPMeta2/SPMeta2.CSOM/ModelHandlers/FieldModelHandler.cs:275-285 | the root web's fields end as `Reconcile` of their old value, with the probe's fault; after a failure they are exactly as they were |
| FieldHandler.DeployListField | SPMeta2/SPMeta2.CSOM/ModelHandlers/FieldModelHandler.cs:184-227 | the list's fields end as `Reconcile` of their old value, with the probe's fault; after a failure they are exactly as they were |
| FieldHandler.FieldModelHandler.Remember | SPMeta2/SPMeta2.CSOM/ModelHandlers/FieldModelHandler.cs:110-113 | the handler records the site host (or none), the host's site and the host's web, and no field changes |
| FieldHandler.FieldModelHandler.Raise | SPMeta2/SPMeta2.CSOM/ModelHandlers/FieldModelHandler.cs:121-131 | the events are appended in order, and no field changes |
| FieldHandler.FieldModelHandler.DeployModel | SPMeta2/SPMeta2.CSOM/ModelHandlers/FieldModelHandler.cs:105-180 | another host is refused before anything happens. Otherwise the host is recorded and `OnProvisioning` and `OnUpdating` are raised with no field. The target collection ends as `Reconcile` of its old value. On success `OnProvisioned` and `OnUpdated` follow, carrying the field. After a failure the target collection is exactly as it was |
| FieldHandlerLemmas.WithAttributesKeepsDefault | SPMeta2/SPMeta2.CSOM/ModelHandlers/FieldModelHandler.cs:464-467 | additional attributes never touch the `Default` node |
| FieldHandlerLemmas.WithAttributesUntouched | SPMeta2/SPMeta2.CSOM/ModelHandlers/FieldModelHandler.cs:464-467 | an attribute that no additional attribute names keeps its value |
| FieldHandlerLemmas.WithAttributesLastWins | SPMeta2/SPMeta2.CSOM/ModelHandlers/FieldModelHandler.cs:464-467 | for a name given more than once, the last additional attribute's value is the one in the schema |
| FieldHandlerLemmas.ProcessedSchemaKeepsOthers | SPMeta2/SPMeta2.CSOM/ModelHandlers/FieldModelHandler.cs:407-453 | an attribute `ProcessSPFieldXElement` never writes (one from the raw schema, say) comes through unchanged |
| FieldHandlerLemmas.IdentitySurvives | SPMeta2/SPMeta2.CSOM/ModelHandlers/FieldModelHandler.cs:409-451 | no stage after the minimal set overwrites its attributes |
| FieldHandlerLemmas.AdditionsSurvive | SPMeta2/SPMeta2.CSOM/ModelHandlers/FieldModelHandler.cs:419-451 | JSLink and Hidden are written only by their own stage |
| FieldHandlerLemmas.FormsSurvive | SPMeta2/SPMeta2.CSOM/ModelHandlers/FieldModelHandler.cs:428-451 | the form flags are written only by their own stage |
| FieldHandlerLemmas.ViewsSurvive | SPMeta2/SPMeta2.CSOM/ModelHandlers/FieldModelHandler.cs:438-451 | the view flags are written only by their own stage |
| FieldHandlerLemmas.MiscUntouchedBefore | SPMeta2/SPMeta2.CSOM/ModelHandlers/FieldModelHandler.cs:409-451 | AllowDeletion and Indexed are written only by the last stage |
| FieldHandlerLemmas.ProcessedIdentity | SPMeta2/SPMeta2.CSOM/ModelHandlers/FieldModelHandler.cs:410-417 | after processing: ID is the definition's Id in brace format, StaticName and Name are the internal name, DisplayName and Title are the title, Type is the field type, and Group is the group or "" |
| FieldHandlerLemmas.TargetKeeps | SPMeta2/SPMeta2.CSOM/ModelHandlers/FieldModelHandler.cs:462-467 | an attribute no additional attribute names keeps what processing wrote |
| FieldHandlerLemmas.TargetSchemaId | SPMeta2/SPMeta2.CSOM/ModelHandlers/FieldModelHandler.cs:344-347 | without an additional `ID`, the server creates the field under the definition's own Id |
| FieldHandlerLemmas.TargetSchemaOverriddenId | SPMeta2/SPMeta2.CSOM/ModelHandlers/FieldModelHandler.cs:465-467 | the last additional attribute named `ID` decides the Id the server creates the field under |
| FieldHandlerLemmas.ProcessedFlags | SPMeta2/SPMeta2.CSOM/ModelHandlers/FieldModelHandler.cs:426-451 | Hidden and Indexed are always present, as "TRUE"/"FALSE" of the definition's flags |
| FieldHandlerLemmas.SetOrKeptThrough | SPMeta2/SPMeta2.CSOM/ModelHandlers/FieldModelHandler.cs:407-453 | a value one stage writes, with the other stages leaving the name alone, is the processed value |
| FieldHandlerLemmas.ProcessedJSLink | SPMeta2/SPMeta2.CSOM/ModelHandlers/FieldModelHandler.cs:420-421 | JSLink is set exactly when the definition's is non-empty; otherwise the starting element's value stays |
| FieldHandlerLemmas.ProcessedForms | SPMeta2/SPMeta2.CSOM/ModelHandlers/FieldModelHandler.cs:428-436 | each of ShowInDisplayForm, ShowInEditForm and ShowInListSettings is set exactly when it has a value and kept otherwise |
| FieldHandlerLemmas.ProcessedViews | SPMeta2/SPMeta2.CSOM/ModelHandlers/FieldModelHandler.cs:438-445 | each of ShowInNewForm, ShowInVersionHistory and ShowInViewForms is set exactly when it has a value and kept otherwise |
| FieldHandlerLemmas.ProcessedAllowDeletion | SPMeta2/SPMeta2.CSOM/ModelHandlers/FieldModelHandler.cs:448-449 | AllowDeletion is set exactly when it has a value and kept otherwise |
| FieldHandlerLemmas.TargetSchemaDefault | SPMeta2/SPMeta2.CSOM/ModelHandlers/FieldModelHandler.cs:423-424 | the schema's `Default` node is the definition's non-empty default, or else whatever the starting element had |
| FieldHandlerLemmas.SyncIdempotent | SPMeta2/SPMeta2.CSOM/ModelHandlers/FieldModelHandler.cs:287-309 | syncing twice is syncing once |
| FieldHandlerLemmas.SyncKeepsUnsetOptionals | SPMeta2/SPMeta2.CSOM/ModelHandlers/FieldModelHandler.cs:296-303 | an empty validation message, formula or default value leaves the field's own value in place |
| FieldHandlerLemmas.UnsetDescriptionClearsRemote | SPMeta2/SPMeta2.CSOM/ModelHandlers/FieldModelHandler.cs:291-292 | an unset description or group clears the remote value to "" instead of leaving it |
| FieldHandlerLemmas.SyncOverwritesOwned | SPMeta2/SPMeta2.CSOM/ModelHandlers/FieldModelHandler.cs:289-308 | after a sync, the unconditionally written properties no longer depend on what the field held before |
| FieldHandlerLemmas.ReconcileTwiceIsStable | SPMeta2/SPMeta2.CSOM/ModelHandlers/FieldModelHandler.cs:340-360 | with no fault and no additional `ID`, a deployment succeeds under the definition's Id, and deploying again changes nothing, so one field holds that Id |
| FieldHandlerLemmas.SyncedAtFixed | SPMeta2/SPMeta2.CSOM/ModelHandlers/FieldModelHandler.cs:357 | syncing a field that is already in sync leaves the store as it is |
| FieldHandlerLemmas.ReconcileAddsAtMostOne | SPMeta2/SPMeta2.CSOM/ModelHandlers/FieldModelHandler.cs:340-360 | a successful deployment adds at most one key and changes no field but its own |
| FieldHandlerLemmas.ProbeFaultOnExistingFieldFails | SPMeta2/SPMeta2.CSOM/ModelHandlers/FieldModelHandler.cs:241-272 | a probe fault on a field that exists drives the create path, and the server refuses it as a duplicate |
| FieldHandlerLemmas.ProbeFaultOnMissingFieldIsHarmless | SPMeta2/SPMeta2.CSOM/ModelHandlers/FieldModelHandler.cs:195-226 | a probe fault on a missing field gives the same result as no fault |
| FieldHandlerLemmas.OverriddenIdBreaksRerun | SPMeta2/SPMeta2.CSOM/ModelHandlers/FieldModelHandler.cs:465-467 | an additional `ID` naming another Id creates the field under that Id. The next deployment's probe misses it, and the server refuses that deployment as a duplicate |
| FieldHandlerLemmas.ReconcileKeepsUnsetValidation | SPMeta2/SPMeta2.CSOM/ModelHandlers/FieldModelHandler.cs:296-300 | without a validation message or formula, a deployment keeps the remote ones, and a new field has none |
| FieldHandlerLemmas.ReconcileKeepsUnsetDefault | SPMeta2/SPMeta2.CSOM/ModelHandlers/FieldModelHandler.cs:302-303 | without a default value or raw schema, a deployment keeps the remote default, and a new field has none |
| ListFieldLinkHandler.ProbeListField | SPMeta2/SPMeta2.CSOM/ModelHandlers/ListFieldLinkModelHandler.cs:89-95 | the probe returns the list's field exactly when there was no fault and the list has it, and then the server says it is not null |
| ListFieldLinkHandler.ExistingListField | SPMeta2/SPMeta2.CSOM/ModelHandlers/ListFieldLinkModelHandler.cs:100-104 | a field exists only if the probe returned it and its `ServerObjectIsNull` is known to be false |
| ListFieldLinkHandler.FindExistingSiteField | SPMeta2/SPMeta2.CSOM/ModelHandlers/ListFieldLinkModelHandler.cs:40-74 | the parent web's available field is found exactly when it exists and the probe did not fault |
| ListFieldLinkHandler.LinkedStore | SPMeta2/SPMeta2.CSOM/ModelHandlers/ListFieldLinkModelHandler.cs:76-171 | an existing list field changes nothing. Without the site field the link fails on a null reference. Otherwise the schema path adds through `AddFieldAsXml` and the copy path through `Add` |
| ListFieldLinkHandler.ListFieldLinkModelHandler.Raise | SPMeta2/SPMeta2.CSOM/ModelHandlers/ListFieldLinkModelHandler.cs:106-115 | the event is appended, and no field changes |
| ListFieldLinkHandler.ListFieldLinkModelHandler.DeployModel | SPMeta2/SPMeta2.CSOM/ModelHandlers/ListFieldLinkModelHandler.cs:30-38 | a host other than a list host is refused with nothing changed; a list host gets `DeployListFieldLink`, and a failed link leaves the list's fields exactly as they were |
| ListFieldLinkHandler.ListFieldLinkModelHandler.DeployListFieldLink | SPMeta2/SPMeta2.CSOM/ModelHandlers/ListFieldLinkModelHandler.cs:76-171 | the list's fields end as `LinkedStore` of their old value. `OnProvisioning` is raised once, carrying the existing field or null. On success `OnProvisioned` follows, carrying the field. An existing field is returned with the fields unchanged. A failure leaves the fields exactly as they were |
| ListFieldLinkLemmas.LinkExistingChangesNothing | SPMeta2/SPMeta2.CSOM/ModelHandlers/ListFieldLinkModelHandler.cs:156-170 | a field the list has is kept, and nothing is added or changed |
| ListFieldLinkLemmas.LinkAddsExactlyOne | SPMeta2/SPMeta2.CSOM/ModelHandlers/ListFieldLinkModelHandler.cs:117-155 | on the not-found path a successful link adds exactly one new key and changes no other field. The new field is the site field's copy, or the field read from its schema on the schema path |
| ListFieldLinkLemmas.LinkTwiceIsStable | SPMeta2/SPMeta2.CSOM/ModelHandlers/ListFieldLinkModelHandler.cs:76-171 | linking twice without faults is linking once, when a schema-path add keeps the site field's Id |
| ListFieldLinkLemmas.LinkProbeFaultOnExistingFails | SPMeta2/SPMeta2.CSOM/ModelHandlers/ListFieldLinkModelHandler.cs:89-104 | a probe fault on a field the list has drives the add path, and the server refuses it as a duplicate |
| ListFieldLinkLemmas.LinkWithoutSiteFieldFails | SPMeta2/SPMeta2.CSOM/ModelHandlers/ListFieldLinkModelHandler.cs:62-73 | without a site field, whether missing or lost to a fault, the link fails and adds nothing |
| LookupField.LookupFieldDefinition.constructor | SPMeta2/SPMeta2/Definitions/Fields/LookupFieldDefinition.cs:31-35 | the field type is Lookup and LookupField is the built-in `Title` internal name; the field is single-valued |
| LookupField.LookupFieldDefinition.Indexed | SPMeta2/SPMeta2/Definitions/Fields/LookupFieldDefinition.cs:59-67 | a multi-value lookup reads as not indexed; otherwise it reads the stored value |
| LookupField.LookupFieldDefinition.SetIndexed | SPMeta2/SPMeta2/Definitions/Fields/LookupFieldDefinition.cs:68-72 | a write is stored and read back only while the field is single-valued; for a multi-value field it is dropped |
| LookupField.LookupFieldDefinition.SetAllowMultipleValues | SPMeta2/SPMeta2/Definitions/Fields/LookupFieldDefinition.cs:79-81 | the flag is stored, and the base-class state (the stored `Indexed` included) is untouched |
| LookupField.LookupFieldDefinition.ValidationMessage | SPMeta2/SPMeta2/Definitions/Fields/LookupFieldDefinition.cs:41-46 | always "" |
| LookupField.LookupFieldDefinition.ValidationFormula | SPMeta2/SPMeta2/Definitions/Fields/LookupFieldDefinition.cs:48-53 | always "" |
| LookupField.LookupFieldDefinition.SetValidationMessage | SPMeta2/SPMeta2/Definitions/Fields/LookupFieldDefinition.cs:45 | no effect on what a handler reads |
| LookupField.LookupFieldDefinition.SetValidationFormula | SPMeta2/SPMeta2/Definitions/Fields/LookupFieldDefinition.cs:52 | no effect on what a handler reads |
| LookupField.LookupFieldDefinition.AsFieldDefinition | SPMeta2/SPMeta2/Definitions/Fields/LookupFieldDefinition.cs:41-73 | a handler reads empty validation and the overriding `Indexed`, so a multi-value lookup is not indexed; everything else is the stored base state |
| LookupField.IndexedSurvivesMultiValueToggle | SPMeta2/SPMeta2/Definitions/Fields/LookupFieldDefinition.cs:59-73 | turning multi-value on, writing `Indexed` and turning it off again leaves `Indexed` reading what it did before |
| CalculatedField.CalculatedFieldDefinition.constructor | SPMeta2/SPMeta2/Definitions/Fields/CalculatedFieldDefinition.cs:31-38 | the field type is Calculated, FieldReferences is empty, DateFormat is DateOnly and CurrencyLocaleId is 1033 |
| CalculatedField.CalculatedFieldDefinition.DefaultValue | SPMeta2/SPMeta2/Definitions/Fields/CalculatedFieldDefinition.cs:84-94 | always "" |
| CalculatedField.CalculatedFieldDefinition.ValidationMessage | SPMeta2/SPMeta2/Definitions/Fields/CalculatedFieldDefinition.cs:44-49 | always "" |
| CalculatedField.CalculatedFieldDefinition.ValidationFormula | SPMeta2/SPMeta2/Definitions/Fields/CalculatedFieldDefinition.cs:51-56 | always "" |
| CalculatedField.CalculatedFieldDefinition.SetDefaultValue | SPMeta2/SPMeta2/Definitions/Fields/CalculatedFieldDefinition.cs:93 | no effect on what a handler reads |
| CalculatedField.CalculatedFieldDefinition.SetValidationMessage | SPMeta2/SPMeta2/Definitions/Fields/CalculatedFieldDefinition.cs:48 | no effect on what a handler reads |
| CalculatedField.CalculatedFieldDefinition.SetValidationFormula | SPMeta2/SPMeta2/Definitions/Fields/CalculatedFieldDefinition.cs:55 | no effect on what a handler reads |
| CalculatedField.CalculatedFieldDefinition.SetFormula | SPMeta2/SPMeta2/Definitions/Fields/CalculatedFieldDefinition.cs:67-69 | the formula is stored as given |
| CalculatedField.CalculatedFieldDefinition.SetOutputType | SPMeta2/SPMeta2/Definitions/Fields/CalculatedFieldDefinition.cs:71-73 | the output type is stored as given |
| CalculatedField.CalculatedFieldDefinition.SetDisplayFormat | SPMeta2/SPMeta2/Definitions/Fields/CalculatedFieldDefinition.cs:64-65 | the display format is stored as given |
| CalculatedField.CalculatedFieldDefinition.SetShowAsPercentage | SPMeta2/SPMeta2/Definitions/Fields/CalculatedFieldDefinition.cs:75-77 | ShowAsPercentage is stored as given |
| CalculatedField.CalculatedFieldDefinition.AsFieldDefinition | SPMeta2/SPMeta2/Definitions/Fields/CalculatedFieldDefinition.cs:44-94 | a handler reads an empty default and empty validation; everything else is the stored base state |
| URLField.URLFieldDefinition.constructor | SPMeta2/SPMeta2/Definitions/Fields/URLFieldDefinition.cs:31-35 | the field type is URL and DisplayFormat is Hyperlink |
| URLField.URLFieldDefinition.ValidationMessage | SPMeta2/SPMeta2/Definitions/Fields/URLFieldDefinition.cs:41-46 | always "" |
| URLField.URLFieldDefinition.ValidationFormula | SPMeta2/SPMeta2/Definitions/Fields/URLFieldDefinition.cs:48-53 | always "" |
| URLField.URLFieldDefinition.SetValidationMessage | SPMeta2/SPMeta2/Definitions/Fields/URLFieldDefinition.cs:45 | no effect on what a handler reads |
| URLField.URLFieldDefinition.SetValidationFormula | SPMeta2/SPMeta2/Definitions/Fields/URLFieldDefinition.cs:52 | no effect on what a handler reads |
| URLField.URLFieldDefinition.SetDisplayFormat | SPMeta2/SPMeta2/Definitions/Fields/URLFieldDefinition.cs:55-57 | the display format is stored as given |
| URLField.URLFieldDefinition.AsFieldDefinition | SPMeta2/SPMeta2/Definitions/Fields/URLFieldDefinition.cs:41-53 | a handler reads empty validation; everything else is the stored base state |
| ComputedField.ComputedFieldDefinition.constructor | SPMeta2/SPMeta2/Definitions/Fields/ComputedFieldDefinition.cs:31-34 | the field type is Computed and EnableLookup is unset |
| ComputedField.ComputedFieldDefinition.ValidationMessage | SPMeta2/SPMeta2/Definitions/Fields/ComputedFieldDefinition.cs:40-45 | always "" |
| ComputedField.ComputedFieldDefinition.ValidationFormula | SPMeta2/SPMeta2/Definitions/Fields/ComputedFieldDefinition.cs:47-52 | always "" |
| ComputedField.ComputedFieldDefinition.SetValidationMessage | SPMeta2/SPMeta2/Definitions/Fields/ComputedFieldDefinition.cs:44 | no effect on what a handler reads |
| ComputedField.ComputedFieldDefinition.SetValidationFormula | SPMeta2/SPMeta2/Definitions/Fields/ComputedFieldDefinition.cs:51 | no effect on what a handler reads |
| ComputedField.ComputedFieldDefinition.SetEnableLookup | SPMeta2/SPMeta2/Definitions/Fields/ComputedFieldDefinition.cs:54-57 | EnableLookup is stored as given |
| ComputedField.ComputedFieldDefinition.AsFieldDefinition | SPMeta2/SPMeta2/Definitions/Fields/ComputedFieldDefinition.cs:40-52 | a handler reads empty validation; everything else is the stored base state |
| FieldTypeLemmas.MultiValueLookupNeverIndexed | SPMeta2/SPMeta2/Definitions/Fields/LookupFieldDefinition.cs:55-67 | a multi-value lookup reaches the server unindexed: in the sync, and in the schema unless an additional attribute names `Indexed` |
| FieldTypeLemmas.LookupKeepsRemoteValidation | SPMeta2/SPMeta2/Definitions/Fields/LookupFieldDefinition.cs:41-53 | deploying a lookup never overwrites the remote validation message or formula |
| FieldTypeLemmas.CalculatedNeverGetsDefault | SPMeta2/SPMeta2/Definitions/Fields/CalculatedFieldDefinition.cs:84-94 | a calculated field's schema gets no `Default` node from the definition, and the sync never writes a default |
| FieldTypeLemmas.CalculatedKeepsRemoteDefault | SPMeta2/SPMeta2/Definitions/Fields/CalculatedFieldDefinition.cs:84-94 | deploying a calculated field without a raw schema never changes the remote default |
| FieldTypeLemmas.CalculatedKeepsRemoteValidation | SPMeta2/SPMeta2/Definitions/Fields/CalculatedFieldDefinition.cs:44-56 | deploying a calculated field never overwrites the remote validation |
| FieldTypeLemmas.URLKeepsRemoteValidation | SPMeta2/SPMeta2/Definitions/Fields/URLFieldDefinition.cs:41-53 | deploying a URL field never overwrites the remote validation |
| FieldTypeLemmas.ComputedKeepsRemoteValidation | SPMeta2/SPMeta2/Definitions/Fields/ComputedFieldDefinition.cs:40-52 | deploying a computed field never overwrites the remote validation |
| Reports.ItemList.constructor | SPMeta2.Regression.Reports/Data/TestReport.cs:15 | a new list is empty |
| Reports.ItemList.Add | SPMeta2.Regression.Reports/Data/TestReport.cs:33 | the item is appended at the end |
| Reports.TestReport.constructor | SPMeta2.Regression.Reports/Data/TestReport.cs:11-15 | a new report holds a new, empty list and no name |
| Reports.TestReport.Items | SPMeta2.Regression.Reports/Data/TestReport.cs:17-22 | the getter returns the list itself, not a copy |
| Reports.TestReport.SetItems | SPMeta2.Regression.Reports/Data/TestReport.cs:23-26 | the report now holds the given list; the name is unchanged |
| Reports.TestReport.AddReportItem | SPMeta2.Regression.Reports/Data/TestReport.cs:31-34 | the item is appended to the list the report holds. The length grows by exactly one, and the earlier items are unchanged and in order |
| Reports.AddAfterReplace | SPMeta2.Regression.Reports/Data/TestReport.cs:17-34 | after `Items` is assigned, an added item lands in the new list, and the old list does not grow |

## Left out

- Round trips to the server are not modelled: `ExecuteQueryWithTrace`, `context.Load` and `UpdateAndPushChanges`. A change to a handle is its effect on the store.
- The CSOM `ExceptionHandlingScope` and the `try`/`catch` around `GetById` become a probe that returns `Option`. Whether the probe faulted is a parameter (`probeFault`, `listFault`, `siteFault`). A missing field and a network fault are indistinguishable to the handlers, as in the code.
- In the code a failing add (a duplicate Id, an unreadable schema) only surfaces at the next `ExecuteQuery`, and that comes after the `OnProvisioned` and `OnUpdated` events. In the model the add fails at once, so on that path no `OnProvisioned`/`OnUpdated` event is raised.
- FieldHandler.FieldModelHandler.DeployModel: the `context.CastTo<>` call made through reflection is not modelled; the `OnProvisioned` event carries the field itself.
- The event payload is reduced to its type and its object. `ObjectType`, `ObjectDefinition` and `ModelHost` are left out, and so is the inside of `InvokeOnModelEvent`.
- `XDocument.Parse(RawXml)` is a library call. The definition carries its result as an already-parsed `FieldXml` (`rawXml`), and an empty `RawXml` reads as none. The final `ToString()` serialisation is left out, so the schema is the element's value.
- Remote.PropsFromSchema: how SharePoint reads a schema into field properties is not part of this model. This is the plain reading of the attributes the handlers write.
- Guids.FormatB: `Guid.ToString("B")` is stood in for by lower-case hex between braces. Only two facts about it are used: it is injective, and it reads back.
- The effect of `AddToDefaultView` and `AddFieldOptions` on list views is not modelled; they only choose the add path.
- ListFieldLinkHandler.LinkedStore: `SchemaXmlWithResourceTokens` is modelled as the site field's `SchemaXml`. A server answer for the site field that is missing counts as null; `siteField.SchemaXmlWithResourceTokens` and `fields.Add(null)` both fail with `NullReference`.
- ListFieldLinkHandler.ProbeListField: when the list probe throws, the code keeps a non-null handle whose `ServerObjectIsNull` is unknown. The model writes that handle as none. Either way no existing field is seen.
- `TraceService` logging is left out.
- Remote.AddedAsXml: the server's refusal rules are reduced to two. An add is refused only when the Id is taken or when `ParseB` cannot read the schema's `ID`. A clash on the internal name is never refused.
- Remote.SchemaId: only the stand-in brace format reads back. An additional attribute `ID` that SharePoint would accept in another spelling (the hyphenated `{8-4-4-4-12}` form, or upper-case hex) makes the add fail as `MalformedSchema` in the model.
- Definitions.FieldDefinition: `Title`, `InternalName` and `FieldType`, and the value of each additional attribute, are non-null strings. In C# a null can reach `SetAttribute` (FieldModelHandler.cs:412-416, 467) and `field.Title = definition.Title` (FieldModelHandler.cs:289); those null cases are not modelled.
- FieldHandler.SyncValues: the `#if !NET35` guard around `field.JSLink = definition.JSLink` (FieldModelHandler.cs:307-309) is not modelled. The model is the build where the guard holds, so JSLink is always written.
- `ToString` of the definitions and `FieldDefinition.cs` are not part of this model. The base class is modelled as the value its getters return while a deployment runs.
- Reports.TestReport.SetItems: a null list is not modelled (`Items` always holds a list). `TestReportNode` is not part of this model, so a node is an object with no contents.
- `TestReport.TestName` is plain storage: a field of the class, with no operation of its own.

## Notes on the code

- An unset `Description` or `Group` is not left alone: the code writes `?? string.Empty` (SPMeta2/SPMeta2.CSOM/ModelHandlers/FieldModelHandler.cs:291-292), so it clears the remote value, unlike the validation and default properties, which an empty value leaves in place. See `FieldHandlerLemmas.UnsetDescriptionClearsRemote`.
- An additional attribute named `ID` replaces the Id the schema carries. The field is then created under a different Id from the one the next deployment probes for, and that deployment fails as a duplicate (`FieldHandlerLemmas.OverriddenIdBreaksRerun`).
- A probe fault on a field that exists turns the update into a create that the server refuses. This holds for `FieldHandlerLemmas.ProbeFaultOnExistingFieldFails` and for `ListFieldLinkLemmas.LinkProbeFaultOnExistingFails`.

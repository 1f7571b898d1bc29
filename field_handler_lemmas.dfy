/**
 * What the field handler's schema, its property sync and a whole deployment
 * promise, stated over the value-level specifications in `FieldHandler`.
 */
module FieldHandlerLemmas {
  import opened Wrappers
  import opened Text
  import opened Guids
  import opened FieldXml
  import opened Definitions
  import opened Remote
  import opened FieldHandler

  // ---------------------------------------------------------------------
  // Additional attributes
  // ---------------------------------------------------------------------

  /** No name in `attrs` is `n`. */
  predicate NotNamed(attrs: seq<FieldAttributeValue>, n: string)
  {
    forall i :: 0 <= i < |attrs| ==> attrs[i].name != n
  }

  /** Additional attributes never touch the `Default` sub-node. */
  lemma {:induction false} WithAttributesKeepsDefault(x: FieldXml, attrs: seq<FieldAttributeValue>)
    ensures WithAttributes(x, attrs).defaultNode == x.defaultNode
    decreases |attrs|
  {
    if attrs != [] {
      WithAttributesKeepsDefault(x, attrs[..|attrs| - 1]);
    }
  }

  /** An attribute no additional attribute names keeps the value it had. */
  lemma {:induction false} WithAttributesUntouched(x: FieldXml, attrs: seq<FieldAttributeValue>, n: string)
    requires NotNamed(attrs, n)
    ensures Kept(x, WithAttributes(x, attrs), n)
    decreases |attrs|
  {
    if attrs != [] {
      WithAttributesUntouched(x, attrs[..|attrs| - 1], n);
    }
  }

  /** For a name given more than once, the last value wins. */
  lemma {:induction false} WithAttributesLastWins(x: FieldXml, attrs: seq<FieldAttributeValue>, i: int)
    requires 0 <= i < |attrs|
    requires NotNamed(attrs[i + 1..], attrs[i].name)
    ensures attrs[i].name in WithAttributes(x, attrs).attributes
    ensures WithAttributes(x, attrs).attributes[attrs[i].name] == attrs[i].value
    decreases |attrs|
  {
    if i < |attrs| - 1 {
      var init := attrs[..|attrs| - 1];
      assert init[i + 1..] == attrs[i + 1..|attrs| - 1];
      assert attrs[|attrs| - 1] == attrs[i + 1..][|attrs| - 1 - (i + 1)];
      WithAttributesLastWins(x, init, i);
    }
  }

  // ---------------------------------------------------------------------
  // The schema
  // ---------------------------------------------------------------------

  /** An attribute none of the stages writes comes through `ProcessSPFieldXElement` unchanged. */
  lemma ProcessedSchemaKeepsOthers(x: FieldXml, d: FieldDefinition, n: string)
    requires n !in {ID, StaticName, DisplayName, Title, Name, Type, Group, JSLink, Hidden}
    requires n !in {ShowInDisplayForm, ShowInEditForm, ShowInListSettings, ShowInNewForm, ShowInVersionHistory}
    requires n !in {ShowInViewForms, AllowDeletion, Indexed}
    ensures Kept(x, ProcessedSchema(x, d), n)
  {
    var a := IdentityStage(x, d);
    var b := AdditionsStage(a, d);
    var c := FormsStage(b, d);
    var e := ViewsStage(c, d);
    assert Kept(x, a, n) && Kept(a, b, n) && Kept(b, c, n) && Kept(c, e, n) && Kept(e, MiscStage(e, d), n);
  }

  /** An attribute the later stages do not write keeps the value the identity stage gave it. */
  lemma IdentitySurvives(x: FieldXml, d: FieldDefinition, n: string)
    requires n !in {JSLink, Hidden, ShowInDisplayForm, ShowInEditForm, ShowInListSettings}
    requires n !in {ShowInNewForm, ShowInVersionHistory, ShowInViewForms, AllowDeletion, Indexed}
    ensures Kept(IdentityStage(x, d), ProcessedSchema(x, d), n)
  {
    var a := IdentityStage(x, d);
    var b := AdditionsStage(a, d);
    var c := FormsStage(b, d);
    var e := ViewsStage(c, d);
    assert Kept(a, b, n) && Kept(b, c, n) && Kept(c, e, n) && Kept(e, MiscStage(e, d), n);
  }

  /** An attribute only the additions stage writes (`JSLink`, `Hidden`) passes the others untouched. */
  lemma AdditionsSurvive(x: FieldXml, d: FieldDefinition, n: string)
    requires n !in {ID, StaticName, DisplayName, Title, Name, Type, Group}
    requires n !in {ShowInDisplayForm, ShowInEditForm, ShowInListSettings}
    requires n !in {ShowInNewForm, ShowInVersionHistory, ShowInViewForms, AllowDeletion, Indexed}
    ensures Kept(x, IdentityStage(x, d), n)
    ensures Kept(AdditionsStage(IdentityStage(x, d), d), ProcessedSchema(x, d), n)
  {
    var b := AdditionsStage(IdentityStage(x, d), d);
    var c := FormsStage(b, d);
    var e := ViewsStage(c, d);
    assert Kept(b, c, n) && Kept(c, e, n) && Kept(e, MiscStage(e, d), n);
  }

  /** An attribute only the forms stage writes passes the others untouched. */
  lemma FormsSurvive(x: FieldXml, d: FieldDefinition, n: string)
    requires n !in {ID, StaticName, DisplayName, Title, Name, Type, Group, JSLink, Hidden}
    requires n !in {ShowInNewForm, ShowInVersionHistory, ShowInViewForms, AllowDeletion, Indexed}
    ensures Kept(x, AdditionsStage(IdentityStage(x, d), d), n)
    ensures Kept(FormsStage(AdditionsStage(IdentityStage(x, d), d), d), ProcessedSchema(x, d), n)
  {
    var a := IdentityStage(x, d);
    var c := FormsStage(AdditionsStage(a, d), d);
    var e := ViewsStage(c, d);
    assert Kept(x, a, n) && Kept(a, AdditionsStage(a, d), n);
    assert Kept(c, e, n) && Kept(e, MiscStage(e, d), n);
  }

  /** An attribute only the views stage writes passes the others untouched. */
  lemma ViewsSurvive(x: FieldXml, d: FieldDefinition, n: string)
    requires n !in {ID, StaticName, DisplayName, Title, Name, Type, Group, JSLink, Hidden}
    requires n !in {ShowInDisplayForm, ShowInEditForm, ShowInListSettings, AllowDeletion, Indexed}
    ensures Kept(x, FormsStage(AdditionsStage(IdentityStage(x, d), d), d), n)
    ensures Kept(ViewsStage(FormsStage(AdditionsStage(IdentityStage(x, d), d), d), d), ProcessedSchema(x, d), n)
  {
    var a := IdentityStage(x, d);
    var b := AdditionsStage(a, d);
    var e := ViewsStage(FormsStage(b, d), d);
    assert Kept(x, a, n) && Kept(a, b, n) && Kept(b, FormsStage(b, d), n);
    assert Kept(e, MiscStage(e, d), n);
  }

  /** An attribute only the last stage writes (`AllowDeletion`, `Indexed`) is untouched before it. */
  lemma MiscUntouchedBefore(x: FieldXml, d: FieldDefinition, n: string)
    requires n !in {ID, StaticName, DisplayName, Title, Name, Type, Group, JSLink, Hidden}
    requires n !in {ShowInDisplayForm, ShowInEditForm, ShowInListSettings}
    requires n !in {ShowInNewForm, ShowInVersionHistory, ShowInViewForms}
    ensures Kept(x, ViewsStage(FormsStage(AdditionsStage(IdentityStage(x, d), d), d), d), n)
  {
    var a := IdentityStage(x, d);
    var b := AdditionsStage(a, d);
    var c := FormsStage(b, d);
    assert Kept(x, a, n) && Kept(a, b, n) && Kept(b, c, n) && Kept(c, ViewsStage(c, d), n);
  }

  /** What `ProcessSPFieldXElement` writes for the identity attributes. */
  lemma ProcessedIdentity(x: FieldXml, d: FieldDefinition)
    ensures var t := ProcessedSchema(x, d).attributes;
      ID in t && t[ID] == FormatB(d.id) &&
      StaticName in t && t[StaticName] == d.internalName &&
      Name in t && t[Name] == d.internalName &&
      DisplayName in t && t[DisplayName] == d.title &&
      Title in t && t[Title] == d.title &&
      Type in t && t[Type] == d.fieldType &&
      Group in t && t[Group] == OrEmpty(d.group)
  {
    IdentitySurvives(x, d, ID);
    IdentitySurvives(x, d, StaticName);
    IdentitySurvives(x, d, Name);
    IdentitySurvives(x, d, DisplayName);
    IdentitySurvives(x, d, Title);
    IdentitySurvives(x, d, Type);
    IdentitySurvives(x, d, Group);
  }

  /** The additional attributes, when none of them renames an attribute, keep what `ProcessSPFieldXElement` wrote. */
  lemma TargetKeeps(d: FieldDefinition, n: string)
    requires NotNamed(d.additionalAttributes, n)
    ensures Kept(ProcessedSchema(StartTemplate(d), d), TargetSchema(d), n)
  {
    WithAttributesUntouched(ProcessedSchema(StartTemplate(d), d), d.additionalAttributes, n);
  }

  /** The Id the server reads from the schema is the definition's, unless an additional attribute names `ID`. */
  lemma TargetSchemaId(d: FieldDefinition)
    requires NotNamed(d.additionalAttributes, ID)
    ensures SchemaId(TargetSchema(d)) == Some(d.id)
  {
    ProcessedIdentity(StartTemplate(d), d);
    TargetKeeps(d, ID);
    SchemaIdOfFormatB(TargetSchema(d), d.id);
  }

  /** An additional attribute named `ID`, the last one so named, decides the Id the server reads. */
  lemma TargetSchemaOverriddenId(d: FieldDefinition, i: int, g: Guid)
    requires 0 <= i < |d.additionalAttributes|
    requires d.additionalAttributes[i] == FieldAttributeValue(ID, FormatB(g))
    requires NotNamed(d.additionalAttributes[i + 1..], ID)
    ensures SchemaId(TargetSchema(d)) == Some(g)
  {
    WithAttributesLastWins(ProcessedSchema(StartTemplate(d), d), d.additionalAttributes, i);
    SchemaIdOfFormatB(TargetSchema(d), g);
  }

  /** `Hidden` and `Indexed` are always written, as upper-case booleans. */
  lemma ProcessedFlags(x: FieldXml, d: FieldDefinition)
    ensures var t := ProcessedSchema(x, d).attributes;
      Hidden in t && t[Hidden] == UpperBool(d.hidden) && Indexed in t && t[Indexed] == UpperBool(d.indexed)
  {
    AdditionsSurvive(x, d, Hidden);
  }

  /** A value written by one stage, with nothing touching the name before or after, is the end result. */
  lemma SetOrKeptThrough(x: FieldXml, y: FieldXml, z: FieldXml, w: FieldXml, n: string, v: Option<string>)
    requires Kept(x, y, n) && SetOrKept(y, z, n, v) && Kept(z, w, n)
    ensures SetOrKept(x, w, n, v)
  {
  }

  /** `JSLink` is written only when the definition has a non-empty one; else the starting element's value stays. */
  lemma ProcessedJSLink(x: FieldXml, d: FieldDefinition)
    ensures SetOrKept(x, ProcessedSchema(x, d), JSLink, if IsNullOrEmpty(d.jsLink) then None else d.jsLink)
  {
    AdditionsSurvive(x, d, JSLink);
    var a := IdentityStage(x, d);
    SetOrKeptThrough(x, a, AdditionsStage(a, d), ProcessedSchema(x, d), JSLink,
                     if IsNullOrEmpty(d.jsLink) then None else d.jsLink);
  }

  /** `ShowInDisplayForm`, `ShowInEditForm` and `ShowInListSettings` are written exactly when they have values. */
  lemma ProcessedForms(x: FieldXml, d: FieldDefinition)
    ensures SetOrKept(x, ProcessedSchema(x, d), ShowInDisplayForm, UpperOpt(d.showInDisplayForm))
    ensures SetOrKept(x, ProcessedSchema(x, d), ShowInEditForm, UpperOpt(d.showInEditForm))
    ensures SetOrKept(x, ProcessedSchema(x, d), ShowInListSettings, UpperOpt(d.showInListSettings))
  {
    var b := AdditionsStage(IdentityStage(x, d), d);
    var c := FormsStage(b, d);
    var p := ProcessedSchema(x, d);
    FormsSurvive(x, d, ShowInDisplayForm);
    SetOrKeptThrough(x, b, c, p, ShowInDisplayForm, UpperOpt(d.showInDisplayForm));
    FormsSurvive(x, d, ShowInEditForm);
    SetOrKeptThrough(x, b, c, p, ShowInEditForm, UpperOpt(d.showInEditForm));
    FormsSurvive(x, d, ShowInListSettings);
    SetOrKeptThrough(x, b, c, p, ShowInListSettings, UpperOpt(d.showInListSettings));
  }

  /** `ShowInNewForm`, `ShowInVersionHistory` and `ShowInViewForms` are written exactly when they have values. */
  lemma ProcessedViews(x: FieldXml, d: FieldDefinition)
    ensures SetOrKept(x, ProcessedSchema(x, d), ShowInNewForm, UpperOpt(d.showInNewForm))
    ensures SetOrKept(x, ProcessedSchema(x, d), ShowInVersionHistory, UpperOpt(d.showInVersionHistory))
    ensures SetOrKept(x, ProcessedSchema(x, d), ShowInViewForms, UpperOpt(d.showInViewForms))
  {
    var c := FormsStage(AdditionsStage(IdentityStage(x, d), d), d);
    var e := ViewsStage(c, d);
    var p := ProcessedSchema(x, d);
    ViewsSurvive(x, d, ShowInNewForm);
    SetOrKeptThrough(x, c, e, p, ShowInNewForm, UpperOpt(d.showInNewForm));
    ViewsSurvive(x, d, ShowInVersionHistory);
    SetOrKeptThrough(x, c, e, p, ShowInVersionHistory, UpperOpt(d.showInVersionHistory));
    ViewsSurvive(x, d, ShowInViewForms);
    SetOrKeptThrough(x, c, e, p, ShowInViewForms, UpperOpt(d.showInViewForms));
  }

  /** `AllowDeletion` is written exactly when it has a value. */
  lemma ProcessedAllowDeletion(x: FieldXml, d: FieldDefinition)
    ensures SetOrKept(x, ProcessedSchema(x, d), AllowDeletion, UpperOpt(d.allowDeletion))
  {
    var e := ViewsStage(FormsStage(AdditionsStage(IdentityStage(x, d), d), d), d);
    MiscUntouchedBefore(x, d, AllowDeletion);
    var p := ProcessedSchema(x, d);
    SetOrKeptThrough(x, e, p, p, AllowDeletion, UpperOpt(d.allowDeletion));
  }

  /** The `Default` sub-node is the definition's when it has a non-empty one, else the starting element's. */
  lemma TargetSchemaDefault(d: FieldDefinition)
    ensures TargetSchema(d).defaultNode ==
            if IsNullOrEmpty(d.defaultValue) then StartTemplate(d).defaultNode else d.defaultValue
  {
    WithAttributesKeepsDefault(ProcessedSchema(StartTemplate(d), d), d.additionalAttributes);
  }

  // ---------------------------------------------------------------------
  // Property sync
  // ---------------------------------------------------------------------

  /** Syncing twice is syncing once. */
  lemma SyncIdempotent(p: FieldProps, d: FieldDefinition)
    ensures SyncedProperties(SyncedProperties(p, d), d) == SyncedProperties(p, d)
  {
  }

  /** An empty optional value never overwrites what the field already has. */
  lemma SyncKeepsUnsetOptionals(p: FieldProps, d: FieldDefinition)
    requires IsNullOrEmpty(d.validationMessage) && IsNullOrEmpty(d.validationFormula) && IsNullOrEmpty(d.defaultValue)
    ensures var r := SyncedProperties(p, d);
      r.validationMessage == p.validationMessage && r.validationFormula == p.validationFormula &&
      r.defaultValue == p.defaultValue
  {
  }

  /** An unset description or group does not leave the remote value alone: it clears it. */
  lemma UnsetDescriptionClearsRemote(p: FieldProps, d: FieldDefinition)
    requires d.description.None? && d.group.None?
    ensures SyncedProperties(p, d).description == Some("") && SyncedProperties(p, d).group == Some("")
  {
  }

  /** After a sync, every property the sync owns is independent of what the field had before. */
  lemma SyncOverwritesOwned(p: FieldProps, q: FieldProps, d: FieldDefinition)
    ensures var r, s := SyncedProperties(p, d), SyncedProperties(q, d);
      r.title == s.title && r.description == s.description && r.group == s.group &&
      r.required == s.required && r.indexed == s.indexed && r.jsLink == s.jsLink
  {
  }

  // ---------------------------------------------------------------------
  // Deployments
  // ---------------------------------------------------------------------

  /**
   * With a schema whose `ID` is the definition's and no fault, a deployment
   * succeeds with the definition's Id, and deploying again changes nothing.
   */
  lemma ReconcileTwiceIsStable(store: map<Guid, FieldProps>, d: FieldDefinition)
    requires NotNamed(d.additionalAttributes, ID)
    ensures Reconcile(store, d, false).Success?
    ensures Reconcile(store, d, false).value.0 == d.id
    ensures Reconcile(Reconcile(store, d, false).value.1, d, false) == Reconcile(store, d, false)
  {
    TargetSchemaId(d);
    var r := Reconcile(store, d, false);
    var s := r.value.1;
    assert d.id in s;
    SyncIdempotent(if d.id in store then store[d.id] else PropsFromSchema(TargetSchema(d)), d);
    SyncedAtFixed(s, d.id, d);
  }

  /** Syncing a field that is already in sync leaves the store as it is. */
  lemma SyncedAtFixed(s: map<Guid, FieldProps>, k: Guid, d: FieldDefinition)
    requires k in s && SyncedProperties(s[k], d) == s[k]
    ensures SyncedAt(s, k, d) == s
  {
  }

  /** A deployment adds at most one field, and only the one under its key changes. */
  lemma ReconcileAddsAtMostOne(store: map<Guid, FieldProps>, d: FieldDefinition, probeFault: bool)
    requires Reconcile(store, d, probeFault).Success?
    ensures var (k, s) := Reconcile(store, d, probeFault).value;
      s.Keys == store.Keys + {k} && forall g :: g in store && g != k ==> s[g] == store[g]
  {
  }

  /** A probe fault on a field that exists drives the create path, which the server refuses. */
  lemma ProbeFaultOnExistingFieldFails(store: map<Guid, FieldProps>, d: FieldDefinition)
    requires NotNamed(d.additionalAttributes, ID)
    requires d.id in store
    ensures Reconcile(store, d, true) == Failure(DuplicateField)
  {
    TargetSchemaId(d);
  }

  /** A probe fault on a field that is missing is harmless. */
  lemma ProbeFaultOnMissingFieldIsHarmless(store: map<Guid, FieldProps>, d: FieldDefinition)
    requires d.id !in store
    ensures Reconcile(store, d, true) == Reconcile(store, d, false)
  {
  }

  /**
   * An additional attribute that sets `ID` to another Id `g`: the field is
   * created under `g`, the next probe (by the definition's Id) misses it, and
   * deploying again is refused as a duplicate.
   */
  lemma OverriddenIdBreaksRerun(store: map<Guid, FieldProps>, d: FieldDefinition, i: int, g: Guid)
    requires 0 <= i < |d.additionalAttributes|
    requires d.additionalAttributes[i] == FieldAttributeValue(ID, FormatB(g))
    requires NotNamed(d.additionalAttributes[i + 1..], ID)
    requires g != d.id && g !in store && d.id !in store
    ensures Reconcile(store, d, false).Success?
    ensures Reconcile(store, d, false).value.0 == g
    ensures Reconcile(Reconcile(store, d, false).value.1, d, false) == Failure(DuplicateField)
  {
    TargetSchemaOverriddenId(d, i, g);
  }

  /**
   * A definition without a validation message never changes the remote one:
   * an existing field keeps its own, and a new field has none.
   */
  lemma ReconcileKeepsUnsetValidation(store: map<Guid, FieldProps>, d: FieldDefinition, probeFault: bool)
    requires IsNullOrEmpty(d.validationMessage) && IsNullOrEmpty(d.validationFormula)
    requires Reconcile(store, d, probeFault).Success?
    ensures var (k, s) := Reconcile(store, d, probeFault).value;
      s[k].validationMessage == (if k in store then store[k].validationMessage else None) &&
      s[k].validationFormula == (if k in store then store[k].validationFormula else None)
  {
  }

  /** A definition without a default value never changes the remote default, and adds no `Default` node. */
  lemma ReconcileKeepsUnsetDefault(store: map<Guid, FieldProps>, d: FieldDefinition, probeFault: bool)
    requires IsNullOrEmpty(d.defaultValue) && d.rawXml.None?
    requires Reconcile(store, d, probeFault).Success?
    ensures var (k, s) := Reconcile(store, d, probeFault).value;
      s[k].defaultValue == (if k in store then store[k].defaultValue else None)
  {
    TargetSchemaDefault(d);
  }
}

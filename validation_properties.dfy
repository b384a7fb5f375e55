/** Properties of the rules: what each check reports and when, how the
    per-item checks add up over a document, and what the strict flag does
    and does not change. Diagnostics are counted per subject and field with
    `CountAbout`. */
module ValidationProperties {
  import opened JsonValues
  import opened Vocabulary
  import opened Diagnostics
  import opened ValidationRules

  // ---------------------------------------------------------------------
  // Canonical ids

  /** A string with an upper-case letter in it fails the format check,
      whatever else it contains. */
  lemma UppercaseIdRejected(cid: string, k: nat)
    requires k < |cid| && 'A' <= cid[k] <= 'Z'
    ensures !IsValidCanonicalId(cid)
  {
    CanonicalIdFormat(cid);
    assert !IsIdChar(cid[k]);
  }

  /** The id check of `validate_entity` accepts exactly a non-empty string in
      the canonical format. */
  predicate HasGoodCanonicalId(entity: map<string, Json>)
  {
    "canonical_id" in entity && entity["canonical_id"].JStr? &&
    entity["canonical_id"].s != "" && IsValidCanonicalId(entity["canonical_id"].s)
  }

  /** An entity whose `type` is the string "PERSON" and which has no
      `full_name` key. */
  predicate PersonWithoutFullName(entity: map<string, Json>)
  {
    "type" in entity && entity["type"] == JStr("PERSON") && "full_name" !in entity
  }

  lemma MissesFullNameMeans(entity: map<string, Json>)
    ensures MissesFullName(entity) <==> PersonWithoutFullName(entity)
  {
    ParseName(Person);
  }

  // ---------------------------------------------------------------------
  // Entities

  /** The errors of the check of `validate_entity` that concerns `field`. */
  function EntityErrorsOn(strict: bool, entity: map<string, Json>, index: nat, field: Field): seq<Diag>
  {
    match field
    case CanonicalId => CanonicalIdErrors(entity, index)
    case Type => TypeErrors(entity, index)
    case FullName => FullNameErrors(strict, entity, index)
    case Mentions => MentionsErrors(entity, index)
    case Attributes => EntityAttributesErrors(entity, index)
    case _ => []
  }

  /** Each check of `validate_entity` reports on its own field of the
      entity at `index` and on nothing else. */
  lemma EntityErrorsCount(strict: bool, entity: map<string, Json>, index: nat, s: Subject, f: Field)
    ensures CountAbout(EntityErrors(strict, entity, index), s, f) ==
      if s == Entity(index) then |EntityErrorsOn(strict, entity, index, f)| else 0
  {
    hide CanonicalIdErrors, TypeErrors, FullNameErrors, MentionsErrors, EntityAttributesErrors, CountAbout, AtMostOneAbout;
    CountFive(CanonicalIdErrors(entity, index), TypeErrors(entity, index),
              FullNameErrors(strict, entity, index), MentionsErrors(entity, index),
              EntityAttributesErrors(entity, index), Entity(index),
              CanonicalId, Type, FullName, Mentions, Attributes, s, f);
  }

  /** The list `validate_entity` returns holds at most one error per field,
      no `canonical_id` error exactly when the id is good, no `type` error
      exactly when the type is one of the four, and a `full_name` error
      exactly for a person without a name in strict mode. */
  lemma EntityErrorsPerField(strict: bool, entity: map<string, Json>, index: nat, field: Field)
    ensures CountAbout(EntityErrors(strict, entity, index), Entity(index), field) <= 1
    ensures field == CanonicalId ==>
      (CountAbout(EntityErrors(strict, entity, index), Entity(index), field) == 0 <==> HasGoodCanonicalId(entity))
    ensures field == Type ==>
      (CountAbout(EntityErrors(strict, entity, index), Entity(index), field) == 0 <==>
       "type" in entity && InVocabulary(entity["type"], ValidEntityTypes))
    ensures field == FullName ==>
      (CountAbout(EntityErrors(strict, entity, index), Entity(index), field) == 1 <==>
       strict && PersonWithoutFullName(entity))
    ensures field == Mentions ==>
      (CountAbout(EntityErrors(strict, entity, index), Entity(index), field) == 1 <==>
       "mentions" in entity && (!entity["mentions"].JArr? || !AllStrings(entity["mentions"].items)))
    ensures field == Attributes ==>
      (CountAbout(EntityErrors(strict, entity, index), Entity(index), field) == 1 <==>
       "attributes" in entity && !entity["attributes"].JObj?)
  {
    EntityErrorsCount(strict, entity, index, Entity(index), field);
    MissesFullNameMeans(entity);
  }

  /** The strict flag changes only the `full_name` check of an entity: for
      every other field there are equally many errors in both modes. */
  lemma EntityErrorsStrictOnlyFullName(entity: map<string, Json>, index: nat, subject: Subject, field: Field)
    requires field != FullName
    ensures CountAbout(EntityErrors(true, entity, index), subject, field) ==
            CountAbout(EntityErrors(false, entity, index), subject, field)
  {
    EntityErrorsCount(true, entity, index, subject, field);
    EntityErrorsCount(false, entity, index, subject, field);
  }

  /** Strict mode adds the `full_name` error and nothing else: with it
      filtered out, the strict list is the non-strict list, diagnostic for
      diagnostic and in the same order. */
  lemma EntityStrictErrorsExtendNonStrict(entity: map<string, Json>, index: nat)
    ensures WithoutField(EntityErrors(true, entity, index), FullName) == EntityErrors(false, entity, index)
  {
    hide CanonicalIdErrors, TypeErrors, MentionsErrors, EntityAttributesErrors, AtMostOneAbout, WithoutField;
    var a, b := CanonicalIdErrors(entity, index), TypeErrors(entity, index);
    var c, d, e := FullNameErrors(true, entity, index), MentionsErrors(entity, index), EntityAttributesErrors(entity, index);
    assert FullNameErrors(false, entity, index) == [];
    WithoutFieldConcat(a + b + c + d, e, FullName);
    WithoutFieldConcat(a + b + c, d, FullName);
    WithoutFieldConcat(a + b, c, FullName);
    WithoutFieldConcat(a, b, FullName);
    WithoutFieldAtMostOne(a, Entity(index), CanonicalId, FullName);
    WithoutFieldAtMostOne(b, Entity(index), Type, FullName);
    WithoutFieldAtMostOne(c, Entity(index), FullName, FullName);
    WithoutFieldAtMostOne(d, Entity(index), Mentions, FullName);
    WithoutFieldAtMostOne(e, Entity(index), Attributes, FullName);
    assert a + b + [] == a + b;
  }

  /** The problem each error of `validate_entity` names, and the value it
      cites: which branch of each if/elif chain fires. */
  lemma EntityDiagnostics(strict: bool, entity: map<string, Json>, index: nat)
    ensures "canonical_id" !in entity ==>
      Diag(Entity(index), CanonicalId, Missing) in EntityErrors(strict, entity, index)
    ensures "canonical_id" in entity && (!entity["canonical_id"].JStr? || entity["canonical_id"].s == "") ==>
      Diag(Entity(index), CanonicalId, NotNonEmptyString) in EntityErrors(strict, entity, index)
    ensures "canonical_id" in entity && entity["canonical_id"].JStr? && entity["canonical_id"].s != "" &&
            !IsValidCanonicalId(entity["canonical_id"].s) ==>
      Diag(Entity(index), CanonicalId, BadFormat(entity["canonical_id"].s)) in EntityErrors(strict, entity, index)
    ensures "type" !in entity ==>
      Diag(Entity(index), Type, Missing) in EntityErrors(strict, entity, index)
    ensures "type" in entity && !InVocabulary(entity["type"], ValidEntityTypes) ==>
      Diag(Entity(index), Type, Invalid(entity["type"])) in EntityErrors(strict, entity, index)
    ensures strict && PersonWithoutFullName(entity) ==>
      Diag(Entity(index), FullName, Missing) in EntityErrors(strict, entity, index)
    ensures "mentions" in entity && !entity["mentions"].JArr? ==>
      Diag(Entity(index), Mentions, NotArray) in EntityErrors(strict, entity, index)
    ensures "mentions" in entity && entity["mentions"].JArr? && !AllStrings(entity["mentions"].items) ==>
      Diag(Entity(index), Mentions, NotAllStrings) in EntityErrors(strict, entity, index)
    ensures "attributes" in entity && !entity["attributes"].JObj? ==>
      Diag(Entity(index), Attributes, NotObject) in EntityErrors(strict, entity, index)
  {
    var a, b := CanonicalIdErrors(entity, index), TypeErrors(entity, index);
    var c, d, e := FullNameErrors(strict, entity, index), MentionsErrors(entity, index), EntityAttributesErrors(entity, index);
    MissesFullNameMeans(entity);
    assert a != [] ==> a[0] in EntityErrors(strict, entity, index);
    assert b != [] ==> b[0] in EntityErrors(strict, entity, index);
    assert c != [] ==> c[0] in EntityErrors(strict, entity, index);
    assert d != [] ==> d[0] in EntityErrors(strict, entity, index);
    assert e != [] ==> e[0] in EntityErrors(strict, entity, index);
  }

  // ---------------------------------------------------------------------
  // Attributes

  /** How many of the first `n` roles are outside `PERSON_ROLES`. */
  function NonStandardRoles(roles: seq<Json>, n: nat): (count: nat)
    requires n <= |roles|
    ensures count <= n
  {
    if n == 0 then 0
    else NonStandardRoles(roles, n - 1) + if InVocabulary(roles[n - 1], PersonRoles) then 0 else 1
  }

  /** The warnings of the loop over a list of roles: in strict mode one
      `NonStandard` warning for each role outside the vocabulary, and none
      at all otherwise. */
  lemma {:induction false} RoleWarningsMembers(strict: bool, roles: seq<Json>, n: nat, index: nat)
    requires n <= |roles|
    ensures |RoleWarnings(strict, roles, n, index)| == if strict then NonStandardRoles(roles, n) else 0
    ensures forall d :: d in RoleWarnings(strict, roles, n, index) <==>
      strict && exists k :: 0 <= k < n && !InVocabulary(roles[k], PersonRoles) &&
                            d == Diag(Entity(index), Role, NonStandard(roles[k]))
  {
    if n > 0 {
      RoleWarningsMembers(strict, roles, n - 1, index);
      var w := RoleWarning(strict, roles[n - 1], index);
      forall d
        ensures d in RoleWarnings(strict, roles, n, index) <==>
          strict && exists k :: 0 <= k < n && !InVocabulary(roles[k], PersonRoles) &&
                                d == Diag(Entity(index), Role, NonStandard(roles[k]))
      {
        if d in w {
          assert strict && !InVocabulary(roles[n - 1], PersonRoles) &&
                 d == Diag(Entity(index), Role, NonStandard(roles[n - 1]));
        }
      }
    }
  }

  /** All the warnings of the role loop are `role` warnings of the entity. */
  lemma {:induction false} RoleWarningsCount(strict: bool, roles: seq<Json>, n: nat, index: nat, s: Subject, f: Field)
    requires n <= |roles|
    ensures CountAbout(RoleWarnings(strict, roles, n, index), s, f) ==
      if s == Entity(index) && f == Role then |RoleWarnings(strict, roles, n, index)| else 0
  {
    hide RoleWarning;
    if n > 0 {
      RoleWarningsCount(strict, roles, n - 1, index, s, f);
      var w := RoleWarning(strict, roles[n - 1], index);
      CountConcat(RoleWarnings(strict, roles, n - 1, index), w, s, f);
      CountAtMostOne(w, Entity(index), Role, s, f);
    }
  }

  /** The attribute field `_validate_attributes` checks for each entity type. */
  function KindField(t: EntityType): Field
  {
    match t
    case Person => Role
    case Organization => OrganizationKind
    case Artifact => ObjectType
    case Location => LocationType
  }

  /** `_validate_attributes` appends nothing in non-strict mode or for an
      entity without a valid type, and otherwise only warnings about the
      one field its type selects (`role`, `entity_type`, `object_type` or
      `location_type`) of this entity, never about its `full_name`. */
  lemma AttributeWarningsCount(strict: bool, entity: map<string, Json>, index: nat, s: Subject, f: Field)
    requires "attributes" in entity && entity["attributes"].JObj?
    ensures !strict ==> AttributeWarnings(strict, entity, index) == []
    ensures EntityTypeOf(entity).None? ==> AttributeWarnings(strict, entity, index) == []
    ensures s != Entity(index) || f !in {Role, OrganizationKind, ObjectType, LocationType} ==>
      CountAbout(AttributeWarnings(strict, entity, index), s, f) == 0
    ensures EntityTypeOf(entity).Some? && f != KindField(EntityTypeOf(entity).value) ==>
      CountAbout(AttributeWarnings(strict, entity, index), s, f) == 0
  {
    var attributes := entity["attributes"].fields;
    var ws := AttributeWarnings(strict, entity, index);
    match EntityTypeOf(entity)
    case Some(Person) =>
      if "role" in attributes && attributes["role"].JArr? {
        var roles := attributes["role"].items;
        RoleWarningsCount(strict, roles, |roles|, index, s, f);
      } else {
        CountAtMostOne(ws, Entity(index), Role, s, f);
      }
    case Some(Organization) =>
      CountAtMostOne(ws, Entity(index), OrganizationKind, s, f);
    case Some(Artifact) =>
      CountAtMostOne(ws, Entity(index), ObjectType, s, f);
    case Some(Location) =>
      CountAtMostOne(ws, Entity(index), LocationType, s, f);
    case None =>
  }

  /** In strict mode each vocabulary check does warn: a string `role`, an
      `entity_type`, an `object_type` or a `location_type` outside its
      vocabulary gets exactly one warning, citing the value, and a list of
      roles one per role outside the vocabulary. A `role` that is absent or
      neither a string nor a list is accepted silently. */
  lemma AttributeWarningsFire(strict: bool, entity: map<string, Json>, index: nat)
    requires "attributes" in entity && entity["attributes"].JObj?
    ensures
      var attributes := entity["attributes"].fields;
      EntityTypeOf(entity) == Some(Person) && !("role" in attributes && (attributes["role"].JStr? || attributes["role"].JArr?)) ==>
        AttributeWarnings(strict, entity, index) == []
    ensures
      var attributes := entity["attributes"].fields;
      var ws := AttributeWarnings(strict, entity, index);
      strict && EntityTypeOf(entity) == Some(Person) && "role" in attributes && attributes["role"].JStr? &&
      !InVocabulary(attributes["role"], PersonRoles) ==>
        Diag(Entity(index), Role, NonStandard(attributes["role"])) in ws
    ensures
      var attributes := entity["attributes"].fields;
      var ws := AttributeWarnings(strict, entity, index);
      strict && EntityTypeOf(entity) == Some(Organization) && "entity_type" in attributes &&
      !InVocabulary(attributes["entity_type"], OrganizationTypes) ==>
        Diag(Entity(index), OrganizationKind, NonStandard(attributes["entity_type"])) in ws
    ensures
      var attributes := entity["attributes"].fields;
      var ws := AttributeWarnings(strict, entity, index);
      strict && EntityTypeOf(entity) == Some(Artifact) && "object_type" in attributes &&
      !InVocabulary(attributes["object_type"], ArtifactTypes) ==>
        Diag(Entity(index), ObjectType, NonStandard(attributes["object_type"])) in ws
    ensures
      var attributes := entity["attributes"].fields;
      var ws := AttributeWarnings(strict, entity, index);
      strict && EntityTypeOf(entity) == Some(Location) && "location_type" in attributes &&
      !InVocabulary(attributes["location_type"], LocationTypes) ==>
        Diag(Entity(index), LocationType, NonStandard(attributes["location_type"])) in ws
    ensures
      var attributes := entity["attributes"].fields;
      var ws := AttributeWarnings(strict, entity, index);
      EntityTypeOf(entity) == Some(Person) && "role" in attributes && attributes["role"].JStr? ==>
        (CountAbout(ws, Entity(index), Role) == 1 <==> strict && !InVocabulary(attributes["role"], PersonRoles))
    ensures
      var attributes := entity["attributes"].fields;
      var ws := AttributeWarnings(strict, entity, index);
      EntityTypeOf(entity) == Some(Person) && "role" in attributes && attributes["role"].JArr? ==>
        CountAbout(ws, Entity(index), Role) ==
          if strict then NonStandardRoles(attributes["role"].items, |attributes["role"].items|) else 0
    ensures
      var attributes := entity["attributes"].fields;
      var ws := AttributeWarnings(strict, entity, index);
      EntityTypeOf(entity) == Some(Organization) ==>
        (CountAbout(ws, Entity(index), OrganizationKind) == 1 <==>
         strict && "entity_type" in attributes && !InVocabulary(attributes["entity_type"], OrganizationTypes))
    ensures
      var attributes := entity["attributes"].fields;
      var ws := AttributeWarnings(strict, entity, index);
      EntityTypeOf(entity) == Some(Artifact) ==>
        (CountAbout(ws, Entity(index), ObjectType) == 1 <==>
         strict && "object_type" in attributes && !InVocabulary(attributes["object_type"], ArtifactTypes))
    ensures
      var attributes := entity["attributes"].fields;
      var ws := AttributeWarnings(strict, entity, index);
      EntityTypeOf(entity) == Some(Location) ==>
        (CountAbout(ws, Entity(index), LocationType) == 1 <==>
         strict && "location_type" in attributes && !InVocabulary(attributes["location_type"], LocationTypes))
  {
    var attributes := entity["attributes"].fields;
    var ws := AttributeWarnings(strict, entity, index);
    match EntityTypeOf(entity)
    case Some(Person) =>
      if "role" in attributes && attributes["role"].JArr? {
        var roles := attributes["role"].items;
        RoleWarningsCount(strict, roles, |roles|, index, Entity(index), Role);
        RoleWarningsMembers(strict, roles, |roles|, index);
      } else {
        CountAtMostOne(ws, Entity(index), Role, Entity(index), Role);
      }
    case Some(Organization) =>
      CountAtMostOne(ws, Entity(index), OrganizationKind, Entity(index), OrganizationKind);
    case Some(Artifact) =>
      CountAtMostOne(ws, Entity(index), ObjectType, Entity(index), ObjectType);
    case Some(Location) =>
      CountAtMostOne(ws, Entity(index), LocationType, Entity(index), LocationType);
    case None =>
  }

  /** The warnings of one entity are about that entity; among them is a
      `full_name` warning exactly for a person without a name in non-strict
      mode, and in non-strict mode there is nothing else. */
  lemma EntityWarningsCount(strict: bool, entity: map<string, Json>, index: nat, s: Subject, f: Field)
    ensures s != Entity(index) ==> CountAbout(EntityWarnings(strict, entity, index), s, f) == 0
    ensures !strict && f != FullName ==> CountAbout(EntityWarnings(strict, entity, index), s, f) == 0
    ensures CountAbout(EntityWarnings(strict, entity, index), s, FullName) ==
      if s == Entity(index) && !strict && PersonWithoutFullName(entity) then 1 else 0
  {
    hide AttributeWarnings;
    var fw := FullNameWarnings(strict, entity, index);
    var hasAttributes := "attributes" in entity && entity["attributes"].JObj?;
    var w := if hasAttributes then AttributeWarnings(strict, entity, index) else [];
    CountConcat(fw, w, s, f);
    CountConcat(fw, w, s, FullName);
    CountAtMostOne(fw, Entity(index), FullName, s, f);
    CountAtMostOne(fw, Entity(index), FullName, s, FullName);
    if hasAttributes {
      AttributeWarningsCount(strict, entity, index, s, f);
      AttributeWarningsCount(strict, entity, index, s, FullName);
    }
    MissesFullNameMeans(entity);
  }

  // ---------------------------------------------------------------------
  // Relationships

  /** The errors of the check of `validate_relationship` that concerns `field`. */
  function RelationshipErrorsOn(rel: map<string, Json>, index: nat, canonicalIds: set<Json>, field: Field): seq<Diag>
  {
    match field
    case SourceId => ReferenceErrors(rel, "source_id", SourceId, index, canonicalIds)
    case TargetId => ReferenceErrors(rel, "target_id", TargetId, index, canonicalIds)
    case RelationType => RelationTypeErrors(rel, index)
    case Attributes => RelationshipAttributesErrors(rel, index)
    case _ => []
  }

  /** Each check of `validate_relationship` reports on its own field of the
      relationship at `index` and on nothing else. */
  lemma RelationshipErrorsCount(rel: map<string, Json>, index: nat, canonicalIds: set<Json>, s: Subject, f: Field)
    ensures CountAbout(ValidateRelationship(rel, index, canonicalIds), s, f) ==
      if s == Relationship(index) then |RelationshipErrorsOn(rel, index, canonicalIds, f)| else 0
  {
    hide ReferenceErrors, RelationTypeErrors, RelationshipAttributesErrors, CountAbout, AtMostOneAbout;
    CountFour(ReferenceErrors(rel, "source_id", SourceId, index, canonicalIds),
              ReferenceErrors(rel, "target_id", TargetId, index, canonicalIds),
              RelationTypeErrors(rel, index), RelationshipAttributesErrors(rel, index), Relationship(index),
              SourceId, TargetId, RelationType, Attributes, s, f);
  }

  /** `validate_relationship` reports one `source_id` (and one `target_id`)
      error exactly when the key is missing or its value is not among the
      collected ids, one `relation_type` error exactly when it is missing or
      outside the vocabulary, and one `attributes` error exactly when it is
      present and not an object; the strict flag plays no part. */
  lemma RelationshipChecks(rel: map<string, Json>, index: nat, canonicalIds: set<Json>)
    ensures CountAbout(ValidateRelationship(rel, index, canonicalIds), Relationship(index), SourceId) ==
      if "source_id" !in rel || SetKey(rel["source_id"]) !in canonicalIds then 1 else 0
    ensures CountAbout(ValidateRelationship(rel, index, canonicalIds), Relationship(index), TargetId) ==
      if "target_id" !in rel || SetKey(rel["target_id"]) !in canonicalIds then 1 else 0
    ensures CountAbout(ValidateRelationship(rel, index, canonicalIds), Relationship(index), RelationType) ==
      if "relation_type" !in rel || !InVocabulary(rel["relation_type"], ValidRelationshipTypes) then 1 else 0
    ensures CountAbout(ValidateRelationship(rel, index, canonicalIds), Relationship(index), Attributes) ==
      if "attributes" in rel && !rel["attributes"].JObj? then 1 else 0
  {
    RelationshipErrorsCount(rel, index, canonicalIds, Relationship(index), SourceId);
    RelationshipErrorsCount(rel, index, canonicalIds, Relationship(index), TargetId);
    RelationshipErrorsCount(rel, index, canonicalIds, Relationship(index), RelationType);
    RelationshipErrorsCount(rel, index, canonicalIds, Relationship(index), Attributes);
  }

  /** `validate_relationship` never reports on a `full_name`. */
  lemma RelationshipHasNoFullNameErrors(rel: map<string, Json>, index: nat, canonicalIds: set<Json>)
    ensures WithoutField(ValidateRelationship(rel, index, canonicalIds), FullName) ==
            ValidateRelationship(rel, index, canonicalIds)
  {
    hide ReferenceErrors, RelationTypeErrors, RelationshipAttributesErrors, AtMostOneAbout, WithoutField;
    var a := ReferenceErrors(rel, "source_id", SourceId, index, canonicalIds);
    var b := ReferenceErrors(rel, "target_id", TargetId, index, canonicalIds);
    var c, d := RelationTypeErrors(rel, index), RelationshipAttributesErrors(rel, index);
    WithoutFieldConcat(a + b + c, d, FullName);
    WithoutFieldConcat(a + b, c, FullName);
    WithoutFieldConcat(a, b, FullName);
    WithoutFieldAtMostOne(a, Relationship(index), SourceId, FullName);
    WithoutFieldAtMostOne(b, Relationship(index), TargetId, FullName);
    WithoutFieldAtMostOne(c, Relationship(index), RelationType, FullName);
    WithoutFieldAtMostOne(d, Relationship(index), Attributes, FullName);
  }

  /** The problem each reference error names: `Missing` for an absent key,
      `NotFound` with the value for a value outside the set. */
  lemma ReferenceDiagnostics(rel: map<string, Json>, index: nat, canonicalIds: set<Json>)
    ensures "source_id" !in rel ==>
      Diag(Relationship(index), SourceId, Missing) in ValidateRelationship(rel, index, canonicalIds)
    ensures "source_id" in rel && SetKey(rel["source_id"]) !in canonicalIds ==>
      Diag(Relationship(index), SourceId, NotFound(rel["source_id"])) in ValidateRelationship(rel, index, canonicalIds)
    ensures "target_id" !in rel ==>
      Diag(Relationship(index), TargetId, Missing) in ValidateRelationship(rel, index, canonicalIds)
    ensures "target_id" in rel && SetKey(rel["target_id"]) !in canonicalIds ==>
      Diag(Relationship(index), TargetId, NotFound(rel["target_id"])) in ValidateRelationship(rel, index, canonicalIds)
  {
    hide RelationTypeErrors, RelationshipAttributesErrors;
    var a := ReferenceErrors(rel, "source_id", SourceId, index, canonicalIds);
    var b := ReferenceErrors(rel, "target_id", TargetId, index, canonicalIds);
    assert a != [] ==> a[0] in ValidateRelationship(rel, index, canonicalIds);
    assert b != [] ==> b[0] in ValidateRelationship(rel, index, canonicalIds);
  }

  /** The problem the `relation_type` error names: `Missing` for an absent
      key, `Invalid` citing the value for one outside the vocabulary. */
  lemma RelationTypeDiagnostics(rel: map<string, Json>, index: nat, canonicalIds: set<Json>)
    ensures "relation_type" !in rel ==>
      Diag(Relationship(index), RelationType, Missing) in ValidateRelationship(rel, index, canonicalIds)
    ensures "relation_type" in rel && !InVocabulary(rel["relation_type"], ValidRelationshipTypes) ==>
      Diag(Relationship(index), RelationType, Invalid(rel["relation_type"])) in ValidateRelationship(rel, index, canonicalIds)
  {
    hide ReferenceErrors, RelationshipAttributesErrors;
    var c := RelationTypeErrors(rel, index);
    assert c != [] ==> c[0] in ValidateRelationship(rel, index, canonicalIds);
  }

  /** Every error of the relationship at `j` is among the errors of the
      loop over the first `n` relationships. */
  lemma {:induction false} RelationshipsErrorsInclude(relationships: seq<Json>, n: nat, canonicalIds: set<Json>, j: nat)
    requires n <= |relationships| && AllObjects(relationships) && j < n
    ensures forall d :: d in ValidateRelationship(relationships[j].fields, j, canonicalIds) ==>
                        d in RelationshipsErrors(relationships, n, canonicalIds)
  {
    hide ValidateRelationship;
    if j < n - 1 {
      RelationshipsErrorsInclude(relationships, n - 1, canonicalIds, j);
    }
  }

  // ---------------------------------------------------------------------
  // The set of canonical ids

  /** Some entity among the first `n` has a `canonical_id` that Python's `==`
      finds equal to `v`. */
  predicate SomeEntityHasId(entities: seq<Json>, n: nat, v: Json)
    requires n <= |entities| && AllObjects(entities)
  {
    exists k :: 0 <= k < n && "canonical_id" in entities[k].fields &&
      IsHashable(v) && IsHashable(entities[k].fields["canonical_id"]) &&
      PyEq(v, entities[k].fields["canonical_id"])
  }

  /** A value is in the collected set exactly when some entity carries an
      equal `canonical_id`, well-formed or not: collecting the ids does not
      depend on the id check. */
  lemma {:induction false} CollectIdsMembership(entities: seq<Json>, n: nat, v: Json)
    requires n <= |entities| && AllObjects(entities) && IsHashable(v)
    requires forall k :: 0 <= k < n && "canonical_id" in entities[k].fields ==>
      IsHashable(entities[k].fields["canonical_id"])
    ensures SetKey(v) in CollectIds(entities, n) <==> SomeEntityHasId(entities, n, v)
  {
    if n > 0 {
      CollectIdsMembership(entities, n - 1, v);
      var entity := entities[n - 1].fields;
      if "canonical_id" in entity {
        SetKeyMatchesEquality(v, entity["canonical_id"]);
      }
      if SomeEntityHasId(entities, n, v) && !SomeEntityHasId(entities, n - 1, v) {
        assert "canonical_id" in entity && PyEq(v, entity["canonical_id"]);
      }
    }
  }

  // ---------------------------------------------------------------------
  // From items to the document

  /** The errors of the entity loop about `subject` are those of the entity
      it names, and there are none about anything but the first `n` entities. */
  lemma {:induction false} EntitiesErrorsAbout(strict: bool, entities: seq<Json>, n: nat, subject: Subject, field: Field)
    requires n <= |entities| && AllObjects(entities)
    ensures CountAbout(EntitiesErrors(strict, entities, n), subject, field) ==
      if subject.Entity? && subject.index < n
      then CountAbout(EntityErrors(strict, entities[subject.index].fields, subject.index), subject, field)
      else 0
  {
    hide EntityErrors;
    if n > 0 {
      EntitiesErrorsAbout(strict, entities, n - 1, subject, field);
      CountConcat(EntitiesErrors(strict, entities, n - 1), EntityErrors(strict, entities[n - 1].fields, n - 1),
                  subject, field);
      EntityErrorsCount(strict, entities[n - 1].fields, n - 1, subject, field);
    }
  }

  /** Every error of the entity at `i` is among the errors of the loop over
      the first `n` entities. */
  lemma {:induction false} EntitiesErrorsInclude(strict: bool, entities: seq<Json>, n: nat, i: nat)
    requires n <= |entities| && AllObjects(entities) && i < n
    ensures forall d :: d in EntityErrors(strict, entities[i].fields, i) ==> d in EntitiesErrors(strict, entities, n)
  {
    hide EntityErrors;
    if i < n - 1 {
      EntitiesErrorsInclude(strict, entities, n - 1, i);
    }
  }

  /** The same for the warnings of the entity loop. */
  lemma {:induction false} EntitiesWarningsAbout(strict: bool, entities: seq<Json>, n: nat, subject: Subject, field: Field)
    requires n <= |entities| && AllObjects(entities)
    ensures CountAbout(EntitiesWarnings(strict, entities, n), subject, field) ==
      if subject.Entity? && subject.index < n
      then CountAbout(EntityWarnings(strict, entities[subject.index].fields, subject.index), subject, field)
      else 0
  {
    hide EntityWarnings;
    if n > 0 {
      EntitiesWarningsAbout(strict, entities, n - 1, subject, field);
      CountConcat(EntitiesWarnings(strict, entities, n - 1), EntityWarnings(strict, entities[n - 1].fields, n - 1),
                  subject, field);
      EntityWarningsCount(strict, entities[n - 1].fields, n - 1, subject, field);
    }
  }

  /** The same for the relationship loop. */
  lemma {:induction false} RelationshipsErrorsAbout(relationships: seq<Json>, n: nat, canonicalIds: set<Json>,
                                                    subject: Subject, field: Field)
    requires n <= |relationships| && AllObjects(relationships)
    ensures CountAbout(RelationshipsErrors(relationships, n, canonicalIds), subject, field) ==
      if subject.Relationship? && subject.index < n
      then CountAbout(ValidateRelationship(relationships[subject.index].fields, subject.index, canonicalIds), subject, field)
      else 0
  {
    hide ValidateRelationship;
    if n > 0 {
      RelationshipsErrorsAbout(relationships, n - 1, canonicalIds, subject, field);
      CountConcat(RelationshipsErrors(relationships, n - 1, canonicalIds),
                  ValidateRelationship(relationships[n - 1].fields, n - 1, canonicalIds), subject, field);
      RelationshipErrorsCount(relationships[n - 1].fields, n - 1, canonicalIds, subject, field);
    }
  }

  /** The entity loop in strict mode, with its `full_name` errors filtered
      out, is the entity loop in non-strict mode. */
  lemma {:induction false} EntitiesStrictErrorsExtendNonStrict(entities: seq<Json>, n: nat)
    requires n <= |entities| && AllObjects(entities)
    ensures WithoutField(EntitiesErrors(true, entities, n), FullName) == EntitiesErrors(false, entities, n)
  {
    hide EntityErrors, WithoutField;
    if n > 0 {
      EntitiesStrictErrorsExtendNonStrict(entities, n - 1);
      WithoutFieldConcat(EntitiesErrors(true, entities, n - 1), EntityErrors(true, entities[n - 1].fields, n - 1),
                         FullName);
      EntityStrictErrorsExtendNonStrict(entities[n - 1].fields, n - 1);
    }
  }

  /** The relationship loop reports on no `full_name`. */
  lemma {:induction false} RelationshipsHaveNoFullNameErrors(relationships: seq<Json>, n: nat, canonicalIds: set<Json>)
    requires n <= |relationships| && AllObjects(relationships)
    ensures WithoutField(RelationshipsErrors(relationships, n, canonicalIds), FullName) ==
            RelationshipsErrors(relationships, n, canonicalIds)
  {
    hide ValidateRelationship, WithoutField;
    if n > 0 {
      RelationshipsHaveNoFullNameErrors(relationships, n - 1, canonicalIds);
      WithoutFieldConcat(RelationshipsErrors(relationships, n - 1, canonicalIds),
                         ValidateRelationship(relationships[n - 1].fields, n - 1, canonicalIds), FullName);
      RelationshipHasNoFullNameErrors(relationships[n - 1].fields, n - 1, canonicalIds);
    }
  }

  /** The errors one `validate_data` call appends about a given subject and
      field, for a document that passes the shape checks: an entity's come
      from `validate_entity`, a relationship's from `validate_relationship`
      against the ids of all entities, and the document's from the metadata
      check. */
  lemma DataErrorsAbout(strict: bool, data: Json, subject: Subject, field: Field)
    requires ItemsAreObjects(data) && HasContainers(data)
    ensures
      var entities := EntitiesValue(data).items;
      var relationships := RelationshipsValue(data).items;
      CountAbout(DataErrors(strict, data), subject, field) ==
        if subject.Entity? then
          (if subject.index < |entities|
           then CountAbout(EntityErrors(strict, entities[subject.index].fields, subject.index), subject, field)
           else 0)
        else if subject.Relationship? then
          (if subject.index < |relationships|
           then CountAbout(ValidateRelationship(relationships[subject.index].fields, subject.index,
                                                CollectIds(entities, |entities|)), subject, field)
           else 0)
        else CountAbout(MetadataErrors(MetadataValue(data)), subject, field)
  {
    hide EntityErrors, ValidateRelationship;
    var entities := EntitiesValue(data).items;
    var relationships := RelationshipsValue(data).items;
    var ids := CollectIds(entities, |entities|);
    var e := EntitiesErrors(strict, entities, |entities|);
    var r := RelationshipsErrors(relationships, |relationships|, ids);
    var m := MetadataErrors(MetadataValue(data));
    CountConcat(e, r, subject, field);
    CountConcat(e + r, m, subject, field);
    EntitiesErrorsAbout(strict, entities, |entities|, subject, field);
    RelationshipsErrorsAbout(relationships, |relationships|, ids, subject, field);
    CountAtMostOne(m, Document, Metadata, subject, field);
  }

  /** The warnings of a `validate_data` call, for a document that passes the
      shape checks, about a given subject and field. */
  lemma DataWarningsAbout(strict: bool, data: Json, subject: Subject, field: Field)
    requires ItemsAreObjects(data) && HasContainers(data)
    ensures
      var entities := EntitiesValue(data).items;
      CountAbout(DataWarnings(strict, data), subject, field) ==
        if subject.Entity? && subject.index < |entities|
        then CountAbout(EntityWarnings(strict, entities[subject.index].fields, subject.index), subject, field)
        else 0
  {
    hide EntityWarnings;
    var entities := EntitiesValue(data).items;
    EntitiesWarningsAbout(strict, entities, |entities|, subject, field);
  }

  // ---------------------------------------------------------------------
  // Document-level properties

  /** A document on which the source runs to the end and which passes the
      shape checks. */
  predicate WellShaped(data: Json)
  {
    DocumentIsCheckable(data) && HasContainers(data)
  }

  /** Referential integrity: the relationship at `j` gets one `source_id`
      error exactly when it has no `source_id` or no entity carries an equal
      `canonical_id`, and none otherwise; likewise for `target_id`. An
      entity with a malformed id still counts as carrying it. */
  lemma ReferentialIntegrity(strict: bool, data: Json, j: nat)
    requires WellShaped(data) && j < |RelationshipsValue(data).items|
    ensures
      var entities := EntitiesValue(data).items;
      var rel := RelationshipsValue(data).items[j].fields;
      CountAbout(DataErrors(strict, data), Relationship(j), SourceId) ==
        (if "source_id" !in rel || !SomeEntityHasId(entities, |entities|, rel["source_id"]) then 1 else 0)
    ensures
      var entities := EntitiesValue(data).items;
      var rel := RelationshipsValue(data).items[j].fields;
      CountAbout(DataErrors(strict, data), Relationship(j), TargetId) ==
        (if "target_id" !in rel || !SomeEntityHasId(entities, |entities|, rel["target_id"]) then 1 else 0)
  {
    var entities := EntitiesValue(data).items;
    var rel := RelationshipsValue(data).items[j].fields;
    var ids := CollectIds(entities, |entities|);
    assert RelationshipIsCheckable(rel);
    forall k | 0 <= k < |entities| && "canonical_id" in entities[k].fields
      ensures IsHashable(entities[k].fields["canonical_id"])
    {
      assert EntityIsCheckable(entities[k].fields);
    }
    DataErrorsAbout(strict, data, Relationship(j), SourceId);
    DataErrorsAbout(strict, data, Relationship(j), TargetId);
    RelationshipChecks(rel, j, ids);
    if "source_id" in rel {
      CollectIdsMembership(entities, |entities|, rel["source_id"]);
    }
    if "target_id" in rel {
      CollectIdsMembership(entities, |entities|, rel["target_id"]);
    }
  }

  /** What the two reference errors of relationship `j` say: a missing key
      is reported as missing, and a value that no entity carries is reported
      as not found, citing that value. */
  lemma ReferenceProblems(strict: bool, data: Json, j: nat)
    requires WellShaped(data) && j < |RelationshipsValue(data).items|
    ensures
      var entities := EntitiesValue(data).items;
      var rel := RelationshipsValue(data).items[j].fields;
      ("source_id" !in rel ==> Diag(Relationship(j), SourceId, Missing) in DataErrors(strict, data)) &&
      ("source_id" in rel && !SomeEntityHasId(entities, |entities|, rel["source_id"]) ==>
         Diag(Relationship(j), SourceId, NotFound(rel["source_id"])) in DataErrors(strict, data))
    ensures
      var entities := EntitiesValue(data).items;
      var rel := RelationshipsValue(data).items[j].fields;
      ("target_id" !in rel ==> Diag(Relationship(j), TargetId, Missing) in DataErrors(strict, data)) &&
      ("target_id" in rel && !SomeEntityHasId(entities, |entities|, rel["target_id"]) ==>
         Diag(Relationship(j), TargetId, NotFound(rel["target_id"])) in DataErrors(strict, data))
  {
    hide EntityErrors, ValidateRelationship, ReferenceErrors, CanonicalIdErrors, TypeErrors, FullNameErrors,
         MentionsErrors, EntityAttributesErrors, RelationTypeErrors, RelationshipAttributesErrors;
    var entities := EntitiesValue(data).items;
    var relationships := RelationshipsValue(data).items;
    var rel := relationships[j].fields;
    var ids := CollectIds(entities, |entities|);
    ReferenceDiagnostics(rel, j, ids);
    assert RelationshipIsCheckable(rel);
    forall k | 0 <= k < |entities| && "canonical_id" in entities[k].fields
      ensures IsHashable(entities[k].fields["canonical_id"])
    {
      assert EntityIsCheckable(entities[k].fields);
    }
    RelationshipsErrorsInclude(relationships, |relationships|, ids, j);
    if "source_id" in rel {
      CollectIdsMembership(entities, |entities|, rel["source_id"]);
    }
    if "target_id" in rel {
      CollectIdsMembership(entities, |entities|, rel["target_id"]);
    }
  }

  /** The `relation_type` error of relationship `j` in the document:
      `Missing` for an absent key, `Invalid` citing the value otherwise. */
  lemma RelationTypeProblems(strict: bool, data: Json, j: nat)
    requires ItemsAreObjects(data) && HasContainers(data) && j < |RelationshipsValue(data).items|
    ensures
      var rel := RelationshipsValue(data).items[j].fields;
      ("relation_type" !in rel ==> Diag(Relationship(j), RelationType, Missing) in DataErrors(strict, data)) &&
      ("relation_type" in rel && !InVocabulary(rel["relation_type"], ValidRelationshipTypes) ==>
         Diag(Relationship(j), RelationType, Invalid(rel["relation_type"])) in DataErrors(strict, data))
  {
    hide EntityErrors, ValidateRelationship, ReferenceErrors, RelationTypeErrors, RelationshipAttributesErrors;
    var entities := EntitiesValue(data).items;
    var relationships := RelationshipsValue(data).items;
    var ids := CollectIds(entities, |entities|);
    RelationTypeDiagnostics(relationships[j].fields, j, ids);
    RelationshipsErrorsInclude(relationships, |relationships|, ids, j);
  }

  /** What the errors of entity `i` in the document say: which problem each
      check names and which value it cites. */
  lemma EntityProblems(strict: bool, data: Json, i: nat)
    requires ItemsAreObjects(data) && HasContainers(data) && i < |EntitiesValue(data).items|
    ensures
      var entity := EntitiesValue(data).items[i].fields;
      var errs := DataErrors(strict, data);
      ("canonical_id" !in entity ==> Diag(Entity(i), CanonicalId, Missing) in errs) &&
      ("canonical_id" in entity && (!entity["canonical_id"].JStr? || entity["canonical_id"].s == "") ==>
         Diag(Entity(i), CanonicalId, NotNonEmptyString) in errs) &&
      ("canonical_id" in entity && entity["canonical_id"].JStr? && entity["canonical_id"].s != "" &&
       !IsValidCanonicalId(entity["canonical_id"].s) ==>
         Diag(Entity(i), CanonicalId, BadFormat(entity["canonical_id"].s)) in errs)
    ensures
      var entity := EntitiesValue(data).items[i].fields;
      var errs := DataErrors(strict, data);
      ("type" !in entity ==> Diag(Entity(i), Type, Missing) in errs) &&
      ("type" in entity && !InVocabulary(entity["type"], ValidEntityTypes) ==>
         Diag(Entity(i), Type, Invalid(entity["type"])) in errs)
    ensures
      var entity := EntitiesValue(data).items[i].fields;
      var errs := DataErrors(strict, data);
      ("mentions" in entity && !entity["mentions"].JArr? ==> Diag(Entity(i), Mentions, NotArray) in errs) &&
      ("mentions" in entity && entity["mentions"].JArr? && !AllStrings(entity["mentions"].items) ==>
         Diag(Entity(i), Mentions, NotAllStrings) in errs) &&
      ("attributes" in entity && !entity["attributes"].JObj? ==> Diag(Entity(i), Attributes, NotObject) in errs)
  {
    hide EntityErrors, ValidateRelationship, CanonicalIdErrors, TypeErrors, FullNameErrors,
         MentionsErrors, EntityAttributesErrors, IsValidCanonicalId;
    var entities := EntitiesValue(data).items;
    EntityDiagnostics(strict, entities[i].fields, i);
    EntitiesErrorsInclude(strict, entities, |entities|, i);
  }

  /** `if metadata:` then `validate_metadata`: the document gets a
      `metadata` error exactly when the value is truthy and not an object,
      so an empty string, zero, false, null or an empty list passes. */
  lemma MetadataCheck(strict: bool, data: Json)
    requires ItemsAreObjects(data)
    ensures CountAbout(DataErrors(strict, data), Document, Metadata) ==
      if HasContainers(data) && Truthy(MetadataValue(data)) && !MetadataValue(data).JObj? then 1 else 0
  {
    if HasContainers(data) {
      DataErrorsAbout(strict, data, Document, Metadata);
      CountAtMostOne(MetadataErrors(MetadataValue(data)), Document, Metadata, Document, Metadata);
    }
  }

  /** Every entity of the document has at most one error per field, and no
      `canonical_id` error exactly when its id is a good one. */
  lemma DocumentEntityErrors(strict: bool, data: Json, i: nat, field: Field)
    requires ItemsAreObjects(data) && HasContainers(data) && i < |EntitiesValue(data).items|
    ensures CountAbout(DataErrors(strict, data), Entity(i), field) <= 1
    ensures CountAbout(DataErrors(strict, data), Entity(i), CanonicalId) == 0 <==>
      HasGoodCanonicalId(EntitiesValue(data).items[i].fields)
  {
    var entity := EntitiesValue(data).items[i].fields;
    DataErrorsAbout(strict, data, Entity(i), field);
    DataErrorsAbout(strict, data, Entity(i), CanonicalId);
    EntityErrorsPerField(strict, entity, i, field);
    EntityErrorsPerField(strict, entity, i, CanonicalId);
  }

  /** A person without a `full_name` is reported once: as an error in strict
      mode and as a warning otherwise. */
  lemma FullNameSeverity(strict: bool, data: Json, i: nat)
    requires ItemsAreObjects(data) && HasContainers(data) && i < |EntitiesValue(data).items|
    ensures
      var entity := EntitiesValue(data).items[i].fields;
      CountAbout(DataErrors(strict, data), Entity(i), FullName) ==
        (if strict && PersonWithoutFullName(entity) then 1 else 0)
    ensures
      var entity := EntitiesValue(data).items[i].fields;
      CountAbout(DataWarnings(strict, data), Entity(i), FullName) ==
        (if !strict && PersonWithoutFullName(entity) then 1 else 0)
  {
    var entity := EntitiesValue(data).items[i].fields;
    DataErrorsAbout(strict, data, Entity(i), FullName);
    EntityErrorsPerField(strict, entity, i, FullName);
    DataWarningsAbout(strict, data, Entity(i), FullName);
    EntityWarningsCount(strict, entity, i, Entity(i), FullName);
  }

  /** The strict flag changes nothing but the `full_name` check among the
      errors: the reference, relation-type, id, type, mentions, attribute
      and metadata checks report equally many errors in both modes. */
  lemma StrictOnlyChangesFullName(data: Json, subject: Subject, field: Field)
    requires ItemsAreObjects(data) && field != FullName
    ensures CountAbout(DataErrors(true, data), subject, field) == CountAbout(DataErrors(false, data), subject, field)
  {
    if HasContainers(data) {
      DataErrorsAbout(true, data, subject, field);
      DataErrorsAbout(false, data, subject, field);
      if subject.Entity? && subject.index < |EntitiesValue(data).items| {
        EntityErrorsStrictOnlyFullName(EntitiesValue(data).items[subject.index].fields, subject.index, subject, field);
      }
    }
  }

  /** Strict mode reports every error non-strict mode does, in the same
      order, and adds only `full_name` errors: filtering those out of the
      strict list gives the non-strict list. */
  lemma StrictErrorsExtendNonStrict(data: Json)
    requires ItemsAreObjects(data)
    ensures WithoutField(DataErrors(true, data), FullName) == DataErrors(false, data)
  {
    hide EntityErrors, ValidateRelationship, WithoutField;
    if HasContainers(data) {
      var entities := EntitiesValue(data).items;
      var relationships := RelationshipsValue(data).items;
      var ids := CollectIds(entities, |entities|);
      var e := EntitiesErrors(true, entities, |entities|);
      var r := RelationshipsErrors(relationships, |relationships|, ids);
      var m := MetadataErrors(MetadataValue(data));
      WithoutFieldConcat(e + r, m, FullName);
      WithoutFieldConcat(e, r, FullName);
      EntitiesStrictErrorsExtendNonStrict(entities, |entities|);
      RelationshipsHaveNoFullNameErrors(relationships, |relationships|, ids);
      WithoutFieldAtMostOne(m, Document, Metadata, FullName);
    }
  }

  /** In non-strict mode the only warnings are missing `full_name`s: the
      attribute vocabularies are not consulted. */
  lemma NonStrictWarningsOnlyFullName(data: Json, subject: Subject, field: Field)
    requires ItemsAreObjects(data) && field != FullName
    ensures CountAbout(DataWarnings(false, data), subject, field) == 0
  {
    if HasContainers(data) {
      DataWarningsAbout(false, data, subject, field);
      var entities := EntitiesValue(data).items;
      if subject.Entity? && subject.index < |entities| {
        EntityWarningsCount(false, entities[subject.index].fields, subject.index, subject, field);
      }
    }
  }

  /** An object without `entities`, `relationships` and `metadata` has
      nothing to report, whatever other keys it has: the three defaults are
      an empty list, an empty list and an empty (falsy) object. */
  lemma EmptyDocumentIsClean(strict: bool, fields: map<string, Json>)
    requires "entities" !in fields && "relationships" !in fields && "metadata" !in fields
    ensures DataErrors(strict, JObj(fields)) == []
    ensures DataWarnings(strict, JObj(fields)) == []
  {
    assert EntitiesValue(JObj(fields)).items == [];
    assert RelationshipsValue(JObj(fields)).items == [];
  }
}

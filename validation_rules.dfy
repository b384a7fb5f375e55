/** The rules of the validator as pure functions of the input and the strict
    flag. `IsValidCanonicalId` and `ValidateRelationship` are the source's own
    pure checks; the other functions give, for each check the validator object
    runs, the diagnostics that check appends, and they are the specification
    the methods of `AntiquitiesDataValidator` are proved against. */
module ValidationRules {
  import opened JsonValues
  import opened Vocabulary
  import opened Diagnostics

  // ---------------------------------------------------------------------
  // Canonical ids

  /** A character accepted in a canonical id: `c.islower() or c.isdigit() or
      c == '_'`, for ASCII characters. */
  predicate IsIdChar(c: char)
  {
    'a' <= c <= 'z' || '0' <= c <= '9' || c == '_'
  }

  /** The `all(...)` scan over the characters of an id, front to back. */
  predicate AllIdChars(cid: string)
  {
    cid == [] || (IsIdChar(cid[0]) && AllIdChars(cid[1..]))
  }

  lemma {:induction false} AllIdCharsMeans(cid: string)
    ensures AllIdChars(cid) <==> forall k :: 0 <= k < |cid| ==> IsIdChar(cid[k])
  {
    if cid != [] {
      AllIdCharsMeans(cid[1..]);
      assert forall k :: 1 <= k < |cid| ==> cid[k] == cid[1..][k - 1];
    }
  }

  /** `_is_valid_canonical_id`: every character is an id character, and the
      id neither starts nor ends with an underscore. */
  predicate IsValidCanonicalId(cid: string)
  {
    if !AllIdChars(cid) then false
    else if "_" <= cid || (|cid| >= 1 && cid[|cid| - 1..] == "_") then false
    else true
  }

  /** What the format check accepts, stated character by character. */
  lemma CanonicalIdFormat(cid: string)
    ensures IsValidCanonicalId(cid) <==>
      (forall k :: 0 <= k < |cid| ==> IsIdChar(cid[k])) &&
      (cid != [] ==> cid[0] != '_' && cid[|cid| - 1] != '_')
  {
    AllIdCharsMeans(cid);
    assert "_" <= cid <==> cid != [] && cid[0] == '_';
    if |cid| >= 1 {
      assert cid[|cid| - 1..] == [cid[|cid| - 1]];
    }
  }

  // ---------------------------------------------------------------------
  // Entities

  /** `entity.get("type")` compared against the four type names. */
  function EntityTypeOf(entity: map<string, Json>): (t: Option<EntityType>)
    ensures t.Some? ==> "type" in entity && entity["type"] == JStr(t.value.Name())
    ensures t.None? ==> "type" !in entity || !InVocabulary(entity["type"], ValidEntityTypes)
  {
    if "type" in entity && entity["type"].JStr? then ParseEntityType(entity["type"].s) else None
  }

  function CanonicalIdErrors(entity: map<string, Json>, index: nat): (errs: seq<Diag>)
    ensures AtMostOneAbout(errs, Entity(index), CanonicalId)
  {
    if "canonical_id" !in entity then
      [Diag(Entity(index), CanonicalId, Missing)]
    else if !entity["canonical_id"].JStr? || entity["canonical_id"].s == "" then
      [Diag(Entity(index), CanonicalId, NotNonEmptyString)]
    else if !IsValidCanonicalId(entity["canonical_id"].s) then
      [Diag(Entity(index), CanonicalId, BadFormat(entity["canonical_id"].s))]
    else
      []
  }

  function TypeErrors(entity: map<string, Json>, index: nat): (errs: seq<Diag>)
    ensures AtMostOneAbout(errs, Entity(index), Type)
  {
    if "type" !in entity then
      [Diag(Entity(index), Type, Missing)]
    else if !InVocabulary(entity["type"], ValidEntityTypes) then
      [Diag(Entity(index), Type, Invalid(entity["type"]))]
    else
      []
  }

  /** A PERSON entity that has no `full_name` key. */
  predicate MissesFullName(entity: map<string, Json>)
  {
    EntityTypeOf(entity) == Some(Person) && "full_name" !in entity
  }

  /** In strict mode a missing `full_name` is an error ... */
  function FullNameErrors(strict: bool, entity: map<string, Json>, index: nat): (errs: seq<Diag>)
    ensures AtMostOneAbout(errs, Entity(index), FullName)
  {
    if MissesFullName(entity) && strict then [Diag(Entity(index), FullName, Missing)] else []
  }

  /** ... and otherwise a warning. */
  function FullNameWarnings(strict: bool, entity: map<string, Json>, index: nat): (ws: seq<Diag>)
    ensures AtMostOneAbout(ws, Entity(index), FullName)
  {
    if MissesFullName(entity) && !strict then [Diag(Entity(index), FullName, Missing)] else []
  }

  predicate AllStrings(items: seq<Json>)
  {
    forall k :: 0 <= k < |items| ==> items[k].JStr?
  }

  function MentionsErrors(entity: map<string, Json>, index: nat): (errs: seq<Diag>)
    ensures AtMostOneAbout(errs, Entity(index), Mentions)
  {
    if "mentions" !in entity then
      []
    else if !entity["mentions"].JArr? then
      [Diag(Entity(index), Mentions, NotArray)]
    else if !AllStrings(entity["mentions"].items) then
      [Diag(Entity(index), Mentions, NotAllStrings)]
    else
      []
  }

  function EntityAttributesErrors(entity: map<string, Json>, index: nat): (errs: seq<Diag>)
    ensures AtMostOneAbout(errs, Entity(index), Attributes)
  {
    if "attributes" in entity && !entity["attributes"].JObj? then
      [Diag(Entity(index), Attributes, NotObject)]
    else
      []
  }

  /** The list `validate_entity` returns: its checks in the source's order. */
  function EntityErrors(strict: bool, entity: map<string, Json>, index: nat): (errs: seq<Diag>)
    ensures |errs| <= 5
  {
    CanonicalIdErrors(entity, index) + TypeErrors(entity, index) +
    FullNameErrors(strict, entity, index) + MentionsErrors(entity, index) +
    EntityAttributesErrors(entity, index)
  }

  /** The warnings `validate_entity` appends: a missing `full_name` first,
      then those of `_validate_attributes` when `attributes` is an object. */
  function EntityWarnings(strict: bool, entity: map<string, Json>, index: nat): (ws: seq<Diag>)
    ensures !strict ==> |ws| <= 1
  {
    FullNameWarnings(strict, entity, index) +
    (if "attributes" in entity && entity["attributes"].JObj? then AttributeWarnings(strict, entity, index) else [])
  }

  // ---------------------------------------------------------------------
  // Type-specific attributes

  function RoleWarning(strict: bool, role: Json, index: nat): (ws: seq<Diag>)
    ensures AtMostOneAbout(ws, Entity(index), Role)
  {
    if !InVocabulary(role, PersonRoles) && strict then [Diag(Entity(index), Role, NonStandard(role))] else []
  }

  /** The warnings of the loop over the first `n` roles of a list. */
  function RoleWarnings(strict: bool, roles: seq<Json>, n: nat, index: nat): (ws: seq<Diag>)
    requires n <= |roles|
    ensures |ws| <= n
    ensures !strict ==> ws == []
  {
    if n == 0 then []
    else RoleWarnings(strict, roles, n - 1, index) + RoleWarning(strict, roles[n - 1], index)
  }

  /** The check of a single-valued sub-field (`entity_type`, `object_type`,
      `location_type`) against its vocabulary. */
  function KindWarning(strict: bool, attributes: map<string, Json>, key: string,
                       vocabulary: set<string>, field: Field, index: nat): (ws: seq<Diag>)
    ensures AtMostOneAbout(ws, Entity(index), field)
  {
    if key in attributes && !InVocabulary(attributes[key], vocabulary) && strict then
      [Diag(Entity(index), field, NonStandard(attributes[key]))]
    else
      []
  }

  /** The warnings `_validate_attributes` appends. */
  function AttributeWarnings(strict: bool, entity: map<string, Json>, index: nat): (ws: seq<Diag>)
    requires "attributes" in entity && entity["attributes"].JObj?
    ensures !strict ==> ws == []
  {
    var attributes := entity["attributes"].fields;
    match EntityTypeOf(entity)
    case Some(Person) =>
      if "role" !in attributes then []
      else if attributes["role"].JStr? then RoleWarning(strict, attributes["role"], index)
      else if attributes["role"].JArr? then RoleWarnings(strict, attributes["role"].items, |attributes["role"].items|, index)
      else []
    case Some(Organization) =>
      KindWarning(strict, attributes, "entity_type", OrganizationTypes, OrganizationKind, index)
    case Some(Artifact) =>
      KindWarning(strict, attributes, "object_type", ArtifactTypes, ObjectType, index)
    case Some(Location) =>
      KindWarning(strict, attributes, "location_type", LocationTypes, LocationType, index)
    case None => []
  }

  // ---------------------------------------------------------------------
  // Relationships

  function ReferenceErrors(rel: map<string, Json>, key: string, field: Field,
                           index: nat, canonicalIds: set<Json>): (errs: seq<Diag>)
    ensures AtMostOneAbout(errs, Relationship(index), field)
  {
    if key !in rel then [Diag(Relationship(index), field, Missing)]
    else if SetKey(rel[key]) !in canonicalIds then [Diag(Relationship(index), field, NotFound(rel[key]))]
    else []
  }

  function RelationTypeErrors(rel: map<string, Json>, index: nat): (errs: seq<Diag>)
    ensures AtMostOneAbout(errs, Relationship(index), RelationType)
  {
    if "relation_type" !in rel then
      [Diag(Relationship(index), RelationType, Missing)]
    else if !InVocabulary(rel["relation_type"], ValidRelationshipTypes) then
      [Diag(Relationship(index), RelationType, Invalid(rel["relation_type"]))]
    else
      []
  }

  function RelationshipAttributesErrors(rel: map<string, Json>, index: nat): (errs: seq<Diag>)
    ensures AtMostOneAbout(errs, Relationship(index), Attributes)
  {
    if "attributes" in rel && !rel["attributes"].JObj? then [Diag(Relationship(index), Attributes, NotObject)] else []
  }

  /** `validate_relationship`: it reads neither the strict flag nor the
      validator's lists, and returns a fresh list of errors for the
      relationship at `index`, given the set of collected canonical ids. */
  function ValidateRelationship(rel: map<string, Json>, index: nat, canonicalIds: set<Json>): (errs: seq<Diag>)
    ensures |errs| <= 4
  {
    ReferenceErrors(rel, "source_id", SourceId, index, canonicalIds) +
    ReferenceErrors(rel, "target_id", TargetId, index, canonicalIds) +
    RelationTypeErrors(rel, index) +
    RelationshipAttributesErrors(rel, index)
  }

  // ---------------------------------------------------------------------
  // The document

  predicate AllObjects(items: seq<Json>)
  {
    forall k :: 0 <= k < |items| ==> items[k].JObj?
  }

  /** The errors of the loop over the first `n` entities, in document order. */
  function EntitiesErrors(strict: bool, entities: seq<Json>, n: nat): (errs: seq<Diag>)
    requires n <= |entities| && AllObjects(entities)
  {
    if n == 0 then []
    else EntitiesErrors(strict, entities, n - 1) + EntityErrors(strict, entities[n - 1].fields, n - 1)
  }

  /** The warnings of the loop over the first `n` entities, in document order. */
  function EntitiesWarnings(strict: bool, entities: seq<Json>, n: nat): (ws: seq<Diag>)
    requires n <= |entities| && AllObjects(entities)
  {
    if n == 0 then []
    else EntitiesWarnings(strict, entities, n - 1) + EntityWarnings(strict, entities[n - 1].fields, n - 1)
  }

  /** The set `canonical_ids` the loop over the first `n` entities builds:
      the value under `canonical_id` of every entity that has the key,
      well-formed or not. */
  function CollectIds(entities: seq<Json>, n: nat): (ids: set<Json>)
    requires n <= |entities| && AllObjects(entities)
    ensures |ids| <= n
  {
    if n == 0 then {}
    else
      var entity := entities[n - 1].fields;
      CollectIds(entities, n - 1) +
      (if "canonical_id" in entity then {SetKey(entity["canonical_id"])} else {})
  }

  /** The errors of the loop over the first `n` relationships, in document order. */
  function RelationshipsErrors(relationships: seq<Json>, n: nat, canonicalIds: set<Json>): (errs: seq<Diag>)
    requires n <= |relationships| && AllObjects(relationships)
  {
    if n == 0 then []
    else
      RelationshipsErrors(relationships, n - 1, canonicalIds) +
      ValidateRelationship(relationships[n - 1].fields, n - 1, canonicalIds)
  }

  /** `if metadata: self.validate_metadata(metadata)`. */
  function MetadataErrors(metadata: Json): (errs: seq<Diag>)
    ensures AtMostOneAbout(errs, Document, Metadata)
  {
    if Truthy(metadata) && !metadata.JObj? then [Diag(Document, Metadata, NotObject)] else []
  }

  function EntitiesValue(data: Json): Json
    requires data.JObj?
  {
    Get(data.fields, "entities", JArr([]))
  }

  function RelationshipsValue(data: Json): Json
    requires data.JObj?
  {
    Get(data.fields, "relationships", JArr([]))
  }

  function MetadataValue(data: Json): Json
    requires data.JObj?
  {
    Get(data.fields, "metadata", JObj(map[]))
  }

  /** The document passes the fail-fast shape checks. */
  predicate HasContainers(data: Json)
  {
    data.JObj? && EntitiesValue(data).JArr? && RelationshipsValue(data).JArr?
  }

  /** Every entity and every relationship of a well-shaped document is an object. */
  predicate ItemsAreObjects(data: Json)
  {
    HasContainers(data) ==>
      AllObjects(EntitiesValue(data).items) && AllObjects(RelationshipsValue(data).items)
  }

  /** The errors one `validate_data` call appends. */
  function DataErrors(strict: bool, data: Json): (errs: seq<Diag>)
    requires ItemsAreObjects(data)
    ensures !HasContainers(data) ==> |errs| == 1 && errs[0].subject == Document
  {
    if !data.JObj? then [Diag(Document, Root, NotObject)]
    else if !EntitiesValue(data).JArr? then [Diag(Document, Entities, NotArray)]
    else if !RelationshipsValue(data).JArr? then [Diag(Document, Relationships, NotArray)]
    else
      var entities := EntitiesValue(data).items;
      var relationships := RelationshipsValue(data).items;
      EntitiesErrors(strict, entities, |entities|) +
      RelationshipsErrors(relationships, |relationships|, CollectIds(entities, |entities|)) +
      MetadataErrors(MetadataValue(data))
  }

  /** The warnings one `validate_data` call appends. */
  function DataWarnings(strict: bool, data: Json): (ws: seq<Diag>)
    requires ItemsAreObjects(data)
    ensures !HasContainers(data) ==> ws == []
  {
    if HasContainers(data) then EntitiesWarnings(strict, EntitiesValue(data).items, |EntitiesValue(data).items|) else []
  }

  // ---------------------------------------------------------------------
  // Inputs on which the source runs to the end: the values it tests
  // against a set are hashable, and entities and relationships are objects.

  predicate AttributesAreCheckable(entity: map<string, Json>)
  {
    "attributes" in entity && entity["attributes"].JObj? ==>
      var attributes := entity["attributes"].fields;
      match EntityTypeOf(entity)
      case Some(Person) =>
        "role" in attributes && attributes["role"].JArr? ==>
          forall k :: 0 <= k < |attributes["role"].items| ==> IsHashable(attributes["role"].items[k])
      case Some(Organization) => "entity_type" in attributes ==> IsHashable(attributes["entity_type"])
      case Some(Artifact) => "object_type" in attributes ==> IsHashable(attributes["object_type"])
      case Some(Location) => "location_type" in attributes ==> IsHashable(attributes["location_type"])
      case None => true
  }

  predicate EntityIsCheckable(entity: map<string, Json>)
  {
    ("canonical_id" in entity ==> IsHashable(entity["canonical_id"])) &&
    ("type" in entity ==> IsHashable(entity["type"])) &&
    AttributesAreCheckable(entity)
  }

  predicate RelationshipIsCheckable(rel: map<string, Json>)
  {
    ("source_id" in rel ==> IsHashable(rel["source_id"])) &&
    ("target_id" in rel ==> IsHashable(rel["target_id"])) &&
    ("relation_type" in rel ==> IsHashable(rel["relation_type"]))
  }

  predicate DocumentIsCheckable(data: Json)
  {
    ItemsAreObjects(data) &&
    (HasContainers(data) ==>
      var entities := EntitiesValue(data).items;
      var relationships := RelationshipsValue(data).items;
      (forall k :: 0 <= k < |entities| ==> EntityIsCheckable(entities[k].fields)) &&
      (forall k :: 0 <= k < |relationships| ==> RelationshipIsCheckable(relationships[k].fields)))
  }
}

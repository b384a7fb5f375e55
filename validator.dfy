/** The validator object: a strict flag fixed at construction and the two
    lists of diagnostics it owns, which its checks only ever append to. */
module Validator {
  import opened JsonValues
  import opened Vocabulary
  import opened Diagnostics
  import opened ValidationRules

  class AntiquitiesDataValidator {
    const strict: bool
    var errors: seq<Diag>
    var warnings: seq<Diag>

    constructor (strict: bool)
      ensures this.strict == strict
      ensures errors == [] && warnings == []
    {
      this.strict := strict;
      errors := [];
      warnings := [];
    }

    /** `validate_data`: appends this document's errors and warnings to the
        lists and reports whether the error list (all of it, including what
        earlier calls left there) is empty. */
    method ValidateData(data: Json) returns (ok: bool)
      requires DocumentIsCheckable(data)
      modifies this
      ensures !data.JObj? ==>
        errors == old(errors) + [Diag(Document, Root, NotObject)] && warnings == old(warnings) && !ok
      ensures data.JObj? && !EntitiesValue(data).JArr? ==>
        errors == old(errors) + [Diag(Document, Entities, NotArray)] && warnings == old(warnings) && !ok
      ensures data.JObj? && EntitiesValue(data).JArr? && !RelationshipsValue(data).JArr? ==>
        errors == old(errors) + [Diag(Document, Relationships, NotArray)] && warnings == old(warnings) && !ok
      ensures errors == old(errors) + DataErrors(strict, data)
      ensures warnings == old(warnings) + DataWarnings(strict, data)
      ensures ok <==> errors == []
    {
      if !data.JObj? {
        errors := errors + [Diag(Document, Root, NotObject)];
        return false;
      }
      var entities := Get(data.fields, "entities", JArr([]));
      var relationships := Get(data.fields, "relationships", JArr([]));
      var metadata := Get(data.fields, "metadata", JObj(map[]));
      if !entities.JArr? {
        errors := errors + [Diag(Document, Entities, NotArray)];
        return false;
      }
      if !relationships.JArr? {
        errors := errors + [Diag(Document, Relationships, NotArray)];
        return false;
      }

      ghost var before := errors;
      var canonicalIds := ValidateEntities(entities.items);
      ValidateRelationships(relationships.items, canonicalIds);
      ghost var afterRelationships := errors;
      if Truthy(metadata) {
        ValidateMetadata(metadata);
      }
      assert errors == afterRelationships + MetadataErrors(metadata);
      AppendAssoc(before, EntitiesErrors(strict, entities.items, |entities.items|),
                  RelationshipsErrors(relationships.items, |relationships.items|, canonicalIds));
      AppendAssoc(before, EntitiesErrors(strict, entities.items, |entities.items|) +
                  RelationshipsErrors(relationships.items, |relationships.items|, canonicalIds),
                  MetadataErrors(metadata));
      ok := errors == [];
    }

    /** The first loop of `validate_data`: validates every entity in order and
        collects the `canonical_id` values into a set. */
    method ValidateEntities(entities: seq<Json>) returns (canonicalIds: set<Json>)
      requires AllObjects(entities)
      requires forall k :: 0 <= k < |entities| ==> EntityIsCheckable(entities[k].fields)
      modifies this`errors, this`warnings
      ensures errors == old(errors) + EntitiesErrors(strict, entities, |entities|)
      ensures warnings == old(warnings) + EntitiesWarnings(strict, entities, |entities|)
      ensures canonicalIds == CollectIds(entities, |entities|)
    {
      canonicalIds := {};
      for i := 0 to |entities|
        invariant errors == old(errors) + EntitiesErrors(strict, entities, i)
        invariant warnings == old(warnings) + EntitiesWarnings(strict, entities, i)
        invariant canonicalIds == CollectIds(entities, i)
      {
        var entity := entities[i].fields;
        var entityErrors := ValidateEntity(entity, i);
        AppendAssoc(old(errors), EntitiesErrors(strict, entities, i), entityErrors);
        AppendAssoc(old(warnings), EntitiesWarnings(strict, entities, i), EntityWarnings(strict, entity, i));
        errors := errors + entityErrors;
        canonicalIds := CollectCanonicalId(canonicalIds, entities, i);
      }
    }

    /** The end of the first loop's body: `canonical_ids.add(...)` when the
        entity at `i` has a `canonical_id` key, whatever its value. */
    static method CollectCanonicalId(canonicalIds: set<Json>, entities: seq<Json>, i: nat) returns (updated: set<Json>)
      requires AllObjects(entities) && i < |entities|
      requires canonicalIds == CollectIds(entities, i)
      ensures updated == CollectIds(entities, i + 1)
    {
      updated := canonicalIds;
      var entity := entities[i].fields;
      if "canonical_id" in entity {
        updated := updated + {SetKey(entity["canonical_id"])};
      }
    }

    /** The second loop of `validate_data`: validates every relationship in
        order against the collected ids. */
    method ValidateRelationships(relationships: seq<Json>, canonicalIds: set<Json>)
      requires AllObjects(relationships)
      modifies this`errors
      ensures errors == old(errors) + RelationshipsErrors(relationships, |relationships|, canonicalIds)
    {
      for j := 0 to |relationships|
        invariant errors == old(errors) + RelationshipsErrors(relationships, j, canonicalIds)
      {
        var relErrors := ValidateRelationship(relationships[j].fields, j, canonicalIds);
        AppendAssoc(old(errors), RelationshipsErrors(relationships, j, canonicalIds), relErrors);
        errors := errors + relErrors;
      }
    }

    /** `validate_entity`: returns the entity's errors and appends its
        warnings to the validator's list. */
    method ValidateEntity(entity: map<string, Json>, index: nat) returns (entityErrors: seq<Diag>)
      requires EntityIsCheckable(entity)
      modifies this`warnings
      ensures entityErrors == EntityErrors(strict, entity, index)
      ensures warnings == old(warnings) + EntityWarnings(strict, entity, index)
    {
      // The required-field and `mentions` checks only build the local list:
      // their if/elif chains are the functions of ValidationRules.
      hide CanonicalIdErrors, TypeErrors, MentionsErrors, AttributeWarnings, AtMostOneAbout;
      entityErrors := CanonicalIdErrors(entity, index) + TypeErrors(entity, index);

      if MissesFullName(entity) {
        if strict {
          entityErrors := entityErrors + [Diag(Entity(index), FullName, Missing)];
        } else {
          warnings := warnings + [Diag(Entity(index), FullName, Missing)];
        }
      }

      entityErrors := entityErrors + MentionsErrors(entity, index);

      if "attributes" in entity {
        if !entity["attributes"].JObj? {
          entityErrors := entityErrors + [Diag(Entity(index), Attributes, NotObject)];
        } else {
          ValidateAttributes(entity, index);
        }
      }
    }

    /** `_validate_attributes`: appends vocabulary warnings and nothing else;
        the error list is outside what it may change. */
    method ValidateAttributes(entity: map<string, Json>, index: nat)
      requires "attributes" in entity && entity["attributes"].JObj?
      requires AttributesAreCheckable(entity)
      modifies this`warnings
      ensures warnings == old(warnings) + AttributeWarnings(strict, entity, index)
    {
      var entityType := EntityTypeOf(entity);
      var attributes := entity["attributes"].fields;

      if entityType == Some(Person) {
        if "role" in attributes {
          var role := attributes["role"];
          if role.JStr? {
            if !InVocabulary(role, PersonRoles) && strict {
              warnings := warnings + [Diag(Entity(index), Role, NonStandard(role))];
            }
          } else if role.JArr? {
            for k := 0 to |role.items|
              invariant warnings == old(warnings) + RoleWarnings(strict, role.items, k, index)
            {
              var r := role.items[k];
              if !InVocabulary(r, PersonRoles) && strict {
                warnings := warnings + [Diag(Entity(index), Role, NonStandard(r))];
              }
            }
          }
        }
      } else if entityType == Some(Organization) {
        if "entity_type" in attributes {
          var kind := attributes["entity_type"];
          if !InVocabulary(kind, OrganizationTypes) && strict {
            warnings := warnings + [Diag(Entity(index), OrganizationKind, NonStandard(kind))];
          }
        }
      } else if entityType == Some(Artifact) {
        if "object_type" in attributes {
          var kind := attributes["object_type"];
          if !InVocabulary(kind, ArtifactTypes) && strict {
            warnings := warnings + [Diag(Entity(index), ObjectType, NonStandard(kind))];
          }
        }
      } else if entityType == Some(Location) {
        if "location_type" in attributes {
          var kind := attributes["location_type"];
          if !InVocabulary(kind, LocationTypes) && strict {
            warnings := warnings + [Diag(Entity(index), LocationType, NonStandard(kind))];
          }
        }
      }
    }

    /** `validate_metadata`: an error exactly when the metadata is not an object. */
    method ValidateMetadata(metadata: Json)
      modifies this`errors
      ensures errors == old(errors) + (if metadata.JObj? then [] else [Diag(Document, Metadata, NotObject)])
    {
      if !metadata.JObj? {
        errors := errors + [Diag(Document, Metadata, NotObject)];
      }
    }

    /** The exit status `report` returns (its printing is not modelled). */
    function Report(): (exitCode: int)
      reads this
      ensures exitCode == 1 <==> errors != []
      ensures exitCode == 0 <==> errors == []
    {
      if errors == [] && warnings == [] then 0
      else if errors != [] then 1
      else 0
    }
  }
}

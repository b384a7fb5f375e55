/** The closed vocabularies of the extraction schema: entity types, relation
    types, and the four attribute vocabularies that strict mode checks. */
module Vocabulary {
  import opened JsonValues

  const ValidEntityTypes: set<string> := {"PERSON", "ORGANIZATION", "ARTIFACT", "LOCATION"}

  const ValidRelationshipTypes: set<string> := {
    "looted_from", "sold_to", "handled_by", "located_in",
    "employed_by", "collaborated_with", "recovered_by",
    "displayed_at", "authenticated_by", "repatriated_to",
    "investigated_by", "prosecuted_by"
  }

  const PersonRoles: set<string> := {
    "dealer", "collector", "looter", "archaeologist",
    "customs_official", "museum_director", "restorer",
    "auctioneer", "authenticator", "consultant", "official",
    "tomb_raider", "smuggler", "law_enforcement"
  }

  const OrganizationTypes: set<string> := {
    "museum", "gallery", "auction_house", "law_enforcement",
    "university", "customs", "government", "restoration_lab",
    "insurance_company", "research_institute"
  }

  const ArtifactTypes: set<string> := {
    "pottery", "sculpture", "manuscript", "coin", "textile",
    "tomb_goods", "papyrus", "bronze", "stone", "gemstone",
    "fresco", "mosaic", "jewelry", "furniture", "vessel"
  }

  const LocationTypes: set<string> := {
    "excavation_site", "freeport", "dealer_location", "city",
    "region", "country", "tomb", "storage_facility", "museum",
    "auction_house", "warehouse", "border_crossing"
  }

  /** Python's `value in VOCABULARY` for a set of strings: only a string
      equal to one of the members is in it. */
  predicate InVocabulary(value: Json, vocabulary: set<string>)
  {
    value.JStr? && value.s in vocabulary
  }

  datatype Option<T> = None | Some(value: T)

  /** The four entity types as an enumeration. */
  datatype EntityType = Person | Organization | Artifact | Location
  {
    function Name(): string
    {
      match this
      case Person => "PERSON"
      case Organization => "ORGANIZATION"
      case Artifact => "ARTIFACT"
      case Location => "LOCATION"
    }
  }

  /** Classifies an input string against the entity-type vocabulary. */
  function ParseEntityType(name: string): (t: Option<EntityType>)
    ensures t.Some? <==> name in ValidEntityTypes
    ensures t.Some? ==> t.value.Name() == name
  {
    if name == "PERSON" then Some(Person)
    else if name == "ORGANIZATION" then Some(Organization)
    else if name == "ARTIFACT" then Some(Artifact)
    else if name == "LOCATION" then Some(Location)
    else None
  }

  /** Naming an entity type and classifying the name gives the type back. */
  lemma ParseName(t: EntityType)
    ensures ParseEntityType(t.Name()) == Some(t)
  {
  }
}

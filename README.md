# Antiquities extraction validator in Dafny

This project models `AntiquitiesDataValidator` from `scripts/validate_extraction.py`. That class checks a JSON document of entities and relationships extracted from texts about the antiquities trade. It checks the structure, the closed vocabularies and the referential integrity.

A validator has a `strict` flag, fixed at construction, and owns two lists, `errors` and `warnings`. The checks only ever append to these lists. In strict mode, a PERSON without `full_name` is an error rather than a warning, and attribute values outside the four attribute vocabularies produce warnings. `report` returns exit code 1 exactly when there is an error.

Layout:

- `json_values.dfy` (`JsonValues`): parsed JSON values and the Python semantics the validator relies on. This covers `dict.get` with a default, truthiness, and set membership. In a Python `set`, `True` and `1` are one element.
- `vocabulary.dfy` (`Vocabulary`): the six vocabulary constants, and the entity types as an enumeration.
- `diagnostics.dfy` (`Diagnostics`): each message becomes a `Diag(subject, field, problem)`. `CountAbout` counts the diagnostics about one field of one subject, together with the counting lemmas.
- `validation_rules.dfy` (`ValidationRules`): every check as a pure function of the input and the flag.
  - `IsValidCanonicalId` and `ValidateRelationship` are the source's own pure checks.
  - `EntitiesErrors`, `RelationshipsErrors` and `DataErrors` give what each loop and each call appends, over a prefix of the items.
- `validator.dfy` (`Validator`): the class. It has the `strict` constant and the `errors`/`warnings` sequence fields. Its methods are proved to append exactly what the rule functions say.
- `validation_properties.dfy` (`ValidationProperties`): what the rules promise, lifted from one item to the whole document. This covers the canonical-id iff, one diagnostic per field, referential integrity, the severity of a missing `full_name`, and what the strict flag does and does not change.

Preconditions (the `*IsCheckable` predicates and `ItemsAreObjects`) restrict the inputs. They exclude every input on which the Python code raises: a list or dict tested for membership in a set, and an entity that is not an object. They also exclude a relationship that is not an object, although Python handles some of those (see "## Left out"). Within these inputs every branch of the source is modelled, including the error paths.

## Model

| member | source | states |
|---|---|---|
| Vocabulary.ParseEntityType | scripts/validate_extraction.py:20 | a name is classified as an entity type exactly when it is one of the four valid type names, and the type it gives carries that name |
| JsonValues.SetKeyMatchesEquality | scripts/validate_extraction.py:93-99 | two hashable values are the same element of the `canonical_ids` set exactly when Python's `==` holds between them (True is 1, False is 0) |
| Validator.AntiquitiesDataValidator.constructor | scripts/validate_extraction.py:54-57 | the flag is the one given and both lists start empty |
| ValidationRules.AllIdCharsMeans | scripts/validate_extraction.py:155 | the front-to-back `all(...)` scan accepts exactly the strings whose every character is a lower-case letter, a digit or `_` |
| ValidationRules.IsIdChar | scripts/validate_extraction.py:155 | the character class `c.islower() or c.isdigit() or c == '_'`, restricted to ASCII; its use is characterised by AllIdCharsMeans and CanonicalIdFormat |
| ValidationRules.IsValidCanonicalId | scripts/validate_extraction.py:152-159 | `_is_valid_canonical_id`: the character scan, then the leading and trailing underscore test; what it accepts is stated by CanonicalIdFormat |
| ValidationRules.CanonicalIdFormat | scripts/validate_extraction.py:152-159 | an id is valid iff every character is a lower-case letter, digit or underscore and a non-empty id neither starts nor ends with `_` |
| ValidationProperties.UppercaseIdRejected | scripts/validate_extraction.py:154-156 | any id containing an upper-case letter is rejected |
| ValidationRules.EntityTypeOf | scripts/validate_extraction.py:130 | a type is found only when `type` is present and is the string of that type's name; otherwise `type` is absent or not in the vocabulary |
| ValidationRules.CanonicalIdErrors | scripts/validate_extraction.py:117-122 | the if/elif chain on `canonical_id` reports at most once, on that field of that entity |
| ValidationRules.TypeErrors | scripts/validate_extraction.py:124-127 | the `type` chain reports at most once, on `type` |
| ValidationRules.FullNameErrors | scripts/validate_extraction.py:130-132 | the strict branch reports at most once, on `full_name` |
| ValidationRules.FullNameWarnings | scripts/validate_extraction.py:130-134 | the non-strict branch warns at most once, on `full_name` |
| ValidationRules.MentionsErrors | scripts/validate_extraction.py:137-141 | the `mentions` chain reports at most once, on `mentions` |
| ValidationRules.EntityAttributesErrors | scripts/validate_extraction.py:144-146 | a non-object `attributes` is reported at most once, on `attributes` |
| ValidationProperties.MissesFullNameMeans | scripts/validate_extraction.py:130 | the full-name check fires exactly on an entity whose `type` is the string "PERSON" and that has no `full_name` key |
| ValidationProperties.EntityErrorsCount | scripts/validate_extraction.py:112-150 | each check of `validate_entity` reports only on its own field of the entity at `index`; the list holds nothing about any other subject |
| ValidationProperties.EntityErrorsPerField | scripts/validate_extraction.py:117-146 | at most one error per field; no `canonical_id` error iff the id is a non-empty string in canonical format; no `type` error iff the type is a valid type; a `full_name` error iff strict and a person lacks the name; a `mentions` error iff `mentions` is present and is not an array or holds a non-string; an `attributes` error iff `attributes` is present and not an object |
| ValidationProperties.EntityErrorsStrictOnlyFullName | scripts/validate_extraction.py:116-148 | for every subject and every field but `full_name`, the entity's error list holds equally many errors in strict and non-strict mode |
| ValidationProperties.EntityStrictErrorsExtendNonStrict | scripts/validate_extraction.py:116-148 | the entity's strict error list with its `full_name` errors filtered out is its non-strict list, diagnostic for diagnostic and in order |
| ValidationProperties.EntityDiagnostics | scripts/validate_extraction.py:117-146 | which problem each error of `validate_entity` names: a missing id, a non-string or empty id, a bad format citing the id, a missing type, an invalid type citing the value, a missing full name, mentions not an array, mentions with a non-string, attributes not an object |
| ValidationRules.EntityErrors | scripts/validate_extraction.py:112-150 | the list `validate_entity` returns, its five checks in the source's order, holds at most five errors; what each check reports is stated by EntityErrorsPerField |
| ValidationRules.EntityWarnings | scripts/validate_extraction.py:129-148 | the warnings `validate_entity` appends, the `full_name` one first, then those of `_validate_attributes`; in non-strict mode at most one |
| ValidationRules.RoleWarning | scripts/validate_extraction.py:169-173 | a single role produces at most one warning, on `role` |
| ValidationRules.KindWarning | scripts/validate_extraction.py:181-203 | each single-valued sub-field check warns at most once, on its own field |
| ValidationRules.RoleWarnings | scripts/validate_extraction.py:174-179 | the role loop over the first `n` roles appends at most `n` warnings, and none in non-strict mode |
| ValidationProperties.RoleWarningsMembers | scripts/validate_extraction.py:174-179 | the role loop appends exactly as many warnings as there are roles outside the role vocabulary in strict mode, none otherwise; a warning is present iff strict and it names a role of the list outside the vocabulary |
| ValidationProperties.RoleWarningsCount | scripts/validate_extraction.py:174-179 | every warning of the role loop is a `role` warning of this entity |
| ValidationRules.AttributeWarnings | scripts/validate_extraction.py:161-203 | the warnings `_validate_attributes` appends, dispatched on the entity's type; none in non-strict mode |
| ValidationProperties.AttributeWarningsCount | scripts/validate_extraction.py:161-203 | `_validate_attributes` appends nothing in non-strict mode or for an entity without a valid type, and otherwise only warnings about this entity and about the one field its type selects (role, entity_type, object_type or location_type) |
| ValidationProperties.AttributeWarningsFire | scripts/validate_extraction.py:166-203 | in strict mode a string role, entity_type, object_type or location_type outside its vocabulary gets exactly one warning, citing that value, and none otherwise; a role list gets one warning per non-standard role; a PERSON whose role is absent or neither a string nor a list gets no warning |
| ValidationProperties.EntityWarningsCount | scripts/validate_extraction.py:129-148 | an entity's warnings are about that entity only; it has a `full_name` warning iff non-strict and a person lacks the name; in non-strict mode it has no other warnings |
| ValidationRules.ReferenceErrors | scripts/validate_extraction.py:211-223 | each reference check reports at most once, on its own field of that relationship |
| ValidationRules.RelationTypeErrors | scripts/validate_extraction.py:225-230 | the `relation_type` chain reports at most once, on `relation_type` |
| ValidationRules.RelationshipAttributesErrors | scripts/validate_extraction.py:233-235 | a non-object `attributes` is reported at most once, on `attributes` |
| ValidationRules.ValidateRelationship | scripts/validate_extraction.py:205-237 | a relationship gets at most four errors; the function takes no strict flag and reads no validator state |
| ValidationProperties.RelationshipErrorsCount | scripts/validate_extraction.py:205-237 | each check of `validate_relationship` reports only on its own field of the relationship at `index` |
| ValidationProperties.ReferenceDiagnostics | scripts/validate_extraction.py:211-223 | an absent `source_id`/`target_id` is reported as missing, and a value outside the id set as not found, citing that value |
| ValidationProperties.RelationTypeDiagnostics | scripts/validate_extraction.py:225-230 | an absent `relation_type` is reported as missing, and one outside the vocabulary as invalid, citing that value |
| ValidationProperties.RelationshipHasNoFullNameErrors | scripts/validate_extraction.py:205-237 | `validate_relationship` reports on no `full_name`: filtering those out changes nothing |
| ValidationProperties.RelationshipChecks | scripts/validate_extraction.py:211-235 | one `source_id`/`target_id` error iff the key is missing or its value is not among the ids; one `relation_type` error iff it is missing or outside the vocabulary; one `attributes` error iff it is present and not an object; none otherwise, in either mode |
| ValidationRules.MetadataErrors | scripts/validate_extraction.py:106-108 | the metadata step reports at most once, on the document's `metadata` |
| ValidationRules.CollectIds | scripts/validate_extraction.py:93-99 | the set the entity loop builds from the first `n` entities, with at most `n` elements; its members are stated by CollectIdsMembership |
| ValidationRules.EntitiesErrors | scripts/validate_extraction.py:94-96 | the errors the entity loop appends over the first `n` entities, each entity's list in document order; characterised by EntitiesErrorsAbout and ValidateEntities |
| ValidationRules.EntitiesWarnings | scripts/validate_extraction.py:94-95 | the warnings the entity loop appends over the first `n` entities, in document order; characterised by EntitiesWarningsAbout |
| ValidationRules.RelationshipsErrors | scripts/validate_extraction.py:102-104 | the errors the relationship loop appends over the first `n` relationships, in document order; characterised by RelationshipsErrorsAbout and ValidateRelationships |
| ValidationRules.EntitiesValue | scripts/validate_extraction.py:80 | `data.get("entities", [])` |
| ValidationRules.RelationshipsValue | scripts/validate_extraction.py:81 | `data.get("relationships", [])` |
| ValidationRules.MetadataValue | scripts/validate_extraction.py:82 | `data.get("metadata", {})` |
| ValidationRules.HasContainers | scripts/validate_extraction.py:76-90 | the document passes the three fail-fast checks: an object whose `entities` and `relationships` (or their defaults) are arrays; its use is stated by ValidateData and DataErrors |
| ValidationProperties.CollectIdsMembership | scripts/validate_extraction.py:93-99 | a value is in the collected id set iff some entity has a `canonical_id` equal to it, malformed or not |
| ValidationProperties.EntitiesErrorsAbout | scripts/validate_extraction.py:94-96 | the entity loop's errors about a subject are exactly those `validate_entity` returns for it, and there are none about entities past the prefix |
| ValidationProperties.EntitiesWarningsAbout | scripts/validate_extraction.py:94-95 | the same for the warnings the entity loop appends |
| ValidationProperties.RelationshipsErrorsAbout | scripts/validate_extraction.py:102-104 | the same for the relationship loop |
| ValidationProperties.RelationshipsErrorsInclude | scripts/validate_extraction.py:102-104 | every error of relationship `j` is among the errors the relationship loop appends |
| ValidationProperties.EntitiesErrorsInclude | scripts/validate_extraction.py:94-96 | every error of entity `i` is among the errors the entity loop appends |
| ValidationProperties.EntitiesStrictErrorsExtendNonStrict | scripts/validate_extraction.py:94-96 | the entity loop's strict errors with the `full_name` errors filtered out are its non-strict errors, in order |
| ValidationProperties.RelationshipsHaveNoFullNameErrors | scripts/validate_extraction.py:102-104 | the relationship loop reports on no `full_name` |
| ValidationRules.DataErrors | scripts/validate_extraction.py:72-110 | the errors one `validate_data` call appends; a document failing a shape check gets exactly one error, about the document |
| ValidationRules.DataWarnings | scripts/validate_extraction.py:72-110 | the warnings one `validate_data` call appends; none for a document failing a shape check |
| ValidationProperties.DataErrorsAbout | scripts/validate_extraction.py:92-108 | a document's errors about an entity come from `validate_entity`, about a relationship from `validate_relationship` against the ids of all entities, and about the document from the metadata check |
| ValidationProperties.DataWarningsAbout | scripts/validate_extraction.py:92-99 | a document's warnings about a subject are those of the entity it names |
| ValidationProperties.ReferentialIntegrity | scripts/validate_extraction.py:93-104 | relationship `j` has one `source_id` (and one `target_id`) error iff the key is missing or no entity has an equal `canonical_id`, and none otherwise |
| ValidationProperties.ReferenceProblems | scripts/validate_extraction.py:93-104 | in the document, a relationship without `source_id` (or `target_id`) has the missing error, and one whose value no entity carries has the not-found error citing that value |
| ValidationProperties.RelationTypeProblems | scripts/validate_extraction.py:225-230 | in the document, relationship `j` without `relation_type` has the missing error, and one with a value outside the vocabulary has the invalid error citing that value |
| ValidationProperties.EntityProblems | scripts/validate_extraction.py:117-146 | in the document, entity `i` has the error its if/elif chains select: missing, non-string or empty, or bad-format-citing-the-id for `canonical_id`; missing or invalid-citing-the-value for `type`; not-an-array or non-string for `mentions`; not-an-object for `attributes` |
| ValidationProperties.MetadataCheck | scripts/validate_extraction.py:106-108 | the document gets a `metadata` error iff it passes the shape checks and its `metadata` is truthy and not an object |
| ValidationProperties.DocumentEntityErrors | scripts/validate_extraction.py:94-96 | in the document, every entity has at most one error per field, and no `canonical_id` error iff its id is good |
| ValidationProperties.FullNameSeverity | scripts/validate_extraction.py:130-134 | a person without `full_name` is reported exactly once: as an error in strict mode, otherwise as a warning |
| ValidationProperties.StrictOnlyChangesFullName | scripts/validate_extraction.py:72-110 | for every subject and every field but `full_name`, the document has equally many errors in both modes |
| ValidationProperties.StrictErrorsExtendNonStrict | scripts/validate_extraction.py:72-110 | strict mode reports every error non-strict mode does, in the same order, and adds only `full_name` errors: filtering those out of the strict list gives the non-strict list |
| ValidationProperties.NonStrictWarningsOnlyFullName | scripts/validate_extraction.py:161-203 | in non-strict mode, every warning is a missing `full_name` |
| ValidationProperties.EmptyDocumentIsClean | scripts/validate_extraction.py:80-82 | any object without `entities`, `relationships` and `metadata`, whatever its other keys, yields no errors and no warnings: the defaults of the three `get`s report nothing |
| Validator.AntiquitiesDataValidator.ValidateData | scripts/validate_extraction.py:72-110 | a non-object root, or non-array `entities` or `relationships`, appends one error, appends no warnings and returns false; otherwise it appends exactly the document's errors and warnings; it returns true iff the whole error list is empty |
| Validator.AntiquitiesDataValidator.ValidateEntities | scripts/validate_extraction.py:93-99 | the entity loop appends every entity's errors and warnings in order, and returns the set of collected ids |
| Validator.AntiquitiesDataValidator.CollectCanonicalId | scripts/validate_extraction.py:98-99 | the id set grows by the entity's `canonical_id` exactly when the key is present |
| Validator.AntiquitiesDataValidator.ValidateRelationships | scripts/validate_extraction.py:102-104 | the relationship loop appends every relationship's errors in order |
| Validator.AntiquitiesDataValidator.ValidateEntity | scripts/validate_extraction.py:112-150 | returns the entity's errors, and appends its warnings to the validator's list |
| Validator.AntiquitiesDataValidator.ValidateAttributes | scripts/validate_extraction.py:161-203 | appends exactly the attribute warnings, and may change no other state (the error list is outside its frame) |
| Validator.AntiquitiesDataValidator.ValidateMetadata | scripts/validate_extraction.py:239-242 | appends one error exactly when the metadata is not an object |
| Validator.AntiquitiesDataValidator.Report | scripts/validate_extraction.py:250-265 | the exit code is 1 iff there is at least one error, and 0 iff there are none, whatever the warnings |

## Left out

- `validate_file` (lines 59-70) is not modelled. It covers file I/O and JSON decoding, and its two error messages depend on the file system and the parser.
- `main` (lines 268-287) is not modelled. It reads the command line and calls `sys.exit`. Its `--strict` flag becomes the constructor's parameter.
- The printing in `report` is not modelled; only its return value is.
- Message texts are left out. Each message becomes a `Diag` holding its subject, its field and its problem, with the value the message quotes.
- JSON floating-point numbers are left out. Numbers are integers.
- Inputs on which the Python code raises are excluded by preconditions, not modelled as crashes. This covers an unhashable value tested with `in` on a set, and an entity that is not an object (every such entity fails by line 130 at the latest).
- Relationships that are not objects are excluded by the same preconditions, though Python does not always raise on them. A string or list relationship that does not contain `source_id`, `target_id`, `relation_type` or `attributes` (as a substring or an element) passes the `in` tests of lines 211, 218, 225 and 233. It gets the three `Missing` errors. The model does not cover that case.
- The default `strict=False` of `__init__` (line 54) is not modelled. The constructor always takes the flag explicitly.
- `IsIdChar` accepts only ASCII. Python's `str.islower()` and `str.isdigit()` also accept other Unicode lower-case letters and digits.
- The unused `errors` parameter of `_validate_attributes` is left out. `ValidateAttributes` cannot change the error list, and its frame states that.
- The two loops of `validate_data` are the separate methods `ValidateEntities` and `ValidateRelationships`, so that each has its own invariant.
- Duplicate `canonical_id`s are not reported, as in the source. A duplicate is simply one element of the set.

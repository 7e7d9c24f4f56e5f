// The seven OpenAlex entity types (`entities`) and the fixed field list the
// gateway selects for each (`entities_fields`), utils/openalex.py:8-34.

module Entities {
  import opened PyValues

  datatype EntityType = Work | Author | Source | Institution | Concept | Publisher | Funder

  /** The type name used in requests and cache keys. */
  function TypeName(t: EntityType): string
  {
    match t
    case Work => "work"
    case Author => "author"
    case Source => "source"
    case Institution => "institution"
    case Concept => "concept"
    case Publisher => "publisher"
    case Funder => "funder"
  }

  /**
   * `entities[type]`: the entity type named by a request, or None where the
   * Python lookup raises KeyError.
   */
  function EntityTypeOf(name: string): (t: Option<EntityType>)
    ensures t.Some? ==> TypeName(t.value) == name
    ensures forall u :: TypeName(u) == name ==> t == Some(u)
  {
    match name
    case "work" => Some(Work)
    case "author" => Some(Author)
    case "source" => Some(Source)
    case "institution" => Some(Institution)
    case "concept" => Some(Concept)
    case "publisher" => Some(Publisher)
    case "funder" => Some(Funder)
    case _ => None
  }

  /** The inverted-index abstract that work records arrive with and lose. */
  const AbstractIndexField := "abstract_inverted_index"
  const AbstractField := "abstract"

  predicate NoDuplicates(fields: seq<string>)
  {
    forall i, j :: 0 <= i < j < |fields| ==> fields[i] != fields[j]
  }

  /** `entities_fields[type]`: the projection requested from the remote client. */
  function Projection(t: EntityType): (fields: seq<string>)
    ensures |fields| >= 3 && fields[0] == "id" && fields[1] == "display_name"
    ensures NoDuplicates(fields)
    ensures (AbstractIndexField in fields) <==> t == Work
    ensures t == Work ==> "authorships" in fields
  {
    match t
    case Work =>
      ["id", "display_name", "publication_year",
       "publication_date", "language", "type",
       "abstract_inverted_index", "authorships",
       "concepts", "cited_by_count"]
    case Author =>
      ["id", "display_name", "works_count",
       "cited_by_count", "x_concepts",
       "last_known_institution"]
    case Source => ["id", "display_name", "country_code", "type"]
    case Institution =>
      ["id", "display_name", "country_code", "type",
       "image_url", "international", "x_concepts"]
    case Concept => ["id", "display_name", "international"]
    case Publisher =>
      ["id", "display_name", "alternate_titles",
       "country_codes", "image_url"]
    case Funder =>
      ["id", "display_name", "alternate_titles",
       "country_code", "description", "image_url"]
  }
}

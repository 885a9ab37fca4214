/**
 * The local (browser) collections' JSON schemas, as validity predicates on
 * the stored objects. Both schemas are at version 0 and keyed by `id`.
 */
module RxSchema {
  import opened Js

  datatype SchemaInfo = SchemaInfo(version: nat, primaryKey: string, required: seq<string>, maxKeyLength: nat)

  const DocSchema := SchemaInfo(0, "id", ["id"], 100)
  const CitationSchema := SchemaInfo(0, "id", ["id", "source_doc_id", "target_doc_id"], 200)

  /** An optional property of type string. */
  predicate OptString(o: map<string, Json>, k: string) {
    k in o ==> o[k].JStr?
  }

  /** An optional property of type number. */
  predicate OptNumber(o: map<string, Json>, k: string) {
    k in o ==> o[k].JNum?
  }

  /** Every required property is present, and the primary key is a string of bounded length. */
  predicate Keyed(s: SchemaInfo, o: map<string, Json>) {
    && (forall k :: k in s.required ==> k in o)
    && s.primaryKey in o && o[s.primaryKey].JStr? && |o[s.primaryKey].s| <= s.maxKeyLength
  }

  /** A valid local document: an `id` of at most 100 characters; every other listed field optional and typed. */
  predicate ValidDoc(j: Json) {
    && j.JObj?
    && Keyed(DocSchema, j.fields)
    && OptString(j.fields, "title") && OptString(j.fields, "url") && OptString(j.fields, "content")
    && OptString(j.fields, "project_id") && OptString(j.fields, "source_type") && OptString(j.fields, "updated_at")
    && OptNumber(j.fields, "math_density_score")
    && ("math_density_score" in j.fields ==> 0.0 <= j.fields["math_density_score"].n <= 100.0)
  }

  /** A valid local citation: `id` (at most 200 characters), `source_doc_id` and `target_doc_id` required. */
  predicate ValidCitation(j: Json) {
    && j.JObj?
    && Keyed(CitationSchema, j.fields)
    && OptString(j.fields, "source_doc_id") && OptString(j.fields, "target_doc_id")
    && OptString(j.fields, "citation_type") && OptNumber(j.fields, "weight")
  }

  /**
   * The document schema demands nothing but the key: an object holding only
   * an `id` is valid exactly when the id has at most 100 characters.
   */
  lemma OnlyIdRequired(id: string)
    ensures ValidDoc(JObj(map["id" := JStr(id)])) <==> |id| <= 100
  {
  }

  /** A citation missing either endpoint is invalid, however short its id. */
  lemma CitationNeedsEndpoints(j: Json)
    requires j.JObj? && ("source_doc_id" !in j.fields || "target_doc_id" !in j.fields)
    ensures !ValidCitation(j)
  {
    assert "source_doc_id" in CitationSchema.required && "target_doc_id" in CitationSchema.required;
  }

  /** A stored score outside `[0, 100]` makes a document invalid. */
  lemma ScoreRange(j: Json)
    requires ValidDoc(j) && "math_density_score" in j.fields
    ensures j.fields["math_density_score"].JNum?
    ensures 0.0 <= j.fields["math_density_score"].n <= 100.0
  {
  }
}

/**
 * The shape the vision model's garment analysis must have (lib/ai/garment-schema.ts): an object
 * whose eight fields are all strings of at least one character. Parsing keeps those eight fields
 * and drops every other key, as a zod object schema does by default (it strips unknown keys).
 */
module GarmentSchema {
  import opened Wrappers
  import opened Json

  const GARMENT_FIELDS: seq<string> :=
    ["garment_type", "dominant_color", "material", "fit", "sleeves", "length", "style", "details"]

  datatype GarmentDescription = GarmentDescription(
    garmentType: string, dominantColor: string, material: string, fit: string,
    sleeves: string, length: string, style: string, details: string)

  /** The description as the JSON object the handler sends back as `garmentJson`. */
  function ToJson(g: GarmentDescription): Json {
    JObj(map[
      "garment_type" := JStr(g.garmentType), "dominant_color" := JStr(g.dominantColor),
      "material" := JStr(g.material), "fit" := JStr(g.fit), "sleeves" := JStr(g.sleeves),
      "length" := JStr(g.length), "style" := JStr(g.style), "details" := JStr(g.details)])
  }

  /** `z.string().min(1)` applied to the field `k` of `raw`. */
  predicate ValidField(raw: Json, k: string) {
    IsNonEmptyString(Field(Some(raw), k))
  }

  /** `z.object({...})` accepts `raw`: an object whose eight fields all pass. */
  predicate Accepted(raw: Json) {
    raw.JObj? && forall i :: 0 <= i < |GARMENT_FIELDS| ==> ValidField(raw, GARMENT_FIELDS[i])
  }

  /** The string held by the field `k`, or the empty string when there is none. */
  function Text(raw: Json, k: string): string {
    var v := Field(Some(raw), k);
    if IsString(v) then v.value.s else ""
  }

  /**
   * `tryParseGarmentDescription`: the eight fields when the schema accepts `raw`, and `null`
   * (here `None`) for a non-object, a missing field, a non-string field or an empty one.
   */
  function TryParseGarmentDescription(raw: Json): (r: Option<GarmentDescription>)
    ensures r.Some? <==> Accepted(raw)
    ensures r.Some? ==> forall i :: 0 <= i < |GARMENT_FIELDS| ==>
      ToJson(r.value).fields[GARMENT_FIELDS[i]] == raw.fields[GARMENT_FIELDS[i]]
  {
    if Accepted(raw)
    then
      Some(GarmentDescription(Text(raw, "garment_type"), Text(raw, "dominant_color"), Text(raw, "material"),
        Text(raw, "fit"), Text(raw, "sleeves"), Text(raw, "length"), Text(raw, "style"), Text(raw, "details")))
    else
      None
  }

  /** A description whose fields are all non-empty. */
  predicate Complete(g: GarmentDescription) {
    g.garmentType != "" && g.dominantColor != "" && g.material != "" && g.fit != ""
    && g.sleeves != "" && g.length != "" && g.style != "" && g.details != ""
  }

  /** Parsing the JSON of a complete description gives it back. */
  lemma ParseToJson(g: GarmentDescription)
    requires Complete(g)
    ensures TryParseGarmentDescription(ToJson(g)) == Some(g)
  {
    var raw := ToJson(g);
    assert ValidField(raw, "garment_type") && ValidField(raw, "dominant_color") && ValidField(raw, "material");
    assert ValidField(raw, "fit") && ValidField(raw, "sleeves") && ValidField(raw, "length");
    assert ValidField(raw, "style") && ValidField(raw, "details");
  }

  /** What parsing accepts is complete, and its JSON is `raw` without the keys outside the schema. */
  lemma ParsedIsRestriction(raw: Json)
    requires TryParseGarmentDescription(raw).Some?
    ensures Complete(TryParseGarmentDescription(raw).value)
    ensures ToJson(TryParseGarmentDescription(raw).value) ==
      JObj(map k | k in raw.fields && k in GARMENT_FIELDS :: raw.fields[k])
  {
    var g := TryParseGarmentDescription(raw).value;
    AcceptedFields(raw);
    var m := map k | k in raw.fields && k in GARMENT_FIELDS :: raw.fields[k];
    assert ToJson(g).fields.Keys == m.Keys;
  }

  /** The eight checks of `Accepted`, one per field name. */
  lemma AcceptedFields(raw: Json)
    requires Accepted(raw)
    ensures ValidField(raw, "garment_type") && ValidField(raw, "dominant_color") && ValidField(raw, "material")
    ensures ValidField(raw, "fit") && ValidField(raw, "sleeves") && ValidField(raw, "length")
    ensures ValidField(raw, "style") && ValidField(raw, "details")
  {
    assert ValidField(raw, GARMENT_FIELDS[0]) && ValidField(raw, GARMENT_FIELDS[1]);
    assert ValidField(raw, GARMENT_FIELDS[2]) && ValidField(raw, GARMENT_FIELDS[3]);
    assert ValidField(raw, GARMENT_FIELDS[4]) && ValidField(raw, GARMENT_FIELDS[5]);
    assert ValidField(raw, GARMENT_FIELDS[6]) && ValidField(raw, GARMENT_FIELDS[7]);
  }

  /** A record with a schema field missing is refused, whatever else it holds. */
  lemma MissingFieldRejected(raw: Json, i: nat)
    requires raw.JObj? && i < |GARMENT_FIELDS| && GARMENT_FIELDS[i] !in raw.fields
    ensures TryParseGarmentDescription(raw).None?
  {
    assert !ValidField(raw, GARMENT_FIELDS[i]);
  }

  /** A schema field holding the empty string or a non-string is refused. */
  lemma BadFieldRejected(raw: Json, i: nat)
    requires raw.JObj? && i < |GARMENT_FIELDS| && GARMENT_FIELDS[i] in raw.fields
    requires raw.fields[GARMENT_FIELDS[i]] == JStr("") || !raw.fields[GARMENT_FIELDS[i]].JStr?
    ensures TryParseGarmentDescription(raw).None?
  {
    assert !ValidField(raw, GARMENT_FIELDS[i]);
  }

  /** The length test does not trim: a description made of single spaces is accepted. */
  lemma WhitespaceAccepted()
    ensures var g := GarmentDescription(" ", " ", " ", " ", " ", " ", " ", " ");
      TryParseGarmentDescription(ToJson(g)) == Some(g)
  {
    ParseToJson(GarmentDescription(" ", " ", " ", " ", " ", " ", " ", " "));
  }
}

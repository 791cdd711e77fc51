/**
 * The request schemas of the `/modified` routes, as predicates on a request
 * body. `mongoose.Types.ObjectId.isValid` is the parameter `isValidId` and the
 * `OnType` enumeration the schemas import is the parameter set `onTypes`.
 */
module ModifiedValidator {
  import opened Wrappers
  import opened Json
  import opened Text
  import ModifiedController

  const ITEM_FUNCTION_VALUES: set<string> := {"Gallery", "Link", "Board"}

  /** The keys the update schema knows; every other key is stripped before its refinement runs. */
  const UPDATE_KEYS: set<string> :=
    {"name", "description", "itemFunction", "onType", "additionalData", "coordinates", "currentImageSetId", "isReversed"}

  /** `z.string().min(1)`: a string of at least one character, measured before `.trim()`. */
  predicate MinOneString(v: Option<Json>) {
    v.Some? && v.value.JStr? && |v.value.s| >= 1
  }

  /** A string that `ObjectId.isValid` accepts. */
  predicate ObjectIdString(isValidId: string -> bool, v: Option<Json>) {
    v.Some? && v.value.JStr? && isValidId(v.value.s)
  }

  /** `z.object({x: z.number(), y: z.number()})`: a plain object with numeric `x` and `y`. */
  predicate CoordinatesShape(v: Json) {
    v.JObj? && IsNumber(Get(v, "x")) && IsNumber(Get(v, "y"))
  }

  /** One of the three item functions or `null`. */
  predicate ItemFunctionValue(v: Json) {
    v.JNull? || (v.JStr? && v.s in ITEM_FUNCTION_VALUES)
  }

  /** A value of the `OnType` enumeration. */
  predicate OnTypeValue(onTypes: set<string>, v: Json) {
    v.JStr? && v.s in onTypes
  }

  /** `createModifiedSchema`: what the body of `POST /modified` must hold. */
  predicate CreateModifiedSchema(isValidId: string -> bool, onTypes: set<string>, body: map<string, Json>) {
    && MinOneString(FieldOf(body, "name"))
    && ObjectIdString(isValidId, FieldOf(body, "currentImageSetId"))
    && "itemFunction" in body && ItemFunctionValue(body["itemFunction"])
    && "coordinates" in body && CoordinatesShape(body["coordinates"])
    && ObjectIdString(isValidId, FieldOf(body, "originalObjectId"))
    && "onType" in body && OnTypeValue(onTypes, body["onType"])
    && ("description" in body ==> body["description"].JStr?)
    && ("isReversed" in body ==> body["isReversed"].JBool?)
  }

  /** `updateModifiedSchema`: every field optional, but at least one known field present. */
  predicate UpdateModifiedSchema(isValidId: string -> bool, onTypes: set<string>, body: map<string, Json>) {
    && ("name" in body ==> MinOneString(Some(body["name"])))
    && ("description" in body ==> body["description"].JStr?)
    && ("itemFunction" in body ==> ItemFunctionValue(body["itemFunction"]))
    && ("onType" in body ==> OnTypeValue(onTypes, body["onType"]))
    && ("coordinates" in body ==> CoordinatesShape(body["coordinates"]))
    && ("currentImageSetId" in body ==> ObjectIdString(isValidId, Some(body["currentImageSetId"])))
    && ("isReversed" in body ==> body["isReversed"].JBool?)
    && |body.Keys * UPDATE_KEYS| > 0
  }

  /**
   * The emptiness refinement runs on the stripped body: a body whose keys
   * are all unknown is refused, however many it has.
   */
  lemma UpdateNeedsKnownKey(isValidId: string -> bool, onTypes: set<string>, body: map<string, Json>)
    requires forall k :: k in body ==> k !in UPDATE_KEYS
    ensures !UpdateModifiedSchema(isValidId, onTypes, body)
  {
    assert body.Keys * UPDATE_KEYS == {};
  }

  /**
   * A body the update schema accepts also passes the handler's own checks,
   * as long as it has no `imageSets` key (which the schema strips and the
   * handler refuses).
   */
  lemma UpdateSchemaPassesHandler(isValidId: string -> bool, onTypes: set<string>, body: map<string, Json>)
    requires UpdateModifiedSchema(isValidId, onTypes, body)
    requires "imageSets" !in body
    ensures ModifiedController.ValidUpdateBody(body)
  {
    assert body.Keys * UPDATE_KEYS != {};
    var k :| k in body.Keys * UPDATE_KEYS;
    assert k in body;
  }

  /**
   * A body the create schema accepts also passes the handler's checks when
   * its name has a non-blank character, it has a non-empty `imageSrc` (which
   * the schema does not know) and no `imageSets` key.
   */
  lemma CreateSchemaPassesHandler(isValidId: string -> bool, onTypes: set<string>, body: map<string, Json>)
    requires CreateModifiedSchema(isValidId, onTypes, body)
    requires "name" in body && body["name"].JStr? && HasNonSpace(body["name"].s)
    requires "imageSrc" in body && body["imageSrc"].JStr? && body["imageSrc"].s != ""
    requires "imageSets" !in body
    ensures ModifiedController.ValidCreateBody(body)
  {
  }

  /** The schema measures the name before trimming it: a name of one space passes it but not the handler. */
  lemma BlankNamePassesSchemaOnly(isValidId: string -> bool, onTypes: set<string>, body: map<string, Json>)
    requires CreateModifiedSchema(isValidId, onTypes, body)
    requires body["name"] == JStr([' '])
    ensures !ModifiedController.ValidCreateBody(body)
  {
    assert !HasNonSpace([' ']) by {
      assert IsSpace([' '][0]);
    }
  }
}

/**
 * The request schemas of the `/object` routes, as predicates on a request
 * body. `mongoose.Types.ObjectId.isValid` is the parameter `isValidId`. A
 * `z.string().min(1).trim()` measures the string before trimming it.
 */
module ObjectValidator {
  import opened Wrappers
  import opened Json
  import opened Text
  import opened Models
  import opened Store
  import ObjectController
  import ObjectService

  /** The placements the schemas accept, those of the object schema. */
  const SCHEMA_ON_TYPES: set<string> := {"Wall", "Floor"}

  /** `z.string().min(1)`: a string of at least one character. */
  predicate MinOneString(v: Option<Json>) {
    v.Some? && v.value.JStr? && |v.value.s| >= 1
  }

  /** `z.string().optional()`: absent, or a string. */
  predicate OptionalString(body: map<string, Json>, key: string) {
    key in body ==> body[key].JStr?
  }

  /** `followupQuestionSchema` and `createObjectSchema`: a content string of at least one character. */
  predicate ContentSchema(body: map<string, Json>) {
    MinOneString(FieldOf(body, "content"))
  }

  /** Content the handlers accept is content the schema accepts. */
  lemma HandlerContentPassesSchema(body: map<string, Json>)
    requires ObjectController.ContentOf(body).Some?
    ensures ContentSchema(body)
  {
  }

  /** The schema measures before trimming: a content of one space passes it, and the handlers refuse it. */
  lemma BlankContentPassesSchemaOnly()
    ensures ContentSchema(map["content" := JStr([' '])])
    ensures ObjectController.ContentOf(map["content" := JStr([' '])]).None?
  {
    var body := map["content" := JStr([' '])];
    assert Trim([' ']) == [] by {
      assert IsSpace([' '][0]);
      BlankIffAllSpace([' ']);
    }
  }

  /** One element of the basic schema's `imageSets`: an object with a non-empty name and colour. */
  predicate BasicSetShape(v: Json) {
    v.JObj? && MinOneString(Get(v, "name")) && MinOneString(Get(v, "color"))
  }

  /** `createBasicObjectSchema`: unknown keys pass through, so the flat `imageSets[N][...]` keys do too. */
  predicate BasicObjectSchema(body: map<string, Json>) {
    && MinOneString(FieldOf(body, "name"))
    && OptionalString(body, "description")
    && "onType" in body && body["onType"].JStr? && body["onType"].s in SCHEMA_ON_TYPES
    && ("imageSets" in body ==>
          body["imageSets"].JArr? && |body["imageSets"].items| >= 1
          && forall k :: 0 <= k < |body["imageSets"].items| ==> BasicSetShape(body["imageSets"].items[k]))
  }

  /**
   * The schema and the handler disagree on `onType`: the schema allows
   * "Wall" and "Floor", the handler "LeftWall", "RightWall" and "Floor". A
   * body both accept asks for "Floor".
   */
  lemma BasicSchemaAndHandlerMeetOnFloor(body: map<string, Json>, files: seq<ObjectService.UploadFile>)
    requires BasicObjectSchema(body)
    requires ObjectController.BasicRejection(body, files).None?
    ensures body["onType"] == JStr("Floor")
  {
    assert "Wall" !in ObjectController.PLACEMENTS;
  }

  /** A body with "Wall", which the schema allows, is refused by the handler as soon as files arrive and a name is given. */
  lemma WallPassesSchemaOnly(body: map<string, Json>, files: seq<ObjectService.UploadFile>)
    requires |files| > 0 && TruthyOpt(FieldOf(body, "name"))
    requires "onType" in body && body["onType"] == JStr("Wall")
    ensures ObjectController.BasicRejection(body, files) == Some(ObjectController.ON_TYPE_INVALID)
  {
    assert "Wall" !in ObjectController.PLACEMENTS;
  }

  /** `addObjectToInventorySchema`: a non-empty string that `ObjectId.isValid` accepts. */
  predicate AddObjectSchema(isValidId: string -> bool, body: map<string, Json>) {
    MinOneString(FieldOf(body, "objectId")) && isValidId(body["objectId"].s)
  }

  /**
   * When `ObjectId.isValid` accepts exactly what casts, an object id the add
   * schema accepts never makes a lookup throw: it finds the object or
   * nothing.
   */
  lemma AddSchemaIdCasts(isValidId: string -> bool, cast: string -> Option<Id>, s: State, body: map<string, Json>)
    requires forall raw :: isValidId(raw) <==> cast(raw).Some?
    requires AddObjectSchema(isValidId, body)
    ensures FindObject(cast, s, Some(body["objectId"].s)).Ok?
  {
    assert isValidId(body["objectId"].s);
  }

  /** One element of the update schema's `imageSets`: an object with a non-empty name, colour and source. */
  predicate UpdateSetShape(v: Json) {
    v.JObj? && MinOneString(Get(v, "name")) && MinOneString(Get(v, "color")) && MinOneString(Get(v, "src"))
  }

  /** `updateObjectSchema`: every field optional; each present one well typed. */
  predicate UpdateObjectSchema(isValidId: string -> bool, body: map<string, Json>) {
    && ("name" in body ==> MinOneString(Some(body["name"])))
    && ("currentImageSetId" in body ==> body["currentImageSetId"].JStr? && isValidId(body["currentImageSetId"].s))
    && OptionalString(body, "description")
    && ("onType" in body ==> body["onType"].JStr? && body["onType"].s in SCHEMA_ON_TYPES)
    && ("imageSets" in body ==>
          body["imageSets"].JArr? && |body["imageSets"].items| >= 1
          && forall k :: 0 <= k < |body["imageSets"].items| ==> UpdateSetShape(body["imageSets"].items[k]))
  }

  /**
   * An update body the schema accepts passes the handler's checks unless it
   * asks for "Wall", which the schema allows and the handler refuses.
   */
  lemma UpdateSchemaPassesPatchChecks(isValidId: string -> bool, body: map<string, Json>)
    requires UpdateObjectSchema(isValidId, body)
    requires "onType" in body ==> body["onType"] != JStr("Wall")
    ensures ObjectController.ValidPatchBody(body)
  {
    if "onType" in body {
      assert body["onType"].s == "Floor";
    }
  }

  /** An update the schema accepts with a "Wall" placement is refused by the handler with 400. */
  lemma WallUpdatePassesSchemaOnly(isValidId: string -> bool, body: map<string, Json>)
    requires UpdateObjectSchema(isValidId, body)
    requires "onType" in body && body["onType"] == JStr("Wall")
    ensures !ObjectController.ValidPatchBody(body)
  {
    assert "Wall" !in ObjectController.PLACEMENTS;
  }
}

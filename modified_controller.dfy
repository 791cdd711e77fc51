/**
 * The `/modified` routes: the request checks of POST and PATCH (each a chain
 * where the first failing check decides the 400 reply), the mapping of the
 * service's error messages to status codes, and DELETE. The store changes
 * themselves are those of `ModifiedService`.
 */
module ModifiedController {
  import opened Wrappers
  import opened Json
  import opened Text
  import opened Models
  import opened Store
  import opened Http
  import ModifiedService

  const NAME_REQUIRED := "name field is required and must be a non-empty string"
  const IMAGE_SRC_REQUIRED := "imageSrc field is required and must be a string"
  const ITEM_FUNCTION_REQUIRED := "itemFunction field is required"
  const ITEM_FUNCTION_INVALID := "itemFunction must be one of: \"Gallery\", \"Link\", \"Board\", or null"
  const COORDINATES_REQUIRED := "coordinates field is required and must be an object"
  const COORDINATES_NUMBERS := "coordinates.x and coordinates.y are required and must be numbers"
  const IS_REVERSED_BOOLEAN := "isReversed must be a boolean"
  const SETS_ARRAY := "imageSets must be an array"
  const CREATE_FAILED := "Failed to create modified object"
  const BODY_EMPTY := "Request body cannot be empty"
  const COORDINATES_OBJECT := "coordinates must be an object"
  const UPDATE_FAILED := "Failed to update modified object"
  const DELETE_FAILED := "Failed to delete modified object"

  /** `null` or one of the three item functions (compared strictly, so only strings match). */
  predicate AllowedItemFunction(v: Json) {
    v.JNull? || (v.JStr? && v.s in {"Gallery", "Link", "Board"})
  }

  /** `coordinates.x` and `coordinates.y` are both numbers. */
  predicate NumericCoordinates(v: Json) {
    IsNumber(Get(v, "x")) && IsNumber(Get(v, "y"))
  }

  // ---------------------------------------------------------------- POST

  /** What is wrong with one element of `imageSets`, as the tail of the message after `imageSets[i]`. */
  function SetFault(entry: Json): Option<string> {
    if !Truthy(entry) || !TypeofObject(entry) then Some(" must be an object")
    else if !NonBlank(Get(entry, "name")) then Some(".name is required and must be a non-empty string")
    else if !NonBlank(Get(entry, "color")) then Some(".color is required and must be a non-empty string")
    else if !NonBlank(Get(entry, "src")) then Some(".src is required and must be a non-empty string")
    else None
  }

  /** The message for a faulty element at index `i`. */
  function SetMessage(i: nat, fault: string): (msg: string)
    ensures StartsWith(msg, "imageSets[")
  {
    var msg := "imageSets[" + NatToString(i) + "]" + fault;
    assert msg[..|"imageSets["|] == "imageSets[";
    msg
  }

  /** The `imageSets` loop from index `i` on: the first faulty element, if any. */
  function SetsRejection(sets: seq<Json>, i: nat): Option<string>
    requires i <= |sets|
    decreases |sets| - i
  {
    if i == |sets| then None
    else if SetFault(sets[i]).Some? then Some(SetMessage(i, SetFault(sets[i]).value))
    else SetsRejection(sets, i + 1)
  }

  /** The first index from `i` on whose element is faulty, or `|sets|` when there is none. */
  function FirstFault(sets: seq<Json>, i: nat): (j: nat)
    requires i <= |sets|
    decreases |sets| - i
    ensures i <= j <= |sets|
    ensures forall l :: i <= l < j ==> SetFault(sets[l]).None?
    ensures j < |sets| ==> SetFault(sets[j]).Some?
  {
    if i == |sets| || SetFault(sets[i]).Some? then i else FirstFault(sets, i + 1)
  }

  /**
   * The loop reports the first faulty element with its index and fault, and
   * accepts exactly the lists whose every element is well formed.
   */
  lemma {:induction false} SetsRejectionFirst(sets: seq<Json>, i: nat)
    requires i <= |sets|
    decreases |sets| - i
    ensures var j := FirstFault(sets, i);
      SetsRejection(sets, i) == if j == |sets| then None else Some(SetMessage(j, SetFault(sets[j]).value))
    ensures SetsRejection(sets, i).None? <==> forall l :: i <= l < |sets| ==> SetFault(sets[l]).None?
  {
    if i < |sets| && SetFault(sets[i]).None? {
      SetsRejectionFirst(sets, i + 1);
      assert SetsRejection(sets, i) == SetsRejection(sets, i + 1);
      assert FirstFault(sets, i) == FirstFault(sets, i + 1);
    }
  }

  /** The checks of `POST /modified`, in their order: the first failing one gives the 400 message. */
  function CreateRejection(body: map<string, Json>): Option<string> {
    var name := if "name" in body then Some(body["name"]) else None;
    var src := if "imageSrc" in body then Some(body["imageSrc"]) else None;
    var fn := if "itemFunction" in body then Some(body["itemFunction"]) else None;
    var coords := if "coordinates" in body then Some(body["coordinates"]) else None;
    var reversed := if "isReversed" in body then Some(body["isReversed"]) else None;
    if !NonBlank(name) then Some(NAME_REQUIRED)
    else if !TruthyOpt(src) || !src.value.JStr? then Some(IMAGE_SRC_REQUIRED)
    else if fn.None? then Some(ITEM_FUNCTION_REQUIRED)
    else if !AllowedItemFunction(fn.value) then Some(ITEM_FUNCTION_INVALID)
    else if !TruthyOpt(coords) || !TypeofObject(coords.value) then Some(COORDINATES_REQUIRED)
    else if !NumericCoordinates(coords.value) then Some(COORDINATES_NUMBERS)
    else if reversed.Some? && !reversed.value.JBool? then Some(IS_REVERSED_BOOLEAN)
    else if "imageSets" !in body then None
    else if !body["imageSets"].JArr? then Some(SETS_ARRAY)
    else SetsRejection(body["imageSets"].items, 0)
  }

  /** A create body every check accepts, stated field by field. */
  predicate ValidCreateBody(body: map<string, Json>) {
    && "name" in body && NonBlank(Some(body["name"]))
    && "imageSrc" in body && body["imageSrc"].JStr? && body["imageSrc"].s != ""
    && "itemFunction" in body && AllowedItemFunction(body["itemFunction"])
    && "coordinates" in body && body["coordinates"].JObj? && NumericCoordinates(body["coordinates"])
    && ("isReversed" in body ==> body["isReversed"].JBool?)
    && ("imageSets" in body ==> body["imageSets"].JArr? && forall j :: 0 <= j < |body["imageSets"].items| ==> SetFault(body["imageSets"].items[j]).None?)
  }

  /** The checks pass exactly on a valid body; a blank name is reported before anything else. */
  lemma CreateRejectionIffInvalid(body: map<string, Json>)
    ensures CreateRejection(body).None? <==> ValidCreateBody(body)
    ensures !NonBlank(if "name" in body then Some(body["name"]) else None) ==> CreateRejection(body) == Some(NAME_REQUIRED)
  {
    if "imageSets" in body && body["imageSets"].JArr? {
      SetsRejectionFirst(body["imageSets"].items, 0);
    }
  }

  /** The coordinates of a checked body. */
  function CoordinatesOf(v: Json): (c: Coords)
    requires NumericCoordinates(v)
    ensures Get(v, "x") == Some(JNum(c.x)) && Get(v, "y") == Some(JNum(c.y))
  {
    Coords(Get(v, "x").value.n, Get(v, "y").value.n)
  }

  /** An optional string property: absent gives `None`, a string gives its text; `ok` is false for any other value. */
  function OptString(body: map<string, Json>, key: string): (r: (bool, Option<string>))
    ensures key !in body ==> r == (true, None)
    ensures key in body && body[key].JStr? ==> r == (true, Some(body[key].s))
  {
    if key !in body then (true, None)
    else if body[key].JStr? then (true, Some(body[key].s))
    else (false, None)
  }

  /**
   * The service parameters of a checked body. `forwardOriginal` says whether
   * `originalObjectId` and `additionalData` are passed on: the handler as
   * written passes neither.
   */
  function CreateParamsOf(body: map<string, Json>, forwardOriginal: bool): ModifiedService.CreateParams
    requires ValidCreateBody(body)
  {
    ModifiedService.CreateParams(
      body["name"].s,
      Some(body["imageSrc"].s),
      if body["itemFunction"].JStr? then Some(body["itemFunction"].s) else None,
      CoordinatesOf(body["coordinates"]),
      if forwardOriginal then OptString(body, "originalObjectId").1 else None,
      OptString(body, "description").1,
      if "isReversed" in body then Some(body["isReversed"].b) else None,
      if forwardOriginal && "additionalData" in body then Some(body["additionalData"]) else None)
  }

  /**
   * The JSON of a stored placement, as `res.json` sends it; undefined fields
   * are left out, and so are `imageSrc` and `isReversed`, which a placed
   * object never holds.
   */
  function ModifiedJson(id: Id, m: Modified): Json {
    JObj(map["_id" := JId(id), "name" := JStr(m.name), "imageSets" := JArr(seq(|m.imageSets|, i requires 0 <= i < |m.imageSets| => SetJson(m.imageSets[i]))),
             "isUserMade" := JBool(m.isUserMade), "onType" := JStr(m.onType),
             "itemFunction" := (if m.itemFunction.Some? then JStr(m.itemFunction.value) else JNull),
             "coordinates" := JObj(map["x" := JNum(m.coordinates.x), "y" := JNum(m.coordinates.y)]),
             "additionalData" := m.additionalData,
             "createdAt" := JNum(m.createdAt as real)]
         + (if m.description.Some? then map["description" := JStr(m.description.value)] else map[])
         + (if m.currentImageSet.Some? then map["currentImageSet" := SetJson(m.currentImageSet.value)] else map[]))
  }

  /** Whether `description?.trim()` succeeds: the property is absent, null or a string. */
  predicate TrimmableDescription(body: map<string, Json>) {
    "description" in body ==> body["description"].JStr? || body["description"].JNull?
  }

  /**
   * `POST /modified` with the parameter forwarding chosen by `forwardOriginal`:
   * 400 for the first failing check, 500 for any service failure (including a
   * description that is neither a string nor null, whose `trim` throws before
   * anything is saved), 201 with the record. A failure after the save (the
   * caller's id does not cast) keeps the saved record.
   */
  function PostWith(cast: string -> Option<Id>, s: State, body: map<string, Json>, userId: string, forwardOriginal: bool): (h: Handled)
    ensures h.reply.status != 201 ==> h.state.users == s.users && h.state.objects == s.objects
    ensures h.reply.status != 201 && cast(userId).Some? ==> h.state == s
    ensures h.reply.status == 201 ==> TrimmableDescription(body) && cast(userId).Some?
    ensures CreateRejection(body).Some? ==> h == Handled(Message(400, CreateRejection(body).value), s)
    ensures CreateRejection(body).None? && !TrimmableDescription(body) ==> h == Handled(Message(500, CREATE_FAILED), s)
  {
    match CreateRejection(body)
    case Some(msg) => Handled(Message(400, msg), s)
    case None =>
      CreateRejectionIffInvalid(body);
      var p := CreateParamsOf(body, forwardOriginal);
      var o := ModifiedService.Create(cast, s, p, userId);
      if !TrimmableDescription(body) then Handled(Message(500, CREATE_FAILED), s)
      else if o.result.Err? then Handled(Message(500, CREATE_FAILED), o.state)
      else Handled(Reply(201, ModifiedJson(o.result.value.0, o.result.value.1)), o.state)
  }

  /** `POST /modified` as written: the body's `originalObjectId` is not passed to the service. */
  function PostAsWritten(cast: string -> Option<Id>, s: State, body: map<string, Json>, userId: string): (h: Handled)
    ensures h.reply.status != 201 ==> h.state.users == s.users && h.state.objects == s.objects
  {
    PostWith(cast, s, body, userId, false)
  }

  /**
   * As written, no body is ever created: every body that passes the checks
   * reaches the service without an original object id, the lookup finds
   * nothing and the reply is 500 with nothing stored.
   */
  lemma PostAsWrittenNeverCreates(cast: string -> Option<Id>, s: State, body: map<string, Json>, userId: string)
    requires ValidCreateBody(body)
    ensures PostAsWritten(cast, s, body, userId) == Handled(Message(500, CREATE_FAILED), s)
  {
    CreateRejectionIffInvalid(body);
    var p := CreateParamsOf(body, false);
    assert p.originalObjectId.None?;
    assert ModifiedService.CreateRejection(cast, s, p) == Some(ModifiedService.ORIGINAL_NOT_FOUND);
  }

  /** `POST /modified` as intended: `originalObjectId` and `additionalData` are passed on. */
  function Post(cast: string -> Option<Id>, s: State, body: map<string, Json>, userId: string): (h: Handled)
    ensures h.reply.status != 201 ==> h.state.users == s.users && h.state.objects == s.objects
    ensures h.reply.status != 201 && cast(userId).Some? ==> h.state == s
    ensures h.reply.status == 201 ==> ValidCreateBody(body)
  {
    CreateRejectionIffInvalid(body);
    PostWith(cast, s, body, userId, true)
  }

  /**
   * As intended, a checked body whose original object exists and has image
   * sets, and whose description is a string, null or absent, gives 201 with the
   * record the service created, whose key is appended to the caller's list.
   */
  lemma PostCreates(cast: string -> Option<Id>, s: State, body: map<string, Json>, userId: string)
    requires ValidCreateBody(body)
    requires "originalObjectId" in body && body["originalObjectId"].JStr?
    requires cast(body["originalObjectId"].s).Some? && cast(body["originalObjectId"].s).value in s.objects
    requires |s.objects[cast(body["originalObjectId"].s).value].imageSets| > 0
    requires TrimmableDescription(body)
    requires cast(userId).Some? && cast(userId).value in s.users
    ensures var h := Post(cast, s, body, userId); var c := ModifiedService.Create(cast, s, CreateParamsOf(body, true), userId);
      c.result.Ok? && h == Handled(Reply(201, ModifiedJson(c.result.value.0, c.result.value.1)), c.state)
      && h.state.users[cast(userId).value].modifiedObjectIds == s.users[cast(userId).value].modifiedObjectIds + [s.nextId]
      && h.state.modified[s.nextId] == c.result.value.1
  {
    CreateRejectionIffInvalid(body);
    var p := CreateParamsOf(body, true);
    assert p.originalObjectId == Some(body["originalObjectId"].s);
    ModifiedService.CreatedState(cast, s, p, userId);
  }

  /** A concrete request that shows the difference: the same body fails as written and succeeds as intended. */
  lemma PostDiscrepancy(cast: string -> Option<Id>, s: State, userId: string, originalId: string, name: string, src: string)
    requires cast(originalId).Some? && cast(originalId).value in s.objects
    requires |s.objects[cast(originalId).value].imageSets| > 0
    requires cast(userId).Some? && cast(userId).value in s.users
    requires HasNonSpace(name) && src != ""
    ensures var body := map["name" := JStr(name), "imageSrc" := JStr(src), "itemFunction" := JNull,
                            "coordinates" := JObj(map["x" := JNum(0.5), "y" := JNum(0.25)]),
                            "originalObjectId" := JStr(originalId)];
      PostAsWritten(cast, s, body, userId).reply.status == 500 && Post(cast, s, body, userId).reply.status == 201
  {
    var body := map["name" := JStr(name), "imageSrc" := JStr(src), "itemFunction" := JNull,
                    "coordinates" := JObj(map["x" := JNum(0.5), "y" := JNum(0.25)]),
                    "originalObjectId" := JStr(originalId)];
    assert NumericCoordinates(body["coordinates"]);
    assert ValidCreateBody(body);
    PostAsWrittenNeverCreates(cast, s, body, userId);
    PostCreates(cast, s, body, userId);
  }

  // ---------------------------------------------------------------- PATCH

  /** The checks of `PATCH /modified/:id` before the service runs, in their order. */
  function UpdateRejection(body: map<string, Json>): (r: Option<Reply>)
    ensures |body| == 0 ==> r == Some(Message(400, BODY_EMPTY))
    ensures |body| > 0 && "imageSets" in body ==> r == Some(Message(400, ModifiedService.SETS_IMMUTABLE))
    ensures r.Some? ==> r.value.status in {400, 500}
  {
    if |body| == 0 then Some(Message(400, BODY_EMPTY))
    else if "imageSets" in body then Some(Message(400, ModifiedService.SETS_IMMUTABLE))
    else if "coordinates" in body && !TypeofObject(body["coordinates"]) then Some(Message(400, COORDINATES_OBJECT))
    // `null.x` throws a TypeError whose message matches no mapped keyword
    else if "coordinates" in body && body["coordinates"].JNull? then Some(Message(500, UPDATE_FAILED))
    else if "coordinates" in body && !NumericCoordinates(body["coordinates"]) then Some(Message(400, COORDINATES_NUMBERS))
    else if "itemFunction" in body && !AllowedItemFunction(body["itemFunction"]) then Some(Message(400, ITEM_FUNCTION_INVALID))
    else if "isReversed" in body && !body["isReversed"].JBool? then Some(Message(400, IS_REVERSED_BOOLEAN))
    else None
  }

  /** A non-empty update body every check accepts, stated field by field. */
  predicate ValidUpdateBody(body: map<string, Json>) {
    && |body| > 0 && "imageSets" !in body
    && ("coordinates" in body ==> (body["coordinates"].JObj? || body["coordinates"].JArr? || body["coordinates"].JId?)
                                  && NumericCoordinates(body["coordinates"]))
    && ("itemFunction" in body ==> AllowedItemFunction(body["itemFunction"]))
    && ("isReversed" in body ==> body["isReversed"].JBool?)
  }

  /** The checks pass exactly on a valid body. */
  lemma UpdateRejectionIffInvalid(body: map<string, Json>)
    ensures UpdateRejection(body).None? <==> ValidUpdateBody(body)
  {
  }

  /** Whether name and description have the types the service's `trim` calls need. */
  predicate TrimmableTexts(body: map<string, Json>) {
    OptString(body, "name").0 && ("description" in body ==> body["description"].JStr? || body["description"].JNull?)
  }

  /** The service parameters of a checked body; the `imageSets` property is absent by then. */
  function UpdateParamsOf(body: map<string, Json>): ModifiedService.UpdateParams
    requires ValidUpdateBody(body)
  {
    ModifiedService.UpdateParams(
      OptString(body, "name").1,
      if "description" in body then Some(if body["description"].JStr? then Some(body["description"].s) else None) else None,
      if "itemFunction" in body then Some(if body["itemFunction"].JStr? then Some(body["itemFunction"].s) else None) else None,
      if "additionalData" in body then Some(body["additionalData"]) else None,
      if "coordinates" in body then Some(CoordinatesOf(body["coordinates"])) else None,
      OptString(body, "imageSrc").1,
      None,
      if "isReversed" in body then Some(body["isReversed"].b) else None)
  }

  /** The status a service error of an update maps to. */
  function UpdateErrorReply(msg: string): (r: Reply)
    ensures msg == ModifiedService.NOT_FOUND ==> r == Message(404, ModifiedService.NOT_FOUND)
    ensures msg != ModifiedService.NOT_FOUND && Contains(msg, "Forbidden") ==> r == Message(403, msg)
    ensures r.status == 400 <==> (msg != ModifiedService.NOT_FOUND && !Contains(msg, "Forbidden")
      && (Contains(msg, "imageSrc can only be updated") || Contains(msg, "coordinates") || Contains(msg, "itemFunction") || Contains(msg, "imageSets")))
    ensures r.status in {400, 403, 404, 500}
  {
    if msg == ModifiedService.NOT_FOUND then Message(404, ModifiedService.NOT_FOUND)
    else if Contains(msg, "Forbidden") then Message(403, msg)
    else if Contains(msg, "imageSrc can only be updated") || Contains(msg, "coordinates")
         || Contains(msg, "itemFunction") || Contains(msg, "imageSets") then Message(400, msg)
    else Message(500, UPDATE_FAILED)
  }

  /**
   * `PATCH /modified/:id`: the checks, then the service's update; its errors
   * are mapped to statuses, and a name or description the service cannot
   * trim fails with 500 once the ownership checks pass.
   */
  function Patch(cast: string -> Option<Id>, s: State, raw: string, body: map<string, Json>, userId: string): (h: Handled)
    ensures h.reply.status != 200 ==> h.state == s
    ensures UpdateRejection(body).Some? ==> h == Handled(UpdateRejection(body).value, s)
  {
    match UpdateRejection(body)
    case Some(r) => Handled(r, s)
    case None =>
      UpdateRejectionIffInvalid(body);
      var rejection := ModifiedService.OwnershipRejection(cast, s, raw, userId, ModifiedService.FORBIDDEN_UPDATE);
      if rejection.Some? then Handled(UpdateErrorReply(rejection.value), s)
      else if !TrimmableTexts(body) then Handled(Message(500, UPDATE_FAILED), s)
      else
        var o := ModifiedService.Update(cast, s, raw, UpdateParamsOf(body), userId);
        match o.result
        case Err(msg) => Handled(UpdateErrorReply(msg), s)
        case Ok(m) => Handled(Reply(200, ModifiedJson(cast(raw).value, m)), o.state)
  }

  /**
   * An unknown placement gives 404 and a placement the caller does not own
   * 403, whatever the (valid) body says. A valid update of an owned placement
   * is saved: when the schema accepts the overwritten record, 200 with the
   * record as saved; otherwise the validation error, which names the failed
   * paths, is mapped to its status and nothing changes.
   */
  lemma PatchOutcomes(cast: string -> Option<Id>, s: State, raw: string, body: map<string, Json>, userId: string)
    requires ValidUpdateBody(body)
    ensures var h := Patch(cast, s, raw, body, userId);
      (cast(raw).Some? && cast(raw).value !in s.modified ==> h == Handled(Message(404, ModifiedService.NOT_FOUND), s))
      && (cast(raw).Some? && cast(raw).value in s.modified && cast(userId).Some?
          && (cast(userId).value !in s.users || cast(raw).value !in s.users[cast(userId).value].modifiedObjectIds)
          ==> h == Handled(Message(403, ModifiedService.FORBIDDEN_UPDATE), s))
      && (Owned(cast, s, raw, userId) && TrimmableTexts(body)
          ==> var k := cast(raw).value;
              var saved := SaveModified(ModifiedService.ApplyUpdate(s.modified[k], UpdateParamsOf(body)));
              (saved.Ok? ==> h == Handled(Reply(200, ModifiedJson(k, saved.value)), s.(modified := s.modified[k := saved.value])))
              && (saved.Err? ==> h == Handled(UpdateErrorReply(saved.error), s)))
  {
    UpdateRejectionIffInvalid(body);
    assert UpdateErrorReply(ModifiedService.NOT_FOUND) == Message(404, ModifiedService.NOT_FOUND);
    ForbiddenUpdateReply();
    if Owned(cast, s, raw, userId) && TrimmableTexts(body) {
      PatchOwned(cast, s, raw, body, userId);
    }
  }

  /** The update of an owned placement reaches the save, and the save decides the reply. */
  lemma PatchOwned(cast: string -> Option<Id>, s: State, raw: string, body: map<string, Json>, userId: string)
    requires ValidUpdateBody(body) && Owned(cast, s, raw, userId) && TrimmableTexts(body)
    ensures var h := Patch(cast, s, raw, body, userId); var k := cast(raw).value;
      var saved := SaveModified(ModifiedService.ApplyUpdate(s.modified[k], UpdateParamsOf(body)));
      (saved.Ok? ==> h == Handled(Reply(200, ModifiedJson(k, saved.value)), s.(modified := s.modified[k := saved.value])))
      && (saved.Err? ==> h == Handled(UpdateErrorReply(saved.error), s))
  {
    UpdateRejectionIffInvalid(body);
    assert ModifiedService.OwnershipRejection(cast, s, raw, userId, ModifiedService.FORBIDDEN_UPDATE).None?;
  }

  /** The caller owns a stored placement. */
  predicate Owned(cast: string -> Option<Id>, s: State, raw: string, userId: string) {
    cast(raw).Some? && cast(raw).value in s.modified
    && cast(userId).Some? && cast(userId).value in s.users
    && cast(raw).value in s.users[cast(userId).value].modifiedObjectIds
  }

  /** The ownership refusal of an update is answered 403 with its own message. */
  lemma ForbiddenUpdateReply()
    ensures UpdateErrorReply(ModifiedService.FORBIDDEN_UPDATE) == Message(403, ModifiedService.FORBIDDEN_UPDATE)
  {
    ContainsPrefix(ModifiedService.FORBIDDEN, ModifiedService.FORBIDDEN_UPDATE[|ModifiedService.FORBIDDEN|..]);
    assert ModifiedService.FORBIDDEN + ModifiedService.FORBIDDEN_UPDATE[|ModifiedService.FORBIDDEN|..] == ModifiedService.FORBIDDEN_UPDATE;
    assert ModifiedService.FORBIDDEN_UPDATE != ModifiedService.NOT_FOUND by {
      assert |ModifiedService.FORBIDDEN_UPDATE| != |ModifiedService.NOT_FOUND|;
    }
  }

  /**
   * Setting `itemFunction` to null on a placement the schema accepts passes
   * the handler's checks but fails the required validator on save: 400 with
   * the validation message, which names `itemFunction`, and nothing stored.
   */
  lemma PatchNullFunction(cast: string -> Option<Id>, s: State, raw: string, userId: string)
    requires Owned(cast, s, raw, userId) && ValidModified(s.modified[cast(raw).value])
    ensures Patch(cast, s, raw, map["itemFunction" := JNull], userId)
      == Handled(Message(400, ValidationMessage([Missing("itemFunction", "itemFunction")])), s)
  {
    var body := map["itemFunction" := JNull];
    var m := s.modified[cast(raw).value];
    NullFunctionUpdate(m);
    ClearedFunctionRefused(m);
    PatchOwned(cast, s, raw, body, userId);
    FunctionMessageMapsTo400();
  }

  /**
   * Blanking the name of a placement the schema accepts passes the handler's
   * checks but fails the required validator on save; the message names no
   * mapped word, so the reply is the generic 500 and nothing is stored.
   */
  lemma PatchBlankName(cast: string -> Option<Id>, s: State, raw: string, userId: string, name: string)
    requires Owned(cast, s, raw, userId) && ValidModified(s.modified[cast(raw).value]) && IsBlank(name)
    ensures Patch(cast, s, raw, map["name" := JStr(name)], userId) == Handled(Message(500, UPDATE_FAILED), s)
  {
    var body := map["name" := JStr(name)];
    var m := s.modified[cast(raw).value];
    NameUpdate(m, name);
    assert Trim(name) == [];
    EmptyNameRefused(m);
    PatchOwned(cast, s, raw, body, userId);
    NameMessageMapsTo500();
  }

  /** A body holding only a null function clears the function and nothing else. */
  lemma NullFunctionUpdate(m: Modified)
    ensures var body := map["itemFunction" := JNull];
      ValidUpdateBody(body) && TrimmableTexts(body)
      && ModifiedService.ApplyUpdate(m, UpdateParamsOf(body)) == m.(itemFunction := None)
  {
    var body := map["itemFunction" := JNull];
    assert ValidUpdateBody(body);
  }

  /** A body holding only a string name replaces the name, trimmed, and nothing else. */
  lemma NameUpdate(m: Modified, name: string)
    ensures var body := map["name" := JStr(name)];
      ValidUpdateBody(body) && TrimmableTexts(body)
      && ModifiedService.ApplyUpdate(m, UpdateParamsOf(body)) == m.(name := Trim(name))
  {
    var body := map["name" := JStr(name)];
    assert ValidUpdateBody(body);
  }

  /** The message of a missing function contains `itemFunction` and not `Forbidden`, so it maps to 400. */
  lemma FunctionMessageMapsTo400()
    ensures var msg := ValidationMessage([Missing("itemFunction", "itemFunction")]);
      UpdateErrorReply(msg) == Message(400, msg)
  {
    var msg := ValidationMessage([Missing("itemFunction", "itemFunction")]);
    MissingMessage("itemFunction");
    FunctionMessageLetters(msg);
    PairAbsentNotContained(msg, "Forbidden", 0);
  }

  /** The message of a missing function has no `F` directly followed by `o`. */
  lemma FunctionMessageLetters(msg: string)
    requires msg == (MODIFIED_VALIDATION_FAILED + ": ") + ("itemFunction" + (": " + ("Path `" + "itemFunction" + "` is required.")))
    ensures PairFree(msg, 'F', 'o') && msg != ModifiedService.NOT_FOUND
  {
    var a := MODIFIED_VALIDATION_FAILED + ": ";
    var b := "itemFunction" + (": " + ("Path `" + "itemFunction" + "` is required."));
    MessageStartPairs();
    assert PairFree(b, 'F', 'o');
    PairFreeAppend(a, b, 'F', 'o');
    assert |msg| != |ModifiedService.NOT_FOUND|;
  }

  /** The message of a missing name contains none of the mapped words, so it maps to 500. */
  lemma NameMessageMapsTo500()
    ensures UpdateErrorReply(ValidationMessage([Missing("name", "name")])) == Message(500, UPDATE_FAILED)
  {
    var msg := ValidationMessage([Missing("name", "name")]);
    MissingMessage("name");
    NameMessageLetters(msg);
    NoMappedWord(msg);
  }

  /** The message of a missing name has no `F`, no `S` and no `c` directly followed by `o`. */
  lemma NameMessageLetters(msg: string)
    requires msg == (MODIFIED_VALIDATION_FAILED + ": ") + ("name" + (": " + ("Path `" + "name" + "` is required.")))
    ensures 'F' !in msg && 'S' !in msg && PairFree(msg, 'c', 'o') && msg != ModifiedService.NOT_FOUND
  {
    var a := MODIFIED_VALIDATION_FAILED + ": ";
    var b := "name" + (": " + ("Path `" + "name" + "` is required."));
    MessageStartChars();
    MessageStartPairs();
    assert 'F' !in b && 'S' !in b && PairFree(b, 'c', 'o');
    PairFreeAppend(a, b, 'c', 'o');
    assert |msg| != |ModifiedService.NOT_FOUND|;
  }

  /** A text without `F`, without `S` and without `co` holds none of the words the update errors are mapped by. */
  lemma NoMappedWord(msg: string)
    requires 'F' !in msg && 'S' !in msg && PairFree(msg, 'c', 'o')
    ensures !Contains(msg, "Forbidden") && !Contains(msg, "itemFunction") && !Contains(msg, "imageSets")
      && !Contains(msg, "imageSrc can only be updated") && !Contains(msg, "coordinates")
  {
    CharAbsentNotContained(msg, "Forbidden", 0);
    CharAbsentNotContained(msg, "itemFunction", 4);
    CharAbsentNotContained(msg, "imageSets", 5);
    CharAbsentNotContained(msg, "imageSrc can only be updated", 5);
    PairAbsentNotContained(msg, "coordinates", 0);
  }

  // ---------------------------------------------------------------- DELETE

  /** The status a service error of a deletion maps to. */
  function DeleteErrorReply(msg: string): (r: Reply)
    ensures msg == ModifiedService.NOT_FOUND ==> r == Message(404, ModifiedService.NOT_FOUND)
    ensures msg != ModifiedService.NOT_FOUND && Contains(msg, "Forbidden") ==> r == Message(403, msg)
    ensures msg != ModifiedService.NOT_FOUND && !Contains(msg, "Forbidden") ==> r == Message(500, DELETE_FAILED)
  {
    if msg == ModifiedService.NOT_FOUND then Message(404, ModifiedService.NOT_FOUND)
    else if Contains(msg, "Forbidden") then Message(403, msg)
    else Message(500, DELETE_FAILED)
  }

  /** `DELETE /modified/:id`: 204 with no body once the service deleted the placement. */
  function Delete(cast: string -> Option<Id>, s: State, raw: string, userId: string): (h: Handled)
    ensures h.reply.status == 204 <==> ModifiedService.Delete(cast, s, raw, userId).result.Ok?
    ensures h.state == ModifiedService.Delete(cast, s, raw, userId).state
  {
    var o := ModifiedService.Delete(cast, s, raw, userId);
    match o.result
    case Err(msg) => Handled(DeleteErrorReply(msg), o.state)
    case Ok(_) => Handled(Reply(204, JNull), o.state)
  }

  /**
   * Deleting an owned placement gives 204, pulls its key from the caller's
   * list and drops the record; an unknown one gives 404 and one owned by
   * someone else 403, with nothing changed.
   */
  lemma RemoveOutcomes(cast: string -> Option<Id>, s: State, raw: string, userId: string)
    ensures var h := Delete(cast, s, raw, userId);
      (cast(raw).Some? && cast(raw).value !in s.modified ==> h == Handled(Message(404, ModifiedService.NOT_FOUND), s))
      && (cast(raw).Some? && cast(raw).value in s.modified && cast(userId).Some?
          && (cast(userId).value !in s.users || cast(raw).value !in s.users[cast(userId).value].modifiedObjectIds)
          ==> h == Handled(Message(403, ModifiedService.FORBIDDEN_DELETE), s))
      && (h.reply.status == 204 ==> var k := cast(raw).value; var u := cast(userId).value;
          k !in h.state.modified && u in h.state.users && k !in h.state.users[u].modifiedObjectIds)
  {
    ContainsPrefix(ModifiedService.FORBIDDEN, ModifiedService.FORBIDDEN_DELETE[|ModifiedService.FORBIDDEN|..]);
    assert ModifiedService.FORBIDDEN + ModifiedService.FORBIDDEN_DELETE[|ModifiedService.FORBIDDEN|..] == ModifiedService.FORBIDDEN_DELETE;
    assert ModifiedService.FORBIDDEN_DELETE != ModifiedService.NOT_FOUND by {
      assert |ModifiedService.FORBIDDEN_DELETE| != |ModifiedService.NOT_FOUND|;
    }
    if Delete(cast, s, raw, userId).reply.status == 204 {
      ModifiedService.DeleteOwned(cast, s, raw, userId);
    }
  }
}

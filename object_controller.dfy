/**
 * The `/object` routes: the content check of the generation routes, the two
 * listings, the multipart creation of preset objects and the administrator's
 * update and deletion of preset objects. Authentication happens before these
 * handlers and is not part of this module; a handler receives the caller's id.
 */
module ObjectController {
  import opened Wrappers
  import opened Json
  import opened Text
  import opened Models
  import opened Store
  import opened Http
  import ObjectService
  import ObjectForm
  import ImageConverter

  const CONTENT_REQUIRED := "content field is required and must be a non-empty string"
  const FOLLOWUP_FAILED := "Failed to generate follow-up question"
  const CREATE_FAILED := "Failed to create object"
  const USER_NOT_FOUND := "User not found"
  const FETCH_FAILED := "Failed to fetch objects"
  const FILES_REQUIRED := "files are required and must be a non-empty array"
  const NAME_ON_TYPE_REQUIRED := "name and onType are required fields"
  const ON_TYPE_INVALID := "onType must be one of: LeftWall, RightWall, Floor"
  const SETS_REQUIRED := "At least one imageSet is required"
  const CREATE_BASIC_FAILED := "Failed to create basic object"
  const NOT_FOUND := "Object not found"
  const CANNOT_UPDATE := "Cannot update user-made objects. Only preset objects can be updated."
  const SETS_NON_EMPTY := "imageSets must be a non-empty array"
  const SET_FIELDS := "Each imageSet must have name, color, and src fields"
  const UPDATE_FAILED := "Failed to update preset object"
  const CANNOT_DELETE := "Cannot delete user-made objects. Only preset objects can be deleted."
  const DELETED := "Preset object deleted successfully"
  const DELETE_FAILED := "Failed to delete preset object"

  /** The placements the handlers accept for `onType`. */
  const PLACEMENTS: set<string> := {"LeftWall", "RightWall", "Floor"}

  // ---------------------------------------------------------------- responses

  /** The JSON of a stored catalog object, as `res.json` sends it; an absent description is left out. */
  function ObjectJson(id: Id, o: ImageObject): Json {
    JObj(map["_id" := JId(id), "name" := JStr(o.name), "currentImageSet" := SetJson(o.currentImageSet),
             "imageSets" := JArr(seq(|o.imageSets|, i requires 0 <= i < |o.imageSets| => SetJson(o.imageSets[i]))),
             "isUserMade" := JBool(o.isUserMade), "onType" := JStr(o.onType), "createdAt" := JNum(o.createdAt as real)]
         + (if o.description.Some? then map["description" := JStr(o.description.value)] else map[]))
  }

  /** A list of catalog objects in the order given. */
  function ObjectsJson(list: seq<(Id, ImageObject)>): Json {
    JArr(seq(|list|, i requires 0 <= i < |list| => ObjectJson(list[i].0, list[i].1)))
  }

  // ---------------------------------------------------------------- generation routes

  /**
   * The content check of `POST /object/followup` and `POST /object`: the
   * content must be a string that is not blank once trimmed.
   */
  function ContentOf(body: map<string, Json>): (r: Option<string>)
    ensures r.Some? <==> "content" in body && body["content"].JStr? && Trim(body["content"].s) != ""
    ensures r.Some? ==> r.value == body["content"].s
  {
    if NonBlank(FieldOf(body, "content")) then
      HasNonSpaceIffNotBlank(body["content"].s);
      Some(body["content"].s)
    else if "content" in body && body["content"].JStr? then
      HasNonSpaceIffNotBlank(body["content"].s);
      None
    else None
  }

  /**
   * `POST /object/followup`: 400 for rejected content, before the generator
   * is asked; otherwise 200 with the trimmed question, or 500 when the
   * generator fails.
   */
  function Followup(c: ObjectService.Collaborators, body: map<string, Json>): (r: Reply)
    ensures ContentOf(body).None? ==> r == Message(400, CONTENT_REQUIRED)
    ensures ContentOf(body).Some? ==> (r.status == 200 <==> c.followUpText(ContentOf(body).value).Ok?)
    ensures ContentOf(body).Some? && r.status != 200 ==> r == Message(500, FOLLOWUP_FAILED)
    ensures r.status == 200 ==> exists q :: r.body == JObj(map["question" := JStr(q)]) && Trim(q) == q
  {
    match ContentOf(body)
    case None => Message(400, CONTENT_REQUIRED)
    case Some(content) =>
      match ObjectService.FollowUpQuestion(c, content)
      case Err(_) => Message(500, FOLLOWUP_FAILED)
      case Ok(q) => Reply(200, JObj(map["question" := JStr(q)]))
  }

  /**
   * `POST /object`: 400 for rejected content with nothing generated or
   * stored; otherwise the service runs and its state stands, with 201 and the
   * object when it succeeds and 500 when it fails.
   */
  function Create(c: ObjectService.Collaborators, cast: string -> Option<Id>, s: State, body: map<string, Json>, userId: string)
    : (h: Handled)
    ensures ContentOf(body).None? ==> h == Handled(Message(400, CONTENT_REQUIRED), s)
    ensures ContentOf(body).Some? ==> h.reply.status in {201, 500}
  {
    match ContentOf(body)
    case None => Handled(Message(400, CONTENT_REQUIRED), s)
    case Some(content) =>
      var o := ObjectService.CreateUserObject(c, cast, s, content, userId);
      match o.result
      case Err(_) => Handled(Message(500, CREATE_FAILED), o.state)
      case Ok((id, obj)) => Handled(Reply(201, ObjectJson(id, obj)), o.state)
  }

  /**
   * A 201 from `POST /object` for a known user reports the object stored
   * under the fresh key, user-made, whose key was appended to the user's
   * `objectIds`, the only change to that user's record.
   */
  lemma CreateReportsStored(c: ObjectService.Collaborators, cast: string -> Option<Id>, s: State, body: map<string, Json>, userId: string)
    requires Create(c, cast, s, body, userId).reply.status == 201
    requires cast(userId).Some? && cast(userId).value in s.users
    ensures var h := Create(c, cast, s, body, userId); var u := cast(userId).value;
      s.nextId in h.state.objects && h.reply == Reply(201, ObjectJson(s.nextId, h.state.objects[s.nextId]))
      && h.state.objects[s.nextId].isUserMade
      && u in h.state.users && h.state.users[u].objectIds == s.users[u].objectIds + [s.nextId]
      && h.state.users[u] == s.users[u].(objectIds := s.users[u].objectIds + [s.nextId])
  {
    var content := ContentOf(body).value;
    ObjectService.UserObjectCreated(c, cast, s, content, userId);
    var (metadata, url) := ObjectService.GenerateAndUpload(c, content, userId, s.clock).value;
    ObjectService.UserObjectFields(metadata, url, s.clock);
  }

  /**
   * When the caller's user document is gone, the generated object is still
   * stored under the fresh key and the reply is 201, yet no user lists the
   * object.
   */
  lemma CreateForUnknownUser(c: ObjectService.Collaborators, cast: string -> Option<Id>, s: State,
                             body: map<string, Json>, userId: string)
    requires ContentOf(body).Some?
    requires cast(userId).Some? && cast(userId).value !in s.users
    requires var g := ObjectService.GenerateAndUpload(c, ContentOf(body).value, userId, s.clock);
      g.Ok? && ObjectService.SavedUserObject(g.value.0, g.value.1, s.clock).Ok?
    ensures var h := Create(c, cast, s, body, userId);
      h.reply.status == 201 && s.nextId in h.state.objects && h.state.users == s.users
  {
    var content := ContentOf(body).value;
    var (metadata, url) := ObjectService.GenerateAndUpload(c, content, userId, s.clock).value;
    var saved := ObjectService.SavedUserObject(metadata, url, s.clock);
    assert ObjectService.CreateUserObject(c, cast, s, content, userId) == ObjectService.StoreUserObject(cast, s, userId, saved);
    ObjectService.UnknownUserStillStores(cast, s, userId, saved);
  }

  // ---------------------------------------------------------------- listings

  function CreatedAtOfObject(o: ImageObject): nat {
    o.createdAt
  }

  function UserMade(o: ImageObject): bool {
    o.isUserMade
  }

  function Preset(o: ImageObject): bool {
    !o.isUserMade
  }

  /**
   * `GET /object`: 404 for an unknown user, 500 when the id does not cast;
   * otherwise 200 with exactly the user-made objects whose keys the user
   * lists, each once, newest first (an empty list when it lists none).
   */
  method ListUserObjects(db: Db, userId: string) returns (reply: Reply, listed: seq<(Id, ImageObject)>)
    ensures FindUser(db.cast, db.Snapshot(), userId).Err? ==> reply == Message(500, FETCH_FAILED) && listed == []
    ensures FindUser(db.cast, db.Snapshot(), userId) == Ok(None) ==> reply == Message(404, USER_NOT_FOUND) && listed == []
    ensures FindUser(db.cast, db.Snapshot(), userId).Ok? && FindUser(db.cast, db.Snapshot(), userId).value.Some? ==>
      var u := FindUser(db.cast, db.Snapshot(), userId).value.value.1;
      reply == Reply(200, ObjectsJson(listed))
      && NewestFirst(listed, CreatedAtOfObject) && DistinctKeys(listed)
      && forall k, o :: (k, o) in listed <==> k in u.objectIds && k in db.objects && o == db.objects[k] && o.isUserMade
  {
    var found := FindUser(db.cast, db.Snapshot(), userId);
    if found.Err? {
      return Message(500, FETCH_FAILED), [];
    }
    if found.value.None? {
      return Message(404, USER_NOT_FOUND), [];
    }
    var u := found.value.value.1;
    if |u.objectIds| == 0 {
      return Reply(200, ObjectsJson([])), [];
    }
    var wanted := set k | k in u.objectIds;
    listed := CollectNewestFirst(db.objects, wanted, UserMade, CreatedAtOfObject);
    reply := Reply(200, ObjectsJson(listed));
  }

  /** `GET /object/basic`: 200 with exactly the preset objects, each once, newest first. */
  method ListPresetObjects(db: Db) returns (reply: Reply, listed: seq<(Id, ImageObject)>)
    ensures reply == Reply(200, ObjectsJson(listed))
    ensures NewestFirst(listed, CreatedAtOfObject) && DistinctKeys(listed)
    ensures forall k, o :: (k, o) in listed <==> k in db.objects && o == db.objects[k] && !o.isUserMade
  {
    listed := CollectNewestFirst(db.objects, db.objects.Keys, Preset, CreatedAtOfObject);
    reply := Reply(200, ObjectsJson(listed));
  }

  // ---------------------------------------------------------------- POST /object/basic

  /** The checks of `POST /object/basic` before the sets are collected, in their order. */
  function BasicRejection(body: map<string, Json>, files: seq<ObjectService.UploadFile>): (r: Option<string>)
    ensures r.None? <==> |files| > 0 && TruthyOpt(FieldOf(body, "name"))
                         && "onType" in body && body["onType"].JStr? && body["onType"].s in PLACEMENTS
  {
    if |files| == 0 then Some(FILES_REQUIRED)
    else if !TruthyOpt(FieldOf(body, "name")) || !TruthyOpt(FieldOf(body, "onType")) then Some(NAME_ON_TYPE_REQUIRED)
    else if !(body["onType"].JStr? && body["onType"].s in PLACEMENTS) then Some(ON_TYPE_INVALID)
    else None
  }

  /**
   * The checks report the missing files first, then a missing name or
   * `onType`, then an `onType` that is not a placement.
   */
  lemma BasicRejectionOrder(body: map<string, Json>, files: seq<ObjectService.UploadFile>)
    ensures |files| == 0 ==> BasicRejection(body, files) == Some(FILES_REQUIRED)
    ensures |files| > 0 && (!TruthyOpt(FieldOf(body, "name")) || !TruthyOpt(FieldOf(body, "onType")))
            ==> BasicRejection(body, files) == Some(NAME_ON_TYPE_REQUIRED)
    ensures BasicRejection(body, files) == Some(ON_TYPE_INVALID) ==> "onType" in body && Truthy(body["onType"])
  {
  }

  /** The collected sets, in index order. */
  function BasicInputs(body: map<string, Json>, order: seq<string>, files: seq<ObjectService.UploadFile>): seq<ObjectForm.SetInput> {
    ObjectForm.Values(ObjectForm.SortedEntries(ObjectForm.Assembled(body, order, files)))
  }

  /** Every collected set has a file. */
  predicate AllFiled(inputs: seq<ObjectForm.SetInput>) {
    forall i :: 0 <= i < |inputs| ==> inputs[i].file.Some?
  }

  /** The checked sets as the service takes them. */
  function Uploads(inputs: seq<ObjectForm.SetInput>): (r: seq<ObjectService.SetUpload>)
    requires AllFiled(inputs)
    ensures |r| == |inputs|
    ensures forall i :: 0 <= i < |r| ==>
      r[i] == ObjectService.SetUpload(inputs[i].name, inputs[i].color, inputs[i].file.value)
  {
    seq(|inputs|, i requires 0 <= i < |inputs| =>
      ObjectService.SetUpload(inputs[i].name, inputs[i].color, inputs[i].file.value))
  }

  /** Sets that pass the position check all have files. */
  lemma CheckedInputsFiled(inputs: seq<ObjectForm.SetInput>)
    requires ObjectForm.InputsRejection(inputs, 0).None?
    ensures AllFiled(inputs)
  {
    ObjectForm.InputsRejectionFirst(inputs, 0);
  }

  /**
   * The checks of `POST /object/basic` on the collected sets `inputs`: those
   * before collection, then a non-empty list, then each set complete by
   * position. What passes is the list of sets the service is called with.
   */
  function BasicCheck(body: map<string, Json>, files: seq<ObjectService.UploadFile>, inputs: seq<ObjectForm.SetInput>)
    : (r: Result<seq<ObjectService.SetUpload>>)
    ensures r.Ok? ==> BasicRejection(body, files).None? && |inputs| > 0 && AllFiled(inputs) && r.value == Uploads(inputs)
    ensures r.Ok? <==> BasicRejection(body, files).None? && |inputs| > 0
                       && forall k :: 0 <= k < |inputs| ==> ObjectForm.InputFault(inputs[k]).None?
  {
    match BasicRejection(body, files)
    case Some(msg) => Err(msg)
    case None =>
      ObjectForm.InputsRejectionFirst(inputs, 0);
      if |inputs| == 0 then Err(SETS_REQUIRED)
      else
        match ObjectForm.InputsRejection(inputs, 0)
        case Some(msg) => Err(msg)
        case None => CheckedInputsFiled(inputs); Ok(Uploads(inputs))
  }

  /**
   * Once the first checks pass, an empty list is refused, and an incomplete
   * set is reported by its position in the index order (not by the index in
   * its field names): the first incomplete one, with what it lacks.
   */
  lemma BasicCheckReportsPosition(body: map<string, Json>, files: seq<ObjectService.UploadFile>, inputs: seq<ObjectForm.SetInput>)
    requires BasicRejection(body, files).None?
    ensures |inputs| == 0 ==> BasicCheck(body, files, inputs) == Err(SETS_REQUIRED)
    ensures var j := ObjectForm.FirstIncomplete(inputs, 0);
      |inputs| > 0 && j < |inputs| ==>
      BasicCheck(body, files, inputs) == Err(ObjectForm.InputMessage(j, ObjectForm.InputFault(inputs[j]).value))
  {
    ObjectForm.InputsRejectionFirst(inputs, 0);
  }

  /** The reply to the service's outcome: 201 with the stored object, or 500. */
  function PresetReply(o: Outcome<(Id, ImageObject)>): (h: Handled) {
    match o.result
    case Err(_) => Handled(Message(500, CREATE_BASIC_FAILED), o.state)
    case Ok((id, obj)) => Handled(Reply(201, ObjectJson(id, obj)), o.state)
  }

  /**
   * `POST /object/basic` after the sets were collected into `inputs` (the
   * collection cannot fail): 400 with the first failing check's message, else
   * the service uploads and saves.
   */
  function PostBasicWith(upload: (ImageConverter.Bytes, string, string) -> Result<string>, s: State,
                         body: map<string, Json>, files: seq<ObjectService.UploadFile>, inputs: seq<ObjectForm.SetInput>)
    : (h: Handled)
    ensures BasicCheck(body, files, inputs).Err? ==> h == Handled(Message(400, BasicCheck(body, files, inputs).error), s)
  {
    match BasicCheck(body, files, inputs)
    case Err(msg) => Handled(Message(400, msg), s)
    case Ok(sets) =>
      PresetReply(ObjectService.CreateBasicObject(upload, s, body["name"], FieldOf(body, "description"), body["onType"].s, sets))
  }

  /** `POST /object/basic` (multipart): the body's fields in `order`, and the uploaded files. */
  function PostBasic(upload: (ImageConverter.Bytes, string, string) -> Result<string>, s: State,
                     body: map<string, Json>, order: seq<string>, files: seq<ObjectService.UploadFile>): (h: Handled)
  {
    PostBasicWith(upload, s, body, files, BasicInputs(body, order, files))
  }

  /** Only a 201 changes the store: the checks and a failed creation leave it as it was. */
  lemma PostBasicStoresOnlyOnSuccess(upload: (ImageConverter.Bytes, string, string) -> Result<string>, s: State,
                                     body: map<string, Json>, files: seq<ObjectService.UploadFile>, inputs: seq<ObjectForm.SetInput>)
    ensures var h := PostBasicWith(upload, s, body, files, inputs);
      h.reply.status in {201, 400, 500} && (h.reply.status != 201 ==> h.state == s)
  {
  }

  /**
   * A 201 reports the object stored under the fresh key, nothing else
   * stored, built from the checked sets as the service promises.
   */
  lemma PostBasicCreated(upload: (ImageConverter.Bytes, string, string) -> Result<string>, s: State,
                         body: map<string, Json>, files: seq<ObjectService.UploadFile>, inputs: seq<ObjectForm.SetInput>)
    requires PostBasicWith(upload, s, body, files, inputs).reply.status == 201
    ensures BasicCheck(body, files, inputs).Ok?
    ensures var h := PostBasicWith(upload, s, body, files, inputs);
      s.nextId in h.state.objects && h.reply == Reply(201, ObjectJson(s.nextId, h.state.objects[s.nextId]))
      && h.state == Tick(s).(objects := s.objects[s.nextId := h.state.objects[s.nextId]])
      && ObjectService.PresetFacts(h.state.objects[s.nextId], body["onType"].s, BasicCheck(body, files, inputs).value)
  {
    var sets := BasicCheck(body, files, inputs).value;
    ObjectService.BasicCreatedFacts(upload, s, body["name"], FieldOf(body, "description"), body["onType"].s, sets);
  }

  /**
   * The handler accepts the side walls, but the schema's enumeration does
   * not: only "Floor" objects are ever created through this route.
   */
  lemma PostBasicOnlyFloor(upload: (ImageConverter.Bytes, string, string) -> Result<string>, s: State,
                           body: map<string, Json>, files: seq<ObjectService.UploadFile>, inputs: seq<ObjectForm.SetInput>)
    requires PostBasicWith(upload, s, body, files, inputs).reply.status == 201
    ensures body["onType"] == JStr("Floor")
  {
    PostBasicCreated(upload, s, body, files, inputs);
    SideWallsNotOnTypes();
  }

  /**
   * The stored sets follow the collected ones in order: each keeps the
   * trimmed name and colour it was sent with.
   */
  lemma PresetFactsForInputs(obj: ImageObject, onType: string, inputs: seq<ObjectForm.SetInput>)
    requires AllFiled(inputs)
    requires ObjectService.PresetFacts(obj, onType, Uploads(inputs))
    ensures !obj.isUserMade && |obj.imageSets| == |inputs| > 0 && obj.currentImageSet == obj.imageSets[0]
    ensures forall k :: 0 <= k < |inputs| ==>
      inputs[k].name.JStr? && obj.imageSets[k].name == Trim(inputs[k].name.s)
      && inputs[k].color.JStr? && obj.imageSets[k].color == Trim(inputs[k].color.s)
  {
    var sets := Uploads(inputs);
    forall k | 0 <= k < |inputs|
      ensures inputs[k].name.JStr? && obj.imageSets[k].name == Trim(inputs[k].name.s)
      ensures inputs[k].color.JStr? && obj.imageSets[k].color == Trim(inputs[k].color.s)
    {
      assert sets[k].name == inputs[k].name && sets[k].color == inputs[k].color;
    }
  }

  /** `POST /object/basic` performed on the database: the collection loops, the checks, then the service. */
  method PostBasicIn(db: Db, upload: (ImageConverter.Bytes, string, string) -> Result<string>,
                     body: map<string, Json>, order: seq<string>, files: seq<ObjectService.UploadFile>)
    returns (reply: Reply)
    modifies db
    ensures PostBasic(upload, old(db.Snapshot()), body, order, files) == Handled(reply, db.Snapshot())
  {
    var inputs := ObjectForm.CollectSets(body, order, files);
    var checked := BasicCheck(body, files, inputs);
    if checked.Err? {
      return Message(400, checked.error);
    }
    var r := ObjectService.CreateBasicObjectIn(db, upload, body["name"], FieldOf(body, "description"), body["onType"].s, checked.value);
    reply := PresetReply(Outcome(r, db.Snapshot())).reply;
  }

  // ---------------------------------------------------------------- PATCH /object/:objectId

  /** The element loop of an `imageSets` update, from index `i` on: `null` throws, a missing part gives 400. */
  function SetsFieldRejection(items: seq<Json>, i: nat): (r: Option<Reply>)
    requires i <= |items|
    ensures r.Some? ==> r.value in {Message(400, SET_FIELDS), Message(500, UPDATE_FAILED)}
    decreases |items| - i
  {
    if i == |items| then None
    else if items[i].JNull? then Some(Message(500, UPDATE_FAILED))
    else if !TruthyOpt(Get(items[i], "name")) || !TruthyOpt(Get(items[i], "color")) || !TruthyOpt(Get(items[i], "src"))
    then Some(Message(400, SET_FIELDS))
    else SetsFieldRejection(items, i + 1)
  }

  /** An element with a truthy name, colour and source. */
  predicate FullSet(v: Json) {
    TruthyOpt(Get(v, "name")) && TruthyOpt(Get(v, "color")) && TruthyOpt(Get(v, "src"))
  }

  /** The loop passes exactly when every element from `i` on has all three parts. */
  lemma {:induction false} SetsFieldRejectionIff(items: seq<Json>, i: nat)
    requires i <= |items|
    ensures SetsFieldRejection(items, i).None? <==> forall k :: i <= k < |items| ==> FullSet(items[k])
    decreases |items| - i
  {
    if i < |items| {
      SetsFieldRejectionIff(items, i + 1);
    }
  }

  /** The checks of the update body, in their order, after the object was found and is a preset. */
  function PatchRejection(body: map<string, Json>): (r: Option<Reply>)
  {
    if TruthyOpt(FieldOf(body, "onType")) && !(body["onType"].JStr? && body["onType"].s in PLACEMENTS) then
      Some(Message(400, ON_TYPE_INVALID))
    else if "imageSets" !in body then None
    else if !body["imageSets"].JArr? || |body["imageSets"].items| == 0 then Some(Message(400, SETS_NON_EMPTY))
    else SetsFieldRejection(body["imageSets"].items, 0)
  }

  /** The update body's checks pass exactly on these bodies. */
  predicate ValidPatchBody(body: map<string, Json>) {
    && (TruthyOpt(FieldOf(body, "onType")) ==> body["onType"].JStr? && body["onType"].s in PLACEMENTS)
    && ("imageSets" in body ==>
          body["imageSets"].JArr? && |body["imageSets"].items| > 0
          && forall k :: 0 <= k < |body["imageSets"].items| ==> FullSet(body["imageSets"].items[k]))
  }

  lemma PatchRejectionIffInvalid(body: map<string, Json>)
    ensures PatchRejection(body).None? <==> ValidPatchBody(body)
  {
    if "imageSets" in body && body["imageSets"].JArr? {
      SetsFieldRejectionIff(body["imageSets"].items, 0);
    }
  }

  /** A string field of an update: absent keeps `current`, a string gives its trimmed text, anything else throws in `trim`. */
  function TrimmedField(body: map<string, Json>, key: string, current: string): (r: Option<string>)
    ensures key !in body ==> r == Some(current)
    ensures key in body ==> (r.Some? <==> body[key].JStr?)
    ensures key in body && r.Some? ==> r.value == Trim(body[key].s)
  {
    if key !in body then Some(current)
    else if body[key].JStr? then Some(Trim(body[key].s))
    else None
  }

  /**
   * One part of an `imageSets` element as Mongoose casts it to a String
   * path: a string as it is, a number or a boolean as its text, an object
   * by its string `_id`; an array or any other object is a cast error.
   * `numberText` is JavaScript's conversion of a number to its text.
   */
  function PartText(numberText: real -> string, v: Json): (r: Option<string>)
    ensures v.JStr? ==> r == Some(v.s)
    ensures v.JNum? ==> r == Some(numberText(v.n))
    ensures v.JBool? ==> r == Some(if v.b then "true" else "false")
    ensures v.JArr? || v.JNull? ==> r.None?
  {
    match v
    case JStr(t) => Some(t)
    case JNum(n) => Some(numberText(n))
    case JBool(b) => Some(if b then "true" else "false")
    case JObj(fields) => if "_id" in fields && fields["_id"].JStr? && fields["_id"].s != "" then Some(fields["_id"].s) else None
    case _ => None
  }

  /** One element of an `imageSets` update as the schema casts it: each of its three parts cast to text. */
  function CastSet(numberText: real -> string, v: Json): (r: Option<ImageSet>)
    ensures r.Some? <==> v.JObj? && (forall key :: key in ["name", "color", "src"] ==>
      key in v.fields && PartText(numberText, v.fields[key]).Some?)
    ensures r.Some? ==> r.value == ImageSet(PartText(numberText, v.fields["name"]).value,
      PartText(numberText, v.fields["color"]).value, PartText(numberText, v.fields["src"]).value)
  {
    var name := Get(v, "name");
    var color := Get(v, "color");
    var src := Get(v, "src");
    if name.None? || color.None? || src.None? then None
    else match (PartText(numberText, name.value), PartText(numberText, color.value), PartText(numberText, src.value))
      case (Some(n), Some(c), Some(t)) => Some(ImageSet(n, c, t))
      case _ => None
  }

  /** A set whose name is a number is stored with the number's text, as Mongoose casts it. */
  lemma NumericNameCasts(numberText: real -> string, n: real, color: string, src: string)
    ensures CastSet(numberText, JObj(map["name" := JNum(n), "color" := JStr(color), "src" := JStr(src)]))
      == Some(ImageSet(numberText(n), color, src))
  {
  }

  /** Every element cast, from index `i` on; `None` when one fails. */
  function CastSets(numberText: real -> string, items: seq<Json>, i: nat): (r: Option<seq<ImageSet>>)
    requires i <= |items|
    ensures r.Some? ==> |r.value| == |items| - i
    ensures r.Some? ==> forall k :: i <= k < |items| ==> CastSet(numberText, items[k]) == Some(r.value[k - i])
    decreases |items| - i
  {
    if i == |items| then Some([])
    else match (CastSet(numberText, items[i]), CastSets(numberText, items, i + 1))
      case (Some(x), Some(rest)) => Some([x] + rest)
      case _ => None
  }

  /**
   * `findByIdAndUpdate(id, updateData, {runValidators: true})`: each
   * provided field is replaced (strings trimmed by the handler, sets trimmed
   * by the schema), absent ones are kept, and the replaced paths must pass
   * the schema; `None` when a `trim` throws or a validator fails.
   */
  function UpdatedPreset(numberText: real -> string, o: ImageObject, body: map<string, Json>): (r: Option<ImageObject>)
  {
    var name := TrimmedField(body, "name", o.name);
    var src := TrimmedField(body, "imageSrc", "");
    var description :=
      if "description" !in body || body["description"].JNull? then Some(o.description)
      else if body["description"].JStr? then Some(Some(Trim(body["description"].s)))
      else None;
    var onType :=
      if "onType" !in body then Some(o.onType)
      else if body["onType"].JStr? && body["onType"].s in OBJECT_ON_TYPES then Some(body["onType"].s)
      else None;
    var sets :=
      if "imageSets" !in body then Some(o.imageSets)
      else if !body["imageSets"].JArr? then None
      else match CastSets(numberText, body["imageSets"].items, 0)
        case None => None
        case Some(cast) =>
          var trimmed := seq(|cast|, k requires 0 <= k < |cast| => TrimmedSet(cast[k]));
          if forall k :: 0 <= k < |trimmed| ==> ValidImageSet(trimmed[k]) then Some(trimmed) else None;
    if name.None? || src.None? || description.None? || onType.None? || sets.None? then None
    else if !Required(name.value) then None
    else Some(o.(name := name.value, description := description.value, onType := onType.value, imageSets := sets.value))
  }

  /**
   * `PATCH /object/:objectId` (administrators): 404 for an unknown object,
   * 403 for a user-made one, 400 for the first failing check of the body,
   * 500 when the id does not cast, a `trim` throws or the schema refuses the
   * update; otherwise 200 with the updated object.
   */
  function Patch(numberText: real -> string, cast: string -> Option<Id>, s: State, raw: string, body: map<string, Json>): (h: Handled)
  {
    match FindObject(cast, s, Some(raw))
    case Err(_) => Handled(Message(500, UPDATE_FAILED), s)
    case Ok(None) => Handled(Message(404, NOT_FOUND), s)
    case Ok(Some((id, o))) =>
      if o.isUserMade then Handled(Message(403, CANNOT_UPDATE), s)
      else match PatchRejection(body)
        case Some(reply) => Handled(reply, s)
        case None =>
          match UpdatedPreset(numberText, o, body)
          case None => Handled(Message(500, UPDATE_FAILED), s)
          case Some(updated) => Handled(Reply(200, ObjectJson(id, updated)), s.(objects := s.objects[id := updated]))
  }

  /**
   * The update changes only the fields the body provides: the rest of the
   * object, its current set, its origin and its creation time stay as they
   * were; a provided name or description is stored trimmed, a provided
   * `onType` as given.
   */
  lemma UpdateOnlyProvided(numberText: real -> string, o: ImageObject, body: map<string, Json>)
    requires UpdatedPreset(numberText, o, body).Some?
    ensures var u := UpdatedPreset(numberText, o, body).value;
      u.isUserMade == o.isUserMade && u.createdAt == o.createdAt && u.currentImageSet == o.currentImageSet
      && (if "name" in body then body["name"].JStr? && u.name == Trim(body["name"].s) else u.name == o.name)
      && (if "onType" in body then body["onType"] == JStr(u.onType) else u.onType == o.onType)
      && ("description" !in body || body["description"].JNull? ==> u.description == o.description)
      && ("description" in body && body["description"].JStr? ==> u.description == Some(Trim(body["description"].s)))
      && ("imageSets" !in body ==> u.imageSets == o.imageSets)
  {
  }

  /** A provided `imageSets` replaces the list: one trimmed set per element, in order. */
  lemma UpdateReplacesSets(numberText: real -> string, o: ImageObject, body: map<string, Json>)
    requires UpdatedPreset(numberText, o, body).Some? && "imageSets" in body
    ensures var u := UpdatedPreset(numberText, o, body).value; var items := body["imageSets"].items;
      body["imageSets"].JArr? && |u.imageSets| == |items|
      && forall k :: 0 <= k < |items| ==> CastSet(numberText, items[k]).Some? && u.imageSets[k] == TrimmedSet(CastSet(numberText, items[k]).value)
  {
  }

  /** An update keeps a well-formed preset object well formed. */
  lemma UpdateKeepsValid(numberText: real -> string, o: ImageObject, body: map<string, Json>)
    requires ValidImageObject(o) && UpdatedPreset(numberText, o, body).Some?
    ensures ValidImageObject(UpdatedPreset(numberText, o, body).value)
  {
    var u := UpdatedPreset(numberText, o, body).value;
    UpdateOnlyProvided(numberText, o, body);
    assert Required(u.name);
    if "name" in body {
      TrimIdempotent(body["name"].s);
    }
    assert Trim(u.name) == u.name;
    if "description" in body && body["description"].JStr? {
      TrimIdempotent(body["description"].s);
    }
    assert u.description.Some? ==> Trim(u.description.value) == u.description.value;
    if "imageSets" in body {
      assert forall k :: 0 <= k < |u.imageSets| ==> ValidImageSet(u.imageSets[k]);
    }
    assert u.onType in OBJECT_ON_TYPES;
  }

  /**
   * The replies of `PATCH /object/:objectId`: only a 200 changes the store,
   * and then only the object addressed, which stays a preset object; an
   * unknown object is 404 and a user-made one 403 whatever the body.
   */
  lemma PatchOutcomes(numberText: real -> string, cast: string -> Option<Id>, s: State, raw: string, body: map<string, Json>)
    ensures var h := Patch(numberText, cast, s, raw, body);
      h.reply.status in {200, 400, 403, 404, 500} && (h.reply.status != 200 ==> h.state == s)
    ensures cast(raw).Some? && cast(raw).value !in s.objects ==> Patch(numberText, cast, s, raw, body) == Handled(Message(404, NOT_FOUND), s)
    ensures cast(raw).Some? && cast(raw).value in s.objects && s.objects[cast(raw).value].isUserMade ==>
      Patch(numberText, cast, s, raw, body) == Handled(Message(403, CANNOT_UPDATE), s)
    ensures var h := Patch(numberText, cast, s, raw, body);
      h.reply.status == 200 ==>
        cast(raw).Some? && var k := cast(raw).value;
        k in s.objects && !s.objects[k].isUserMade && ValidPatchBody(body)
        && UpdatedPreset(numberText, s.objects[k], body).Some?
        && h == Handled(Reply(200, ObjectJson(k, UpdatedPreset(numberText, s.objects[k], body).value)),
                        s.(objects := s.objects[k := UpdatedPreset(numberText, s.objects[k], body).value]))
    ensures (cast(raw).Some? && cast(raw).value in s.objects && !s.objects[cast(raw).value].isUserMade
      && ValidPatchBody(body) && UpdatedPreset(numberText, s.objects[cast(raw).value], body).Some?) ==>
      Patch(numberText, cast, s, raw, body).reply.status == 200
  {
    PatchRejectionIffInvalid(body);
  }

  /**
   * The handler lets "LeftWall" and "RightWall" through, but the schema's
   * validators refuse them: such an update never succeeds.
   */
  lemma PatchSideWallsFail(numberText: real -> string, cast: string -> Option<Id>, s: State, raw: string, body: map<string, Json>)
    requires "onType" in body && body["onType"] in {JStr("LeftWall"), JStr("RightWall")}
    ensures Patch(numberText, cast, s, raw, body).reply.status != 200
    ensures Patch(numberText, cast, s, raw, body).state == s
  {
    SideWallsNotOnTypes();
  }

  /** `PATCH /object/:objectId` performed on the database in place. */
  method PatchIn(db: Db, numberText: real -> string, raw: string, body: map<string, Json>) returns (reply: Reply)
    modifies db
    ensures Patch(numberText, db.cast, old(db.Snapshot()), raw, body) == Handled(reply, db.Snapshot())
  {
    var h := Patch(numberText, db.cast, db.Snapshot(), raw, body);
    PatchOutcomes(numberText, db.cast, db.Snapshot(), raw, body);
    if h.reply.status == 200 {
      var k := db.cast(raw).value;
      db.objects := db.objects[k := UpdatedPreset(numberText, db.objects[k], body).value];
    }
    reply := h.reply;
  }

  // ---------------------------------------------------------------- DELETE /object/:objectId

  /**
   * `DELETE /object/:objectId` (administrators): 404 for an unknown object,
   * 403 for a user-made one, 500 when the id does not cast; otherwise the
   * object is removed and the reply names the id. Users' lists are not
   * touched.
   */
  function Delete(cast: string -> Option<Id>, s: State, raw: string): (h: Handled)
  {
    match FindObject(cast, s, Some(raw))
    case Err(_) => Handled(Message(500, DELETE_FAILED), s)
    case Ok(None) => Handled(Message(404, NOT_FOUND), s)
    case Ok(Some((id, o))) =>
      if o.isUserMade then Handled(Message(403, CANNOT_DELETE), s)
      else Handled(Reply(200, JObj(map["message" := JStr(DELETED), "deletedId" := JStr(raw)])),
                   s.(objects := s.objects - {id}))
  }

  /**
   * The deletion succeeds exactly for a preset object that exists, removes
   * that object and nothing else; every other reply leaves the store as it
   * was (a user-made object is kept).
   */
  lemma DeleteOutcomes(cast: string -> Option<Id>, s: State, raw: string)
    ensures var h := Delete(cast, s, raw);
      h.reply.status == 200 <==> cast(raw).Some? && cast(raw).value in s.objects && !s.objects[cast(raw).value].isUserMade
    ensures var h := Delete(cast, s, raw);
      h.reply.status == 200 ==> h.state == s.(objects := s.objects - {cast(raw).value})
                                && h.reply.body.fields["deletedId"] == JStr(raw)
    ensures var h := Delete(cast, s, raw); h.reply.status != 200 ==> h.state == s
    ensures cast(raw).Some? && cast(raw).value in s.objects && s.objects[cast(raw).value].isUserMade ==>
      Delete(cast, s, raw) == Handled(Message(403, CANNOT_DELETE), s)
  {
  }

  /** `DELETE /object/:objectId` performed on the database in place. */
  method DeleteIn(db: Db, raw: string) returns (reply: Reply)
    modifies db
    ensures Delete(db.cast, old(db.Snapshot()), raw) == Handled(reply, db.Snapshot())
  {
    var h := Delete(db.cast, db.Snapshot(), raw);
    DeleteOutcomes(db.cast, db.Snapshot(), raw);
    if h.reply.status == 200 {
      db.objects := db.objects - {db.cast(raw).value};
    }
    reply := h.reply;
  }
}

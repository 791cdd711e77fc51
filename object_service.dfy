/**
 * Catalog objects made by the generators for a user, and preset objects made
 * from uploaded files. The text generator, the image generator, `JSON.parse`,
 * downloading, base64 decoding and the storage upload are collaborators
 * passed in; the prompt texts are folded into the generator functions.
 */
module ObjectService {
  import opened Wrappers
  import opened Json
  import opened Text
  import opened Models
  import opened Store
  import ResponseParser
  import ImageConverter

  const METADATA_FAILED := "Failed to parse object metadata from AI response"
  const IMAGE_FAILED := "Failed to generate image from AI response"
  const NOT_A_STRING := "TypeError: trim is not a function"
  const DEFAULT_SET_NAME := "Default"
  const DEFAULT_SET_COLOR := "#ffffff"
  const DEFAULT_MIME := "image/png"
  const DEFAULT_EXTENSION := "png"

  /** One entry of the image generator's `data` list. */
  datatype GeneratedImage = GeneratedImage(b64Json: Option<string>, url: Option<string>)

  /** An uploaded multipart file. An empty `mimetype` is one the client did not send. */
  datatype UploadFile = UploadFile(fieldname: string, originalname: string, mimetype: string, buffer: ImageConverter.Bytes)

  /** One image set of a preset object: the name and colour as received, and its file. */
  datatype SetUpload = SetUpload(name: Json, color: Json, file: UploadFile)

  /**
   * The services an object is made with: the text generator on the follow-up
   * and on the metadata prompt for some content, `JSON.parse`, the image
   * generator on the prompt for some content and metadata, and the pieces of
   * the upload path.
   */
  datatype Collaborators = Collaborators(
    followUpText: string -> Result<string>,
    metadataText: string -> Result<string>,
    jsonParse: string -> Result<Json>,
    generateImage: (string, Json) -> Result<seq<GeneratedImage>>,
    download: string -> Result<ImageConverter.Image>,
    decode: string -> ImageConverter.Bytes,
    upload: (ImageConverter.Bytes, string, string) -> Result<string>)

  /** `generateFollowUpQuestion`: the generated question without surrounding white space. */
  function FollowUpQuestion(c: Collaborators, content: string): (r: Result<string>)
    ensures r.Err? <==> c.followUpText(content).Err?
    ensures r.Ok? ==> r.value == Trim(c.followUpText(content).value) && Trim(r.value) == r.value
  {
    match c.followUpText(content)
    case Err(e) => Err(e)
    case Ok(q) => TrimIdempotent(q); Ok(Trim(q))
  }

  /** The metadata check: the parsed value and its name, description and onType must all be truthy. */
  predicate MetadataRejected(metadata: Json) {
    !Truthy(metadata) || !TruthyOpt(Get(metadata, "name")) || !TruthyOpt(Get(metadata, "description"))
    || !TruthyOpt(Get(metadata, "onType"))
  }

  /** `data[0]?.b64_json || data[0]?.url`: the base64 text if it is not empty, else the URL if it is not empty. */
  function ImageData(images: seq<GeneratedImage>): (r: Option<string>)
    ensures r.Some? ==> |images| > 0 && r.value != ""
    ensures |images| > 0 && images[0].b64Json.Some? && images[0].b64Json.value != "" ==> r == images[0].b64Json
    ensures r.None? <==> |images| == 0 || ((images[0].b64Json.None? || images[0].b64Json.value == "")
                                             && (images[0].url.None? || images[0].url.value == ""))
  {
    if |images| == 0 then None
    else if images[0].b64Json.Some? && images[0].b64Json.value != "" then images[0].b64Json
    else if images[0].url.Some? && images[0].url.value != "" then images[0].url
    else None
  }

  /** `objects/<userId>/<now>.png`. */
  function UserImagePath(userId: string, now: nat): string {
    "objects/" + userId + "/" + NatToString(now) + ".png"
  }

  /** A string value as Mongoose stores it into a `String` path; other kinds fail to cast. */
  function StringOf(v: Json): Option<string> {
    if v.JStr? then Some(v.s) else None
  }

  /**
   * The steps of `createUserObject` that touch no store: generate and check
   * the metadata, generate the image, turn it into bytes and upload them.
   * The result is the metadata and the uploaded image's URL.
   */
  function GenerateAndUpload(c: Collaborators, content: string, userId: string, now: nat): (r: Result<(Json, string)>)
    ensures r.Ok? ==> !MetadataRejected(r.value.0)
  {
    match c.metadataText(content)
    case Err(e) => Err(e)
    case Ok(text) =>
      match ResponseParser.ParsedJson(c.jsonParse, text)
      case Err(e) => Err(e)
      case Ok(metadata) =>
        if MetadataRejected(metadata) then Err(METADATA_FAILED)
        else
          match c.generateImage(content, metadata)
          case Err(e) => Err(e)
          case Ok(images) =>
            match ImageData(images)
            case None => Err(IMAGE_FAILED)
            case Some(data) =>
              match ImageConverter.ToBuffer(c.download, c.decode, data)
              case Err(e) => Err(e)
              case Ok(img) =>
                match c.upload(img.buffer, UserImagePath(userId, now), img.mimeType)
                case Err(e) => Err(e)
                case Ok(url) => Ok((metadata, url))
  }

  /** The one image set a generated object gets. */
  function DefaultSet(url: string): ImageSet {
    ImageSet(DEFAULT_SET_NAME, DEFAULT_SET_COLOR, url)
  }

  /** The generated object before saving, or the `TypeError` of trimming a name or description that is not a string. */
  function UserObject(metadata: Json, url: string, now: nat): (r: Result<ImageObject>)
    requires !MetadataRejected(metadata)
  {
    var name := Get(metadata, "name").value;
    var description := Get(metadata, "description").value;
    var onType := Get(metadata, "onType").value;
    if !name.JStr? || !description.JStr? then Err(NOT_A_STRING)
    else
      Ok(ImageObject(Trim(name.s), Some(Trim(description.s)), DefaultSet(url), [DefaultSet(url)], true,
                     if onType.JStr? then onType.s else "", now))
  }

  /**
   * `$push` of a catalog key onto `objectIds`. The `$inc` of `questionIndex`
   * beside it names a path the user schema does not declare, so strict mode
   * drops it and no field changes for it.
   */
  function PushObject(id: Id): User -> User {
    (u: User) => u.(objectIds := u.objectIds + [id])
  }

  /** The generated object as saved, or why building or saving it failed. */
  function SavedUserObject(metadata: Json, url: string, now: nat): (r: Result<ImageObject>)
    requires !MetadataRejected(metadata)
  {
    match UserObject(metadata, url, now)
    case Err(e) => Err(e)
    case Ok(o) => SaveImageObject(o)
  }

  /**
   * `createUserObject`: generate, upload, save the object under a fresh key,
   * then push the key onto the user's `objectIds` and count the question.
   */
  function CreateUserObject(c: Collaborators, cast: string -> Option<Id>, s: State, content: string, userId: string)
    : (o: Outcome<(Id, ImageObject)>)
  {
    match GenerateAndUpload(c, content, userId, s.clock)
    case Err(e) => Outcome(Err(e), s)
    case Ok((metadata, url)) => StoreUserObject(cast, s, userId, SavedUserObject(metadata, url, s.clock))
  }

  /** Store a saved object under the fresh key and record it on the user. */
  function StoreUserObject(cast: string -> Option<Id>, s: State, userId: string, saved: Result<ImageObject>)
    : (o: Outcome<(Id, ImageObject)>)
  {
    match saved
    case Err(e) => Outcome(Err(e), s)
    case Ok(obj) =>
      var t := Tick(s).(objects := s.objects[s.nextId := obj]);
      match UpdateUser(cast, t, userId, PushObject(s.nextId))
      case Err(e) => Outcome(Err(e), t)
      case Ok(t2) => Outcome(Ok((s.nextId, obj)), t2)
  }

  /**
   * Metadata that fails the check stops the creation before any image is
   * generated or uploaded: the image generator and the upload play no part
   * and nothing is stored.
   */
  lemma MetadataCheckedFirst(c: Collaborators, c2: Collaborators, cast: string -> Option<Id>, s: State, content: string, userId: string)
    requires c.metadataText == c2.metadataText && c.jsonParse == c2.jsonParse
    requires c.metadataText(content).Ok?
    requires ResponseParser.ParsedJson(c.jsonParse, c.metadataText(content).value).Ok?
    requires MetadataRejected(ResponseParser.ParsedJson(c.jsonParse, c.metadataText(content).value).value)
    ensures CreateUserObject(c, cast, s, content, userId) == CreateUserObject(c2, cast, s, content, userId)
                                                          == Outcome(Err(METADATA_FAILED), s)
  {
  }

  /** Without image data nothing is uploaded or stored, whatever the upload would have done. */
  lemma NoImageNoUpload(c: Collaborators, cast: string -> Option<Id>, s: State, content: string, userId: string,
                        upload: (ImageConverter.Bytes, string, string) -> Result<string>)
    requires c.metadataText(content).Ok?
    requires ResponseParser.ParsedJson(c.jsonParse, c.metadataText(content).value).Ok?
    requires var m := ResponseParser.ParsedJson(c.jsonParse, c.metadataText(content).value).value;
      !MetadataRejected(m) && c.generateImage(content, m).Ok? && ImageData(c.generateImage(content, m).value).None?
    ensures CreateUserObject(c, cast, s, content, userId) == CreateUserObject(c.(upload := upload), cast, s, content, userId)
                                                          == Outcome(Err(IMAGE_FAILED), s)
  {
  }

  /** The schema's setters leave the default set alone except for trimming the URL. */
  lemma DefaultSetSurvives(url: string)
    ensures TrimmedSet(DefaultSet(url)) == DefaultSet(Trim(url))
  {
    assert Trim(DEFAULT_SET_NAME) == DEFAULT_SET_NAME by {
      assert DEFAULT_SET_NAME[0] == 'D' && DEFAULT_SET_NAME[|DEFAULT_SET_NAME| - 1] == 't';
      TrimOfTrimmed(DEFAULT_SET_NAME);
    }
    assert Trim(DEFAULT_SET_COLOR) == DEFAULT_SET_COLOR by {
      assert DEFAULT_SET_COLOR[0] == '#' && DEFAULT_SET_COLOR[|DEFAULT_SET_COLOR| - 1] == 'f';
      TrimOfTrimmed(DEFAULT_SET_COLOR);
    }
  }

  /**
   * The generated object, before the schema's setters run: exactly one set,
   * the default one pointing at the upload, which is also the current set;
   * user-made; name and description trimmed.
   */
  lemma UserObjectFields(metadata: Json, url: string, now: nat)
    requires !MetadataRejected(metadata)
    requires UserObject(metadata, url, now).Ok?
    ensures var o := UserObject(metadata, url, now).value;
      o.imageSets == [ImageSet(DEFAULT_SET_NAME, DEFAULT_SET_COLOR, url)]
      && o.currentImageSet == o.imageSets[0]
      && o.isUserMade && o.createdAt == now
      && o.name == Trim(Get(metadata, "name").value.s) && Trim(o.name) == o.name
      && o.description == Some(Trim(Get(metadata, "description").value.s))
  {
    TrimIdempotent(Get(metadata, "name").value.s);
  }

  /** What is saved is the built object with the setters applied. */
  lemma SavedIsTrimmed(metadata: Json, url: string, now: nat)
    requires !MetadataRejected(metadata)
    requires SavedUserObject(metadata, url, now).Ok?
    ensures UserObject(metadata, url, now).Ok?
    ensures SavedUserObject(metadata, url, now).value == TrimmedObject(UserObject(metadata, url, now).value)
  {
    SaveKeepsTrimmed(UserObject(metadata, url, now).value);
  }

  /**
   * Storing a saved object for a known user puts it under the fresh key,
   * and appends that key to the user's `objectIds`; nothing else of that user
   * and no other user changes.
   */
  lemma UserObjectStored(cast: string -> Option<Id>, s: State, userId: string, saved: Result<ImageObject>)
    requires StoreUserObject(cast, s, userId, saved).result.Ok?
    requires cast(userId).Some? && cast(userId).value in s.users
    ensures var o := StoreUserObject(cast, s, userId, saved);
      var u := cast(userId).value; var id := s.nextId;
      o.result.value == (id, saved.value) && o.state.objects == s.objects[id := saved.value]
      && o.state.users == s.users[u := s.users[u].(objectIds := s.users[u].objectIds + [id])]
  {
    var usr := s.users[cast(userId).value];
    assert PushObject(s.nextId)(usr) == usr.(objectIds := usr.objectIds + [s.nextId]);
  }

  /**
   * The user update of `findByIdAndUpdate` finds nothing for a key no user
   * has and does not fail: the object is stored and no user lists it.
   */
  lemma UnknownUserStillStores(cast: string -> Option<Id>, s: State, userId: string, saved: Result<ImageObject>)
    requires saved.Ok?
    requires cast(userId).Some? && cast(userId).value !in s.users
    ensures var o := StoreUserObject(cast, s, userId, saved);
      o.result == Ok((s.nextId, saved.value)) && o.state.objects == s.objects[s.nextId := saved.value]
      && o.state.users == s.users
  {
  }

  /** A creation that succeeds went through generation and upload and then stored what the save kept. */
  lemma CreateUserObjectSteps(c: Collaborators, cast: string -> Option<Id>, s: State, content: string, userId: string)
    requires CreateUserObject(c, cast, s, content, userId).result.Ok?
    ensures GenerateAndUpload(c, content, userId, s.clock).Ok?
    ensures var (metadata, url) := GenerateAndUpload(c, content, userId, s.clock).value;
      CreateUserObject(c, cast, s, content, userId) == StoreUserObject(cast, s, userId, SavedUserObject(metadata, url, s.clock))
  {
  }

  /**
   * A creation by a known user stores the saved object under the fresh key,
   * and appends that key to the user's `objectIds`; nothing else of that user
   * and no other user changes.
   */
  lemma UserObjectCreated(c: Collaborators, cast: string -> Option<Id>, s: State, content: string, userId: string)
    requires CreateUserObject(c, cast, s, content, userId).result.Ok?
    requires cast(userId).Some? && cast(userId).value in s.users
    ensures var o := CreateUserObject(c, cast, s, content, userId);
      var (id, obj) := o.result.value;
      var (metadata, url) := GenerateAndUpload(c, content, userId, s.clock).value;
      var u := cast(userId).value;
      id == s.nextId && o.state.objects == s.objects[id := obj]
      && obj == SavedUserObject(metadata, url, s.clock).value
      && o.state.users == s.users[u := s.users[u].(objectIds := s.users[u].objectIds + [id])]
  {
    CreateUserObjectSteps(c, cast, s, content, userId);
    var (metadata, url) := GenerateAndUpload(c, content, userId, s.clock).value;
    UserObjectStored(cast, s, userId, SavedUserObject(metadata, url, s.clock));
  }

  /** `originalname.split(".").pop() || "png"`: the text after the last dot, or "png" when that text is empty. */
  function Extension(originalname: string): string {
    var last := Last(Split(originalname, '.'));
    if last == "" then DEFAULT_EXTENSION else last
  }

  /** A name with a dot keeps what follows its last dot; a trailing dot falls back to "png". */
  lemma ExtensionAfterLastDot(base: string, ext: string)
    requires '.' !in ext
    ensures Extension(base + "." + ext) == if ext == "" then DEFAULT_EXTENSION else ext
  {
    LastPieceAfterSep(base, ext, '.');
  }

  /** A name without a dot is its own extension, and the empty name gets "png". */
  lemma ExtensionWithoutDot(name: string)
    requires '.' !in name
    ensures Extension(name) == if name == "" then DEFAULT_EXTENSION else name
  {
    SplitNoSep(name, '.');
  }

  /** How a set name reads inside the upload path's template string. */
  function TemplateText(v: Json): string {
    if v.JStr? then v.s else ""
  }

  /** `presets/<now>-<index>-<name>.<extension>`. */
  function PresetPath(now: nat, index: nat, name: Json, extension: string): string {
    "presets/" + NatToString(now) + "-" + NatToString(index) + "-" + TemplateText(name) + "." + extension
  }

  /** `file.mimetype || "image/png"`. */
  function MimeOf(file: UploadFile): string {
    if file.mimetype == "" then DEFAULT_MIME else file.mimetype
  }

  /** The upload of one set at its position: its bytes, to its preset path, with its MIME type. */
  function UploadAttempt(upload: (ImageConverter.Bytes, string, string) -> Result<string>, now: nat)
    : (SetUpload, nat) -> Result<string>
  {
    (one: SetUpload, i: nat) => upload(one.file.buffer, PresetPath(now, i, one.name, Extension(one.file.originalname)), MimeOf(one.file))
  }

  /** The uploads of the sets from position `i` on, in order, stopping at the first that fails. */
  function UploadFrom(attempt: (SetUpload, nat) -> Result<string>, sets: seq<SetUpload>, i: nat) : (r: Result<seq<string>>)
    requires i <= |sets|
    ensures r.Ok? ==> |r.value| == |sets| - i
    decreases |sets| - i
  {
    if i == |sets| then Ok([])
    else
      match attempt(sets[i], i)
      case Err(e) => Err(e)
      case Ok(url) =>
        match UploadFrom(attempt, sets, i + 1)
        case Err(e) => Err(e)
        case Ok(rest) => Ok([url] + rest)
  }

  /**
   * All uploads from position `i` on succeed exactly when each one does, and
   * then give one URL per set, in order.
   */
  lemma {:induction false} UploadsSucceed(attempt: (SetUpload, nat) -> Result<string>, sets: seq<SetUpload>, i: nat)
    requires i <= |sets|
    ensures UploadFrom(attempt, sets, i).Ok? <==> forall j :: i <= j < |sets| ==> attempt(sets[j], j).Ok?
    ensures UploadFrom(attempt, sets, i).Ok? ==>
              forall j :: i <= j < |sets| ==> UploadFrom(attempt, sets, i).value[j - i] == attempt(sets[j], j).value
    decreases |sets| - i
  {
    if i < |sets| {
      UploadsSucceed(attempt, sets, i + 1);
    }
  }

  /** When an upload fails and the ones before it succeed, the uploads end with its error. */
  lemma {:induction false} FirstFailingUpload(attempt: (SetUpload, nat) -> Result<string>, sets: seq<SetUpload>, i: nat, j: nat)
    requires i <= j < |sets| && attempt(sets[j], j).Err?
    requires forall k :: i <= k < j ==> attempt(sets[k], k).Ok?
    ensures UploadFrom(attempt, sets, i) == Err(attempt(sets[j], j).error)
    decreases j - i
  {
    if i < j {
      FirstFailingUpload(attempt, sets, i + 1, j);
    }
  }

  /** `description?.trim()`: absent or null stays absent, a string is trimmed, anything else has no `trim`. */
  function TrimmedDescription(description: Option<Json>): (r: Result<Option<string>>)
    ensures r.Err? <==> description.Some? && !description.value.JNull? && !description.value.JStr?
    ensures r.Ok? && r.value.Some? ==> description.Some? && description.value.JStr?
                                       && r.value.value == Trim(description.value.s)
  {
    match description
    case None => Ok(None)
    case Some(JNull) => Ok(None)
    case Some(JStr(d)) => Ok(Some(Trim(d)))
    case Some(_) => Err(NOT_A_STRING)
  }

  /** Every set's name and colour are strings, which the schema's `String` paths need. */
  predicate StringSets(sets: seq<SetUpload>) {
    forall k :: 0 <= k < |sets| ==> sets[k].name.JStr? && sets[k].color.JStr?
  }

  /** The sets as given to the new object: name and colour as received, and the uploaded URL. */
  function PresetSets(sets: seq<SetUpload>, urls: seq<string>): (r: seq<ImageSet>)
    requires StringSets(sets) && |urls| == |sets|
    ensures |r| == |sets|
    ensures forall k :: 0 <= k < |r| ==> r[k] == ImageSet(sets[k].name.s, sets[k].color.s, urls[k])
  {
    seq(|sets|, k requires 0 <= k < |sets| => ImageSet(sets[k].name.s, sets[k].color.s, urls[k]))
  }

  /**
   * `createBasicObject`: upload every set's file, then build and save the
   * object from what was uploaded.
   */
  function CreateBasicObject(upload: (ImageConverter.Bytes, string, string) -> Result<string>, s: State,
                             name: Json, description: Option<Json>, onType: string, sets: seq<SetUpload>)
    : (o: Outcome<(Id, ImageObject)>)
  {
    match UploadFrom(UploadAttempt(upload, s.clock), sets, 0)
    case Err(e) => Outcome(Err(e), s)
    case Ok(urls) => SaveBasicObject(s, name, description, onType, sets, urls)
  }

  /**
   * The object built from the trimmed name, the trimmed description, the
   * uploaded sets (the first is the current one) and `onType`, not user-made,
   * saved under a fresh key. A set name or colour that is not a string fails
   * the save's cast; an object without sets fails the required
   * `currentImageSet`.
   */
  function SaveBasicObject(s: State, name: Json, description: Option<Json>, onType: string,
                           sets: seq<SetUpload>, urls: seq<string>)
    : (o: Outcome<(Id, ImageObject)>)
    requires |urls| == |sets|
    ensures o.result.Err? ==> o.state == s
  {
    if !name.JStr? then Outcome(Err(NOT_A_STRING), s)
    else
      match TrimmedDescription(description)
      case Err(e) => Outcome(Err(e), s)
      case Ok(desc) =>
        if |sets| == 0 || !StringSets(sets) then Outcome(Err(OBJECT_VALIDATION_FAILED), s)
        else
          var imageSets := PresetSets(sets, urls);
          match SaveImageObject(ImageObject(Trim(name.s), desc, imageSets[0], imageSets, false, onType, s.clock))
          case Err(e) => Outcome(Err(e), s)
          case Ok(saved) => Outcome(Ok((s.nextId, saved)), Tick(s).(objects := s.objects[s.nextId := saved]))
  }

  /**
   * A preset object that is saved holds one set per URL, in order: each with
   * the trimmed name and colour it was sent with and its trimmed URL; the
   * first set is the current one; it is not user-made; its `onType` is the
   * one requested. It is stored under the fresh key and nothing else changes.
   */
  lemma BasicObjectSaved(s: State, name: Json, description: Option<Json>, onType: string,
                         sets: seq<SetUpload>, urls: seq<string>)
    requires |urls| == |sets|
    requires SaveBasicObject(s, name, description, onType, sets, urls).result.Ok?
    ensures var o := SaveBasicObject(s, name, description, onType, sets, urls);
      var (id, obj) := o.result.value;
      id == s.nextId && o.state == Tick(s).(objects := s.objects[id := obj])
      && |obj.imageSets| == |sets| > 0 && obj.currentImageSet == obj.imageSets[0]
      && !obj.isUserMade && obj.onType == onType && obj.name == Trim(name.s)
      && forall k :: 0 <= k < |sets| ==>
           obj.imageSets[k] == ImageSet(Trim(sets[k].name.s), Trim(sets[k].color.s), Trim(urls[k]))
  {
    BasicObjectInserted(s, name, description, onType, sets, urls);
    var imageSets := PresetSets(sets, urls);
    var draft := ImageObject(Trim(name.s), TrimmedDescription(description).value, imageSets[0], imageSets, false, onType, s.clock);
    SaveKeepsTrimmed(draft);
    var obj := SaveBasicObject(s, name, description, onType, sets, urls).result.value.1;
    assert obj == TrimmedObject(draft);
    TrimIdempotent(name.s);
    forall k | 0 <= k < |sets|
      ensures obj.imageSets[k] == ImageSet(Trim(sets[k].name.s), Trim(sets[k].color.s), Trim(urls[k]))
    {
      assert obj.imageSets[k] == TrimmedSet(imageSets[k]);
    }
  }

  /** A saved preset object goes under the fresh key, and nothing else is stored. */
  lemma BasicObjectInserted(s: State, name: Json, description: Option<Json>, onType: string,
                            sets: seq<SetUpload>, urls: seq<string>)
    requires |urls| == |sets|
    requires SaveBasicObject(s, name, description, onType, sets, urls).result.Ok?
    ensures var o := SaveBasicObject(s, name, description, onType, sets, urls);
      o.result.value.0 == s.nextId && o.state == Tick(s).(objects := s.objects[s.nextId := o.result.value.1])
  {
    var imageSets := PresetSets(sets, urls);
    SaveKeepsTrimmed(ImageObject(Trim(name.s), TrimmedDescription(description).value, imageSets[0], imageSets, false, onType, s.clock));
  }

  /**
   * A creation that succeeds uploaded every file, in order, and then saved
   * with the uploaded URLs; `UploadsSucceed` says which URL each set gets.
   */
  lemma BasicObjectSteps(upload: (ImageConverter.Bytes, string, string) -> Result<string>, s: State,
                         name: Json, description: Option<Json>, onType: string, sets: seq<SetUpload>)
    requires CreateBasicObject(upload, s, name, description, onType, sets).result.Ok?
    ensures UploadFrom(UploadAttempt(upload, s.clock), sets, 0).Ok?
    ensures CreateBasicObject(upload, s, name, description, onType, sets)
            == SaveBasicObject(s, name, description, onType, sets, UploadFrom(UploadAttempt(upload, s.clock), sets, 0).value)
  {
  }

  /**
   * The save accepts only "Wall" and "Floor": a preset object for either side
   * wall is never stored, whatever else the request holds.
   */
  lemma SideWallsNeverSaved(s: State, name: Json, description: Option<Json>, onType: string,
                            sets: seq<SetUpload>, urls: seq<string>)
    requires |urls| == |sets|
    requires onType == "LeftWall" || onType == "RightWall"
    ensures SaveBasicObject(s, name, description, onType, sets, urls).result.Err?
    ensures SaveBasicObject(s, name, description, onType, sets, urls).state == s
  {
    assert onType !in OBJECT_ON_TYPES by { SideWallsNotOnTypes(); }
  }

  /** A failing upload ends the creation with the first failure's error and stores nothing. */
  lemma FirstUploadFailureWins(upload: (ImageConverter.Bytes, string, string) -> Result<string>, s: State,
                               name: Json, description: Option<Json>, onType: string, sets: seq<SetUpload>, j: nat)
    requires j < |sets| && UploadAttempt(upload, s.clock)(sets[j], j).Err?
    requires forall k :: 0 <= k < j ==> UploadAttempt(upload, s.clock)(sets[k], k).Ok?
    ensures CreateBasicObject(upload, s, name, description, onType, sets)
            == Outcome(Err(UploadAttempt(upload, s.clock)(sets[j], j).error), s)
  {
    FirstFailingUpload(UploadAttempt(upload, s.clock), sets, 0, j);
  }

  /** The generation and upload steps of `createUserObject`, one after the other. */
  method GenerateAndUploadIn(c: Collaborators, content: string, userId: string, now: nat) returns (r: Result<(Json, string)>)
    ensures r == GenerateAndUpload(c, content, userId, now)
  {
    var text := c.metadataText(content);
    if text.Err? {
      return Err(text.error);
    }
    var metadata := ResponseParser.ParseJson(c.jsonParse, text.value);
    if metadata.Err? {
      return Err(metadata.error);
    }
    if MetadataRejected(metadata.value) {
      return Err(METADATA_FAILED);
    }
    var images := c.generateImage(content, metadata.value);
    if images.Err? {
      return Err(images.error);
    }
    var data := ImageData(images.value);
    if data.None? {
      return Err(IMAGE_FAILED);
    }
    var img := ImageConverter.ToBuffer(c.download, c.decode, data.value);
    if img.Err? {
      return Err(img.error);
    }
    var url := c.upload(img.value.buffer, UserImagePath(userId, now), img.value.mimeType);
    if url.Err? {
      return Err(url.error);
    }
    r := Ok((metadata.value, url.value));
  }

  /** Storing a saved object and recording it on its user, on the database in place. */
  method StoreUserObjectIn(db: Db, userId: string, saved: Result<ImageObject>) returns (r: Result<(Id, ImageObject)>)
    modifies db
    ensures StoreUserObject(db.cast, old(db.Snapshot()), userId, saved) == Outcome(r, db.Snapshot())
  {
    if saved.Err? {
      return Err(saved.error);
    }
    var id, now := db.Fresh();
    db.objects := db.objects[id := saved.value];
    var u := db.cast(userId);
    if u.None? {
      return Err(CastErrorMessage(userId, USER_MODEL));
    }
    if u.value in db.users {
      db.users := db.users[u.value := PushObject(id)(db.users[u.value])];
    }
    r := Ok((id, saved.value));
  }

  /** `createUserObject` performed on the database in place. */
  method CreateUserObjectIn(db: Db, c: Collaborators, content: string, userId: string) returns (r: Result<(Id, ImageObject)>)
    modifies db
    ensures CreateUserObject(c, db.cast, old(db.Snapshot()), content, userId) == Outcome(r, db.Snapshot())
  {
    var generated := GenerateAndUploadIn(c, content, userId, db.clock);
    if generated.Err? {
      return Err(generated.error);
    }
    var (metadata, url) := generated.value;
    r := StoreUserObjectIn(db, userId, SavedUserObject(metadata, url, db.clock));
  }

  /** The uploads of all sets, one by one in order, stopping at the first failure. */
  method UploadAll(attempt: (SetUpload, nat) -> Result<string>, sets: seq<SetUpload>) returns (r: Result<seq<string>>)
    ensures r == UploadFrom(attempt, sets, 0)
  {
    var urls: seq<string> := [];
    var i := 0;
    while i < |sets|
      invariant 0 <= i <= |sets| && |urls| == i
      invariant forall j :: 0 <= j < i ==> attempt(sets[j], j).Ok? && urls[j] == attempt(sets[j], j).value
    {
      var url := attempt(sets[i], i);
      if url.Err? {
        FirstFailingUpload(attempt, sets, 0, i);
        return Err(url.error);
      }
      urls := urls + [url.value];
      i := i + 1;
    }
    UploadsSucceed(attempt, sets, 0);
    assert UploadFrom(attempt, sets, 0).value == urls;
    r := Ok(urls);
  }

  /** Building a preset object from uploaded sets and inserting it, on the database in place. */
  method SaveBasicObjectIn(db: Db, name: Json, description: Option<Json>, onType: string,
                           sets: seq<SetUpload>, urls: seq<string>)
    returns (r: Result<(Id, ImageObject)>)
    requires |urls| == |sets|
    modifies db
    ensures SaveBasicObject(old(db.Snapshot()), name, description, onType, sets, urls) == Outcome(r, db.Snapshot())
  {
    ghost var s0 := db.Snapshot();
    var outcome := SaveBasicObject(db.Snapshot(), name, description, onType, sets, urls);
    if outcome.result.Err? {
      return Err(outcome.result.error);
    }
    BasicObjectInserted(s0, name, description, onType, sets, urls);
    var saved := outcome.result.value.1;
    var id, now := db.Fresh();
    db.objects := db.objects[id := saved];
    assert db.Snapshot() == Tick(s0).(objects := s0.objects[id := saved]);
    r := Ok((id, saved));
  }

  /** `createBasicObject` performed on the database in place: the uploads, then the save. */
  method CreateBasicObjectIn(db: Db, upload: (ImageConverter.Bytes, string, string) -> Result<string>,
                             name: Json, description: Option<Json>, onType: string, sets: seq<SetUpload>)
    returns (r: Result<(Id, ImageObject)>)
    modifies db
    ensures CreateBasicObject(upload, old(db.Snapshot()), name, description, onType, sets) == Outcome(r, db.Snapshot())
  {
    var urls := UploadAll(UploadAttempt(upload, db.clock), sets);
    if urls.Err? {
      return Err(urls.error);
    }
    r := SaveBasicObjectIn(db, name, description, onType, sets, urls.value);
  }
  /** What a stored preset object holds, in terms of the sets it was built from. */
  predicate PresetFacts(obj: ImageObject, onType: string, sets: seq<SetUpload>) {
    obj.onType == onType && onType in OBJECT_ON_TYPES && !obj.isUserMade
    && |obj.imageSets| == |sets| > 0 && obj.currentImageSet == obj.imageSets[0]
    && forall k :: 0 <= k < |sets| ==>
         sets[k].name.JStr? && obj.imageSets[k].name == Trim(sets[k].name.s)
         && sets[k].color.JStr? && obj.imageSets[k].color == Trim(sets[k].color.s)
  }

  /** `BasicObjectSaved` with the facts about the object bundled. */
  lemma BasicSavedFacts(s: State, name: Json, description: Option<Json>, onType: string,
                        sets: seq<SetUpload>, urls: seq<string>)
    requires |urls| == |sets|
    requires SaveBasicObject(s, name, description, onType, sets, urls).result.Ok?
    ensures var o := SaveBasicObject(s, name, description, onType, sets, urls);
      o.result.value.0 == s.nextId && o.state == Tick(s).(objects := s.objects[s.nextId := o.result.value.1])
      && PresetFacts(o.result.value.1, onType, sets)
  {
    BasicObjectSaved(s, name, description, onType, sets, urls);
  }

  /**
   * A creation that succeeds stores under the fresh key a preset object with
   * one set per request set, named and coloured as sent, trimmed, the first
   * being current, of an `onType` the schema accepts; nothing else changes.
   */
  lemma BasicCreatedFacts(upload: (ImageConverter.Bytes, string, string) -> Result<string>, s: State,
                          name: Json, description: Option<Json>, onType: string, sets: seq<SetUpload>)
    requires CreateBasicObject(upload, s, name, description, onType, sets).result.Ok?
    ensures var o := CreateBasicObject(upload, s, name, description, onType, sets);
      o.result.value.0 == s.nextId && o.state == Tick(s).(objects := s.objects[s.nextId := o.result.value.1])
      && PresetFacts(o.result.value.1, onType, sets)
  {
    BasicObjectSteps(upload, s, name, description, onType, sets);
    var urls := UploadFrom(UploadAttempt(upload, s.clock), sets, 0).value;
    BasicSavedFacts(s, name, description, onType, sets, urls);
  }
}

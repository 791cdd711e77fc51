/**
 * Provisioning of a theme's default placements: for each template of the
 * chosen theme, the catalog object it names is copied into a new placed
 * object owned (through `additionalData`) by the user. Modelled as a function
 * on the database state, where the properties are proved, and as a method
 * that walks the templates with a loop and is proved to agree with it.
 */
module ThemeDefaultObjects {
  import opened Wrappers
  import opened Json
  import opened Text
  import opened Models
  import opened Store
  import opened ThemeConfig

  const NOT_FINALIZED := "Theme configuration not finalized. Awaiting product team data."
  const NONE_CREATED := "Failed to create any default objects"
  /** The message of the TypeError raised by reading the first template of an empty list. */
  const NO_FIRST_TEMPLATE := "Cannot read properties of undefined (reading 'originalObjectId')"

  /** The keys the service writes over the template's own data. */
  const OVERLAY_KEYS: set<string> := {"originalObjectId", "userId", "createdByTheme", "isDefaultObject", "objectIndex"}

  function InvalidThemeMessage(themeId: int): (msg: string)
    ensures StartsWith(msg, "Invalid theme ID: ")
  {
    "Invalid theme ID: " + IntToString(themeId)
  }

  /** The check that refuses a theme before anything is read or written, if one does. */
  function Guard(configs: map<int, Theme>, themeId: int): (e: Option<string>)
    ensures themeId !in configs ==> e == Some(InvalidThemeMessage(themeId))
    ensures e.None? ==> themeId in configs && |configs[themeId].defaultModifiedObjects| > 0
  {
    if themeId !in configs then Some(InvalidThemeMessage(themeId))
    else if |configs[themeId].defaultModifiedObjects| == 0 then Some(NO_FIRST_TEMPLATE)
    else if StartsWith(configs[themeId].defaultModifiedObjects[0].originalObjectId, PLACEHOLDER_PREFIX) then Some(NOT_FINALIZED)
    else None
  }

  /** `hasValidDefaultObjectConfig`, for a given theme table. */
  function HasValidConfig(configs: map<int, Theme>, themeId: int): (b: bool)
    ensures b ==> themeId in configs && |configs[themeId].defaultModifiedObjects| > 0
  {
    themeId in configs && |configs[themeId].defaultModifiedObjects| != 0
    && !StartsWith(configs[themeId].defaultModifiedObjects[0].originalObjectId, PLACEHOLDER_PREFIX)
  }

  /** The pre-check a caller can make agrees exactly with the guard provisioning applies. */
  lemma HasValidIffGuardPasses(configs: map<int, Theme>, themeId: int)
    ensures HasValidConfig(configs, themeId) <==> Guard(configs, themeId).None?
  {
  }

  /** The template's data with the service's own keys written over it. */
  function Overlay(data: map<string, Json>, originalKey: Id, userId: string, themeId: int, index: nat): map<string, Json> {
    data + map["originalObjectId" := JId(originalKey), "userId" := JStr(userId),
               "createdByTheme" := JNum(themeId as real), "isDefaultObject" := JBool(true),
               "objectIndex" := JNum(index as real)]
  }

  /** The overlay keeps the template's other keys and writes the service's own values over the rest. */
  lemma OverlayWins(data: map<string, Json>, originalKey: Id, userId: string, themeId: int, index: nat)
    ensures var d := Overlay(data, originalKey, userId, themeId, index);
      d.Keys == data.Keys + OVERLAY_KEYS
      && (forall k :: k in data && k !in OVERLAY_KEYS ==> d[k] == data[k])
      && d["originalObjectId"] == JId(originalKey) && d["userId"] == JStr(userId)
      && d["createdByTheme"] == JNum(themeId as real) && d["isDefaultObject"] == JBool(true)
      && d["objectIndex"] == JNum(index as real)
  {
  }

  /** The placement made from a catalog object and the template at `index`. */
  function DefaultRecord(original: ImageObject, originalKey: Id, tpl: Template, userId: string, themeId: int, index: nat, now: nat): Modified {
    Modified(original.name, original.description, Some(original.currentImageSet), original.imageSets,
      false, original.onType, tpl.itemFunction, tpl.coordinates,
      JObj(Overlay(tpl.additionalData, originalKey, userId, themeId, index)), now)
  }

  /**
   * A default placement copies the catalog object's name, description, image
   * sets and wall/floor type, shows its current image set, is not user-made,
   * takes position and function from the template, and is stamped with the
   * current time (the template's mirroring flag is not a path of the
   * placement schema, so strict mode drops it).
   */
  lemma DefaultRecordCopies(original: ImageObject, originalKey: Id, tpl: Template, userId: string, themeId: int, index: nat, now: nat)
    ensures var m := DefaultRecord(original, originalKey, tpl, userId, themeId, index, now);
      m.name == original.name && m.description == original.description
      && m.currentImageSet == Some(original.currentImageSet) && m.imageSets == original.imageSets
      && m.onType == original.onType && !m.isUserMade
      && m.coordinates == tpl.coordinates && m.itemFunction == tpl.itemFunction
      && m.additionalData == JObj(Overlay(tpl.additionalData, originalKey, userId, themeId, index))
      && m.createdAt == now
  {
  }

  /** A placement carries the marks of a default object of `themeId` for `userId`. */
  predicate DefaultFor(m: Modified, userId: string, themeId: int) {
    !m.isUserMade && m.additionalData.JObj?
    && "userId" in m.additionalData.fields && m.additionalData.fields["userId"] == JStr(userId)
    && "createdByTheme" in m.additionalData.fields && m.additionalData.fields["createdByTheme"] == JNum(themeId as real)
    && "isDefaultObject" in m.additionalData.fields && m.additionalData.fields["isDefaultObject"] == JBool(true)
  }

  /**
   * Whether the placement schema accepts a copy of `original` made with `tpl`:
   * the copied name and image sets are not blank, the wall/floor type is
   * allowed and the template names an allowed function.
   */
  predicate Copyable(original: ImageObject, tpl: Template) {
    !IsBlank(original.name) && FilledSet(original.currentImageSet) && FilledSets(original.imageSets)
    && original.onType in OBJECT_ON_TYPES
    && tpl.itemFunction.Some? && Trim(tpl.itemFunction.value) in ITEM_FUNCTIONS
  }

  /** The save of a default placement succeeds exactly when the copy is acceptable. */
  lemma DefaultRecordSaves(original: ImageObject, originalKey: Id, tpl: Template, userId: string, themeId: int, index: nat, now: nat)
    ensures SaveModified(DefaultRecord(original, originalKey, tpl, userId, themeId, index, now)).Ok? <==> Copyable(original, tpl)
  {
    SaveModifiedAcceptsIff(DefaultRecord(original, originalKey, tpl, userId, themeId, index, now));
  }

  /** A catalog object that passed its own schema is copyable exactly when the template names an allowed function. */
  lemma CatalogObjectCopyable(original: ImageObject, tpl: Template)
    requires ValidImageObject(original)
    ensures Copyable(original, tpl) <==> tpl.itemFunction.Some? && Trim(tpl.itemFunction.value) in ITEM_FUNCTIONS
  {
    assert !IsBlank(original.name) by { TrimmedNameValid(original.name); TrimIdempotent(original.name); }
    assert FilledSet(original.currentImageSet) by { SetFilledWhenValid(original.currentImageSet); }
    forall k | 0 <= k < |original.imageSets| ensures FilledSet(original.imageSets[k]) {
      SetFilledWhenValid(original.imageSets[k]);
    }
  }

  /** A set the schema kept has no blank part. */
  lemma SetFilledWhenValid(s: ImageSet)
    requires ValidImageSet(s)
    ensures FilledSet(s)
  {
    TrimmedNameValid(s.name); TrimIdempotent(s.name);
    TrimmedNameValid(s.color); TrimIdempotent(s.color);
    TrimmedNameValid(s.src); TrimIdempotent(s.src);
  }

  /** The template stops the loop: its id is not an ObjectId, or its catalog object exists but the copy fails validation. */
  predicate Stops(cast: string -> Option<Id>, objects: map<Id, ImageObject>, tpl: Template) {
    cast(tpl.originalObjectId).None?
    || (cast(tpl.originalObjectId).value in objects && !Copyable(objects[cast(tpl.originalObjectId).value], tpl))
  }

  /**
   * What one pass of the loop does with one template. The lookups only read
   * the catalog, which the loop never writes, so the decision depends on the
   * catalog alone; `createdAt` is stamped when the record is stored.
   */
  datatype Decision = Skip | Stop(error: string) | Place(record: Modified)

  /**
   * `ImageObject.findById` on the template's id (a cast error stops the run,
   * a missing object is skipped), then `save()` of the copy, whose validation
   * error also stops the run.
   */
  function Decide(cast: string -> Option<Id>, objects: map<Id, ImageObject>, tpl: Template, index: nat, themeId: int, userId: string): (d: Decision)
    ensures d.Skip? <==> cast(tpl.originalObjectId).Some? && cast(tpl.originalObjectId).value !in objects
  {
    match cast(tpl.originalObjectId)
    case None => Stop(CastErrorMessage(tpl.originalObjectId, IMAGE_OBJECT_MODEL))
    case Some(k) =>
      if k !in objects then Skip
      else match SaveModified(DefaultRecord(objects[k], k, tpl, userId, themeId, index, 0))
        case Err(msg) => Stop(msg)
        case Ok(m) => Place(m)
  }

  /** A pass stops exactly on a template that `Stops`; past the cast, the error is the schema's validation error. */
  lemma DecideStops(cast: string -> Option<Id>, objects: map<Id, ImageObject>, tpl: Template, index: nat, themeId: int, userId: string)
    ensures var d := Decide(cast, objects, tpl, index, themeId, userId);
      (d.Stop? <==> Stops(cast, objects, tpl))
      && (d.Stop? && cast(tpl.originalObjectId).Some? ==> StartsWith(d.error, MODIFIED_VALIDATION_FAILED + ": "))
  {
    var k := cast(tpl.originalObjectId);
    if k.Some? && k.value in objects {
      DefaultRecordSaves(objects[k.value], k.value, tpl, userId, themeId, index, 0);
    }
  }

  /**
   * A placed copy is the trimmed default record of the template's catalog
   * object; the schema accepts it and it is marked as the user's default.
   */
  lemma DecidePlaces(cast: string -> Option<Id>, objects: map<Id, ImageObject>, tpl: Template, index: nat, themeId: int, userId: string)
    requires Decide(cast, objects, tpl, index, themeId, userId).Place?
    ensures var m := Decide(cast, objects, tpl, index, themeId, userId).record; var k := cast(tpl.originalObjectId).value;
      k in objects && Copyable(objects[k], tpl)
      && m == TrimmedModified(DefaultRecord(objects[k], k, tpl, userId, themeId, index, 0))
      && ValidModified(m) && DefaultFor(m, userId, themeId)
  {
    var k := cast(tpl.originalObjectId).value;
    DefaultRecordSaves(objects[k], k, tpl, userId, themeId, index, 0);
    SavedIsTrimmed(DefaultRecord(objects[k], k, tpl, userId, themeId, index, 0));
    DefaultRecordIsDefault(objects[k], k, tpl, userId, themeId, index, 0);
  }

  /** A record the schema accepts is stored trimmed. */
  lemma SavedIsTrimmed(m: Modified)
    requires SaveModified(m).Ok?
    ensures SaveModified(m).value == TrimmedModified(m) && ValidModified(TrimmedModified(m))
  {
  }

  /** Trimming a default placement keeps the marks that make it the user's default. */
  lemma DefaultRecordIsDefault(original: ImageObject, originalKey: Id, tpl: Template, userId: string, themeId: int, index: nat, now: nat)
    ensures DefaultFor(TrimmedModified(DefaultRecord(original, originalKey, tpl, userId, themeId, index, now)), userId, themeId)
  {
    var r := DefaultRecord(original, originalKey, tpl, userId, themeId, index, now);
    OverlayWins(tpl.additionalData, originalKey, userId, themeId, index);
    assert TrimmedModified(r).additionalData == r.additionalData && TrimmedModified(r).isUserMade == r.isUserMade;
  }

  /**
   * `ds` holds the decision for each template of `tpls` against `objects`.
   * The trigger keeps a loop that only reads `ds[i]` from unfolding the
   * lookup and the save.
   */
  predicate DecidedAs(ds: seq<Decision>, cast: string -> Option<Id>, objects: map<Id, ImageObject>, tpls: seq<Template>, themeId: int, userId: string) {
    |ds| == |tpls|
    && forall j {:trigger Decide(cast, objects, tpls[j], j, themeId, userId)} ::
         0 <= j < |tpls| ==> ds[j] == Decide(cast, objects, tpls[j], j, themeId, userId)
  }

  /** The decisions for a whole template list, in order. */
  function Decisions(cast: string -> Option<Id>, objects: map<Id, ImageObject>, tpls: seq<Template>, themeId: int, userId: string): (ds: seq<Decision>)
    ensures DecidedAs(ds, cast, objects, tpls, themeId, userId)
  {
    seq(|tpls|, j requires 0 <= j < |tpls| => Decide(cast, objects, tpls[j], j, themeId, userId))
  }

  /** The state after a record is stored under the fresh key, stamped with the current time. */
  function Store1(s: State, m: Modified): (t: State)
    ensures t.users == s.users && t.objects == s.objects && t.nextId == s.nextId + 1 && t.clock == s.clock + 1
    ensures t.modified == s.modified[s.nextId := m.(createdAt := s.clock)]
  {
    Tick(s).(modified := s.modified[s.nextId := m.(createdAt := s.clock)])
  }

  /** The loop from template `i` on, with `created` the keys saved so far. */
  function PlaceFrom(s: State, ds: seq<Decision>, i: nat, created: seq<Id>): (o: Outcome<seq<Id>>)
    requires i <= |ds|
    decreases |ds| - i
    ensures o.state.users == s.users && o.state.objects == s.objects
    ensures s.nextId <= o.state.nextId && o.state.clock - s.clock == o.state.nextId - s.nextId
  {
    if i == |ds| then Outcome(Ok(created), s)
    else match ds[i]
      case Skip => PlaceFrom(s, ds, i + 1, created)
      case Stop(msg) => Outcome(Err(msg), s)
      case Place(m) => PlaceFrom(Store1(s, m), ds, i + 1, created + [s.nextId])
  }

  /** On success the loop returns the keys saved so far followed by the keys it handed out, in order; it hands out at most one per remaining template. */
  lemma {:induction false} PlaceFromKeys(s: State, ds: seq<Decision>, i: nat, created: seq<Id>)
    requires i <= |ds|
    decreases |ds| - i
    ensures var o := PlaceFrom(s, ds, i, created);
      o.state.nextId - s.nextId <= |ds| - i
      && (o.result.Ok? ==> o.result.value == created + KeysFrom(s.nextId, o.state.nextId))
  {
    if i < |ds| {
      match ds[i]
      case Skip =>
        PlaceFromKeys(s, ds, i + 1, created);
      case Stop(_) =>
      case Place(m) =>
        var t := Store1(s, m);
        PlaceFromKeys(t, ds, i + 1, created + [s.nextId]);
        var o := PlaceFrom(t, ds, i + 1, created + [s.nextId]);
        assert PlaceFrom(s, ds, i, created) == o;
        var ks := KeysFrom(t.nextId, o.state.nextId);
        KeysFromFront(s.nextId, o.state.nextId);
        AppendAssoc(created, [s.nextId], ks);
    } else {
      assert created + KeysFrom(s.nextId, s.nextId) == created;
    }
  }

  lemma AppendAssoc(a: seq<Id>, b: seq<Id>, c: seq<Id>)
    ensures a + b + c == a + (b + c)
  {
  }

  /** A non-empty key range starts with its lower end. */
  lemma KeysFromFront(from: Id, to: Id)
    requires from < to
    ensures KeysFrom(from, to) == [from] + KeysFrom(from + 1, to)
  {
  }

  /** The keys `from`, `from + 1`, ..., up to but excluding `to`, in order. */
  function KeysFrom(from: Id, to: Id): (ks: seq<Id>)
    decreases to - from
    ensures |ks| == if from <= to then to - from else 0
    ensures forall j :: 0 <= j < |ks| ==> ks[j] == from + j
  {
    if to <= from then [] else [from] + KeysFrom(from + 1, to)
  }

  /**
   * `createDefaultModifiedObjects`: refuse an unknown theme, an empty template
   * list or a placeholder first template; otherwise place each template whose
   * catalog object exists, stopping at the first id that is not an ObjectId
   * or the first copy the schema refuses (whatever was saved before stays
   * saved), and fail when nothing was placed.
   */
  function Provision(cast: string -> Option<Id>, s: State, configs: map<int, Theme>, themeId: int, userId: string): (o: Outcome<seq<Id>>)
    ensures Guard(configs, themeId).Some? ==> o == Outcome(Err(Guard(configs, themeId).value), s)
    ensures o.state.users == s.users && o.state.objects == s.objects
  {
    match Guard(configs, themeId)
    case Some(msg) => Outcome(Err(msg), s)
    case None =>
      var o := PlaceFrom(s, Decisions(cast, s.objects, configs[themeId].defaultModifiedObjects, themeId, userId), 0, []);
      if o.result.Ok? && o.result.value == [] then Outcome(Err(NONE_CREATED), o.state) else o
  }

  /** On success the result lists, in order, the keys of the placements made, at least one and at most one per template. */
  lemma ProvisionKeys(cast: string -> Option<Id>, s: State, configs: map<int, Theme>, themeId: int, userId: string)
    ensures var o := Provision(cast, s, configs, themeId, userId);
      o.result.Ok? ==> 0 < |o.result.value| <= |configs[themeId].defaultModifiedObjects|
                       && o.result.value == KeysFrom(s.nextId, o.state.nextId)
  {
    if Guard(configs, themeId).None? {
      PlaceFromKeys(s, Decisions(cast, s.objects, configs[themeId].defaultModifiedObjects, themeId, userId), 0, []);
    }
  }

  /** With the shipped table no theme is provisioned and nothing is written. */
  lemma ShippedTableNeverProvisions(cast: string -> Option<Id>, s: State, themeId: int, userId: string)
    ensures !HasValidConfig(THEME_CONFIGS, themeId)
    ensures Provision(cast, s, THEME_CONFIGS, themeId, userId).result.Err?
    ensures Provision(cast, s, THEME_CONFIGS, themeId, userId).state == s
  {
    if themeId in THEME_CONFIGS {
      ShippedTheme(themeId);
      assert ShippedTemplate(themeId, 0, THEME_CONFIGS[themeId].defaultModifiedObjects[0]);
    }
  }

  /** The loop adds exactly the keys it hands out and leaves every other placement as it was. */
  lemma {:induction false} PlaceFromFrame(s: State, ds: seq<Decision>, i: nat, created: seq<Id>)
    requires i <= |ds|
    decreases |ds| - i
    ensures var t := PlaceFrom(s, ds, i, created).state;
      (forall k :: k in t.modified <==> k in s.modified || s.nextId <= k < t.nextId)
      && (forall k :: k in s.modified && !(s.nextId <= k < t.nextId) ==> t.modified[k] == s.modified[k])
  {
    if i < |ds| {
      match ds[i]
      case Skip =>
        PlaceFromFrame(s, ds, i + 1, created);
      case Stop(_) =>
      case Place(m) =>
        var t := Store1(s, m);
        PlaceFromFrame(t, ds, i + 1, created + [s.nextId]);
        var f := PlaceFrom(t, ds, i + 1, created + [s.nextId]).state;
        assert PlaceFrom(s, ds, i, created).state == f;
        forall k ensures k in f.modified <==> k in s.modified || s.nextId <= k < f.nextId {
          assert k in t.modified <==> k in s.modified || k == s.nextId;
        }
        forall k | k in s.modified && !(s.nextId <= k < f.nextId) ensures f.modified[k] == s.modified[k] {
          assert t.modified[k] == s.modified[k];
        }
    }
  }

  /** Every record a decision list would place from `i` on is marked as the user's default for the theme. */
  predicate PlacedAll(ds: seq<Decision>, i: nat, userId: string, themeId: int) {
    forall j :: i <= j < |ds| && ds[j].Place? ==> DefaultFor(ds[j].record, userId, themeId)
  }

  /** Every placement the loop adds carries the marks its decision carried. */
  lemma {:induction false} PlaceFromMarks(s: State, ds: seq<Decision>, i: nat, created: seq<Id>, userId: string, themeId: int)
    requires i <= |ds| && PlacedAll(ds, i, userId, themeId)
    decreases |ds| - i
    ensures var t := PlaceFrom(s, ds, i, created).state;
      forall k :: s.nextId <= k < t.nextId ==> k in t.modified && DefaultFor(t.modified[k], userId, themeId)
  {
    if i < |ds| {
      match ds[i]
      case Skip =>
        PlaceFromMarks(s, ds, i + 1, created, userId, themeId);
        assert PlaceFrom(s, ds, i, created) == PlaceFrom(s, ds, i + 1, created);
      case Stop(_) =>
        assert PlaceFrom(s, ds, i, created).state == s;
      case Place(m) =>
        var t := Store1(s, m);
        PlaceFromFrame(t, ds, i + 1, created + [s.nextId]);
        PlaceFromMarks(t, ds, i + 1, created + [s.nextId], userId, themeId);
        var f := PlaceFrom(t, ds, i + 1, created + [s.nextId]).state;
        assert PlaceFrom(s, ds, i, created).state == f;
        forall k | s.nextId <= k < f.nextId
          ensures k in f.modified && DefaultFor(f.modified[k], userId, themeId)
        {
          if k == s.nextId {
            assert f.modified[k] == t.modified[k] == m.(createdAt := s.clock);
            assert DefaultFor(m, userId, themeId);
          }
        }
    }
  }

  /** The loop stops with an error exactly when some remaining decision is to stop. */
  lemma {:induction false} PlaceFromFails(s: State, ds: seq<Decision>, i: nat, created: seq<Id>)
    requires i <= |ds|
    decreases |ds| - i
    ensures PlaceFrom(s, ds, i, created).result.Err? <==> exists j :: i <= j < |ds| && ds[j].Stop?
  {
    if i < |ds| {
      match ds[i]
      case Skip => PlaceFromFails(s, ds, i + 1, created);
      case Stop(_) =>
      case Place(m) => PlaceFromFails(Store1(s, m), ds, i + 1, created + [s.nextId]);
    }
  }

  /** When every remaining decision is to place, the loop places one copy per template. */
  lemma {:induction false} PlaceFromAllPlaced(s: State, ds: seq<Decision>, i: nat, created: seq<Id>)
    requires i <= |ds|
    requires forall j :: i <= j < |ds| ==> ds[j].Place?
    decreases |ds| - i
    ensures PlaceFrom(s, ds, i, created).result.Ok?
    ensures |PlaceFrom(s, ds, i, created).result.value| == |created| + (|ds| - i)
  {
    if i < |ds| {
      PlaceFromAllPlaced(Store1(s, ds[i].record), ds, i + 1, created + [s.nextId]);
    }
  }

  /**
   * The loop over a theme's templates stops with an error exactly when some
   * template's id is not an ObjectId or names a catalog object whose copy
   * fails validation.
   */
  lemma TemplatesFail(cast: string -> Option<Id>, s: State, tpls: seq<Template>, themeId: int, userId: string)
    ensures PlaceFrom(s, Decisions(cast, s.objects, tpls, themeId, userId), 0, []).result.Err?
      <==> exists j :: 0 <= j < |tpls| && Stops(cast, s.objects, tpls[j])
  {
    var ds := Decisions(cast, s.objects, tpls, themeId, userId);
    PlaceFromFails(s, ds, 0, []);
    forall j | 0 <= j < |tpls| ensures ds[j].Stop? <==> Stops(cast, s.objects, tpls[j]) {
      DecideStops(cast, s.objects, tpls[j], j, themeId, userId);
    }
  }

  /** Every template names, by an ObjectId, a catalog object that exists and copies acceptably. */
  predicate AllFound(cast: string -> Option<Id>, objects: map<Id, ImageObject>, tpls: seq<Template>) {
    forall t :: t in tpls ==>
      cast(t.originalObjectId).Some? && cast(t.originalObjectId).value in objects
      && Copyable(objects[cast(t.originalObjectId).value], t)
  }

  /** When every catalog object exists and its copy is acceptable, the loop places one copy per template. */
  lemma TemplatesAllFound(cast: string -> Option<Id>, s: State, tpls: seq<Template>, themeId: int, userId: string)
    requires AllFound(cast, s.objects, tpls)
    ensures PlaceFrom(s, Decisions(cast, s.objects, tpls, themeId, userId), 0, []).result.Ok?
    ensures |PlaceFrom(s, Decisions(cast, s.objects, tpls, themeId, userId), 0, []).result.value| == |tpls|
  {
    var ds := Decisions(cast, s.objects, tpls, themeId, userId);
    forall j | 0 <= j < |tpls| ensures ds[j].Place? {
      assert tpls[j] in tpls;
      DecideStops(cast, s.objects, tpls[j], j, themeId, userId);
    }
    PlaceFromAllPlaced(s, ds, 0, []);
  }

  /** A theme whose guard passes and whose catalog objects all exist and copy acceptably gets one placement per template. */
  lemma ProvisionAllFound(cast: string -> Option<Id>, s: State, configs: map<int, Theme>, themeId: int, userId: string)
    requires HasValidConfig(configs, themeId)
    requires AllFound(cast, s.objects, configs[themeId].defaultModifiedObjects)
    ensures Provision(cast, s, configs, themeId, userId).result.Ok?
    ensures |Provision(cast, s, configs, themeId, userId).result.value| == |configs[themeId].defaultModifiedObjects|
  {
    TemplatesAllFound(cast, s, configs[themeId].defaultModifiedObjects, themeId, userId);
  }

  /**
   * A theme whose guard passes fails exactly when some template stops the
   * loop (its id is not an ObjectId or its copy fails validation) or no
   * catalog object was found.
   */
  lemma ProvisionFails(cast: string -> Option<Id>, s: State, configs: map<int, Theme>, themeId: int, userId: string)
    requires HasValidConfig(configs, themeId)
    ensures var tpls := configs[themeId].defaultModifiedObjects;
      Provision(cast, s, configs, themeId, userId).result.Err?
      <==> (exists j :: 0 <= j < |tpls| && Stops(cast, s.objects, tpls[j]))
           || PlaceFrom(s, Decisions(cast, s.objects, tpls, themeId, userId), 0, []).result == Ok([])
  {
    TemplatesFail(cast, s, configs[themeId].defaultModifiedObjects, themeId, userId);
  }

  /** Provisioning keeps keys below the counter and timestamps in the past; every new placement is marked as the user's default. */
  lemma ProvisionPreservesValid(cast: string -> Option<Id>, s: State, configs: map<int, Theme>, themeId: int, userId: string)
    requires ValidState(s)
    ensures var t := Provision(cast, s, configs, themeId, userId).state;
      ValidState(t) && forall k :: k in t.modified && k !in s.modified ==> DefaultFor(t.modified[k], userId, themeId)
  {
    if Guard(configs, themeId).None? {
      var tpls := configs[themeId].defaultModifiedObjects;
      var ds := Decisions(cast, s.objects, tpls, themeId, userId);
      forall j | 0 <= j < |ds| && ds[j].Place? ensures DefaultFor(ds[j].record, userId, themeId) {
        DecidePlaces(cast, s.objects, tpls[j], j, themeId, userId);
      }
      PlaceFromKeepsValid(s, ds, 0, []);
      PlaceFromFrame(s, ds, 0, []);
      PlaceFromMarks(s, ds, 0, [], userId, themeId);
    }
  }

  lemma {:induction false} PlaceFromKeepsValid(s: State, ds: seq<Decision>, i: nat, created: seq<Id>)
    requires i <= |ds| && ValidState(s)
    decreases |ds| - i
    ensures ValidState(PlaceFrom(s, ds, i, created).state)
  {
    if i < |ds| {
      match ds[i]
      case Skip => PlaceFromKeepsValid(s, ds, i + 1, created);
      case Stop(_) =>
      case Place(m) =>
        var t := Store1(s, m);
        assert ValidState(t) by {
          forall k | k in t.users ensures ListsBelow(t.users[k], t.nextId) {
            assert ListsBelow(s.users[k], s.nextId);
          }
        }
        PlaceFromKeepsValid(t, ds, i + 1, created + [s.nextId]);
    }
  }

  /** `createDefaultModifiedObjects` on the database in place: a loop over the templates. */
  method CreateDefaultModifiedObjects(db: Db, configs: map<int, Theme>, themeId: int, userId: string) returns (r: Result<seq<Id>>)
    requires db.Valid()
    modifies db
    ensures db.Valid()
    ensures Provision(db.cast, old(db.Snapshot()), configs, themeId, userId) == Outcome(r, db.Snapshot())
  {
    ProvisionPreservesValid(db.cast, db.Snapshot(), configs, themeId, userId);
    var guard := Guard(configs, themeId);
    if guard.Some? {
      return Err(guard.value);
    }
    ghost var ds := Decisions(db.cast, db.objects, configs[themeId].defaultModifiedObjects, themeId, userId);
    r := PlaceAll(db, configs[themeId].defaultModifiedObjects, themeId, userId, ds);
    if r.Ok? && r.value == [] {
      r := Err(NONE_CREATED);
    }
  }

  /** The loop over the templates on the database in place, from the first template on. */
  method PlaceAll(db: Db, tpls: seq<Template>, themeId: int, userId: string, ghost ds: seq<Decision>) returns (r: Result<seq<Id>>)
    requires DecidedAs(ds, db.cast, db.objects, tpls, themeId, userId)
    modifies db
    ensures PlaceFrom(old(db.Snapshot()), ds, 0, []) == Outcome(r, db.Snapshot())
  {
    var created: seq<Id> := [];
    var i := 0;
    while i < |tpls|
      invariant 0 <= i <= |tpls| && db.objects == old(db.objects)
      invariant PlaceFrom(old(db.Snapshot()), ds, 0, []) == PlaceFrom(db.Snapshot(), ds, i, created)
    {
      var error, id := PlaceOneInPlace(db, tpls, i, themeId, userId, ds);
      if error.Some? {
        return Err(error.value);
      }
      if id.Some? {
        created := created + [id.value];
      }
      i := i + 1;
    }
    r := Ok(created);
  }

  /** One pass of the loop on the database in place: the error that stops it, or the key saved, if any. */
  method PlaceOneInPlace(db: Db, tpls: seq<Template>, i: nat, themeId: int, userId: string, ghost ds: seq<Decision>) returns (error: Option<string>, id: Option<Id>)
    requires i < |tpls| && DecidedAs(ds, db.cast, db.objects, tpls, themeId, userId)
    modifies db
    ensures db.objects == old(db.objects)
    ensures (error.Some? <==> ds[i].Stop?) && (ds[i].Stop? ==> error.value == ds[i].error)
    ensures (id.Some? <==> ds[i].Place?) && (ds[i].Place? ==> id.value == old(db.nextId) && db.Snapshot() == Store1(old(db.Snapshot()), ds[i].record))
    ensures !ds[i].Place? ==> db.Snapshot() == old(db.Snapshot())
  {
    var d := DecideIn(db, tpls, i, themeId, userId, ds);
    match d
    case Skip =>
      return None, None;
    case Stop(msg) =>
      return Some(msg), None;
    case Place(m) =>
      var key, now := db.Fresh();
      db.modified := db.modified[key := m.(createdAt := now)];
      return None, Some(key);
  }

  /** The lookup of the template's catalog object and the save's validation of the copy. */
  method DecideIn(db: Db, tpls: seq<Template>, i: nat, themeId: int, userId: string, ghost ds: seq<Decision>) returns (d: Decision)
    requires i < |tpls| && DecidedAs(ds, db.cast, db.objects, tpls, themeId, userId)
    ensures d == ds[i]
  {
    d := Decide(db.cast, db.objects, tpls[i], i, themeId, userId);
  }
}

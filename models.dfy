/**
 * The three stored document kinds (catalog objects, placed "modified" objects
 * and users) and the invariants their schemas declare.
 */
module Models {
  import opened Wrappers
  import opened Json
  import Text

  /** Keys of stored documents. */
  type Id = nat

  /** One look of an object: display name, colour label and image location. */
  datatype ImageSet = ImageSet(name: string, color: string, src: string)

  /** A catalog object. `description` is `None` when the document has no such field. */
  datatype ImageObject = ImageObject(
    name: string,
    description: Option<string>,
    currentImageSet: ImageSet,
    imageSets: seq<ImageSet>,
    isUserMade: bool,
    onType: string,
    createdAt: nat)

  /** A position inside a room; the values are carried, never computed with. */
  datatype Coords = Coords(x: real, y: real)

  /**
   * A placed object: every catalog field, plus what the placement adds.
   * `itemFunction == None` stands for a stored `null`; `currentImageSet` is
   * `None` when it was never set. The placed-object schema declares no
   * `imageSrc` and no `isReversed`, so strict mode keeps neither: a placed
   * object has no such fields.
   */
  datatype Modified = Modified(
    name: string,
    description: Option<string>,
    currentImageSet: Option<ImageSet>,
    imageSets: seq<ImageSet>,
    isUserMade: bool,
    onType: string,
    itemFunction: Option<string>,
    coordinates: Coords,
    additionalData: Json,
    createdAt: nat)

  /** The analysis a user last received. */
  datatype Analysis = Analysis(choice: int, reason: string, theme: string, analyzedAt: nat, responses: seq<Json>)

  /**
   * A user. `theme` maps leaf paths below `theme` (such as "floorColor" or
   * "backgroundMusic.url") to their values.
   */
  datatype User = User(
    name: Option<string>,
    email: string,
    password: string,
    theme: map<string, string>,
    themeId: Option<int>,
    invitation: Option<string>,
    objectIds: seq<Id>,
    modifiedObjectIds: seq<Id>,
    onboardingResponses: Option<seq<Json>>,
    aiAnalysis: Option<Analysis>,
    createdAt: nat)

  const OBJECT_ON_TYPES: set<string> := {"Wall", "Floor"}
  const ITEM_FUNCTIONS: set<string> := {"Gallery", "Link", "Board", "None"}
  const WEATHERS: set<string> := {"sunny", "raining", "cloudy", "snowing", "night", "sunset"}

  /** A required string passes when it is present and not empty. */
  predicate Required(s: string) {
    s != ""
  }

  /** An image set as the schema keeps it: every part present and already trimmed. */
  predicate ValidImageSet(s: ImageSet) {
    Required(s.name) && Required(s.color) && Required(s.src)
    && Text.Trim(s.name) == s.name && Text.Trim(s.color) == s.color && Text.Trim(s.src) == s.src
  }

  /** The catalog object schema: trimmed required name, valid sets, onType in the enumeration. */
  predicate ValidImageObject(o: ImageObject) {
    Required(o.name) && Text.Trim(o.name) == o.name
    && (o.description.Some? ==> Text.Trim(o.description.value) == o.description.value)
    && ValidImageSet(o.currentImageSet)
    && (forall k :: 0 <= k < |o.imageSets| ==> ValidImageSet(o.imageSets[k]))
    && o.onType in OBJECT_ON_TYPES
  }

  /** An image set with the schema's `trim` setters applied. */
  function TrimmedSet(s: ImageSet): ImageSet {
    ImageSet(Text.Trim(s.name), Text.Trim(s.color), Text.Trim(s.src))
  }

  /** A catalog object with the schema's `trim` setters applied to every string field. */
  function TrimmedObject(o: ImageObject): ImageObject {
    o.(name := Text.Trim(o.name),
       description := if o.description.Some? then Some(Text.Trim(o.description.value)) else None,
       currentImageSet := TrimmedSet(o.currentImageSet),
       imageSets := seq(|o.imageSets|, i requires 0 <= i < |o.imageSets| => TrimmedSet(o.imageSets[i])))
  }

  const OBJECT_VALIDATION_FAILED := "ImageObject validation failed"

  /** `new ImageObject(...).save()`: the setters trim, then the schema validates. */
  function SaveImageObject(o: ImageObject): (r: Result<ImageObject>)
    ensures r.Ok? ==> ValidImageObject(r.value) && r.value.createdAt == o.createdAt && r.value.isUserMade == o.isUserMade
    ensures r.Ok? ==> o.onType in OBJECT_ON_TYPES && r.value.onType == o.onType
  {
    if ValidImageObject(TrimmedObject(o)) then Ok(TrimmedObject(o)) else Err(OBJECT_VALIDATION_FAILED)
  }

  /** The enumeration has no side walls. */
  lemma SideWallsNotOnTypes()
    ensures "LeftWall" !in OBJECT_ON_TYPES && "RightWall" !in OBJECT_ON_TYPES
  {
    assert "LeftWall"[0] != "Wall"[0] && "LeftWall"[0] != "Floor"[0];
    assert "RightWall"[0] != "Wall"[0] && "RightWall"[0] != "Floor"[0];
  }

  /** What a successful save stores is the object with the setters applied. */
  lemma SaveKeepsTrimmed(o: ImageObject)
    requires SaveImageObject(o).Ok?
    ensures SaveImageObject(o).value == TrimmedObject(o)
  {
  }

  /** A set survives the setters and the required checks when no part of it is blank. */
  predicate FilledSet(s: ImageSet) {
    !Text.IsBlank(s.name) && !Text.IsBlank(s.color) && !Text.IsBlank(s.src)
  }

  lemma TrimmedSetValid(s: ImageSet)
    ensures ValidImageSet(TrimmedSet(s)) <==> FilledSet(s)
  {
    TrimmedNameValid(s.name);
    TrimmedNameValid(s.color);
    TrimmedNameValid(s.src);
  }

  /** A name survives the setter and the required check when it is not blank. */
  lemma TrimmedNameValid(n: string)
    ensures (Required(Text.Trim(n)) && Text.Trim(Text.Trim(n)) == Text.Trim(n)) <==> !Text.IsBlank(n)
  {
    Text.TrimIdempotent(n);
  }

  /** Every set survives when no set has a blank part. */
  lemma TrimmedSetsValid(o: ImageObject)
    ensures (forall k :: 0 <= k < |TrimmedObject(o).imageSets| ==> ValidImageSet(TrimmedObject(o).imageSets[k]))
       <==> (forall k :: 0 <= k < |o.imageSets| ==> FilledSet(o.imageSets[k]))
  {
    var t := TrimmedObject(o);
    forall k | 0 <= k < |o.imageSets|
      ensures ValidImageSet(t.imageSets[k]) <==> FilledSet(o.imageSets[k])
    {
      assert t.imageSets[k] == TrimmedSet(o.imageSets[k]);
      TrimmedSetValid(o.imageSets[k]);
    }
  }

  /**
   * Saving succeeds exactly when the name and every part of every set hold
   * something other than white space and the placement kind is one of the
   * enumeration's.
   */
  lemma SaveAcceptsIff(o: ImageObject)
    ensures SaveImageObject(o).Ok? <==>
      !Text.IsBlank(o.name) && FilledSet(o.currentImageSet)
      && (forall k :: 0 <= k < |o.imageSets| ==> FilledSet(o.imageSets[k]))
      && o.onType in OBJECT_ON_TYPES
  {
    var t := TrimmedObject(o);
    assert SaveImageObject(o).Ok? <==> ValidImageObject(t);
    TrimmedNameValid(o.name);
    assert Required(t.name) && Text.Trim(t.name) == t.name <==> !Text.IsBlank(o.name);
    if o.description.Some? {
      Text.TrimIdempotent(o.description.value);
    }
    assert t.description.Some? ==> Text.Trim(t.description.value) == t.description.value;
    TrimmedSetValid(o.currentImageSet);
    TrimmedSetsValid(o);
    assert t.onType == o.onType;
  }

  /**
   * The placed-object schema, which copies the catalog object's fields: a
   * trimmed required name, a required current set, valid sets, `onType` in
   * the enumeration, and a required `itemFunction` in its own enumeration.
   */
  predicate ValidModified(m: Modified) {
    Required(m.name) && Text.Trim(m.name) == m.name
    && (m.description.Some? ==> Text.Trim(m.description.value) == m.description.value)
    && m.currentImageSet.Some? && ValidImageSet(m.currentImageSet.value)
    && ValidSets(m.imageSets)
    && m.onType in OBJECT_ON_TYPES
    && m.itemFunction.Some? && m.itemFunction.value in ITEM_FUNCTIONS
  }

  /** A placement with the schema's `trim` setters applied to every string field they cover. */
  function TrimmedModified(m: Modified): Modified {
    m.(name := Text.Trim(m.name),
       description := if m.description.Some? then Some(Text.Trim(m.description.value)) else None,
       currentImageSet := if m.currentImageSet.Some? then Some(TrimmedSet(m.currentImageSet.value)) else None,
       imageSets := TrimmedSets(m.imageSets),
       itemFunction := if m.itemFunction.Some? then Some(Text.Trim(m.itemFunction.value)) else None)
  }

  const MODIFIED_VALIDATION_FAILED := "ModifiedObject validation failed"

  /**
   * One validator that failed on a save: the path it guards, and for a
   * required check the path inside its subdocument, which is what the
   * message names; for an enumeration, the value it refused.
   */
  datatype Fault = Missing(path: string, leaf: string) | NotInEnum(path: string, value: string)

  /** How a `ValidationError` reports one failed path. */
  function FaultText(f: Fault): (r: string)
    ensures Text.Contains(r, f.path)
  {
    var detail := match f
      case Missing(_, leaf) => "Path `" + leaf + "` is required."
      case NotInEnum(path, value) => "`" + value + "` is not a valid enum value for path `" + path + "`.";
    Text.ContainsPrefix(f.path, ": " + detail);
    f.path + (": " + detail)
  }

  /** The failed paths' reports, joined by ", " as the error's message joins them. */
  function JoinFaults(faults: seq<Fault>): string {
    if faults == [] then ""
    else if |faults| == 1 then FaultText(faults[0])
    else FaultText(faults[0]) + (", " + JoinFaults(faults[1..]))
  }

  /** The joined reports name every failed path. */
  lemma {:induction false} JoinFaultsNamesPaths(faults: seq<Fault>)
    ensures forall k :: 0 <= k < |faults| ==> Text.Contains(JoinFaults(faults), faults[k].path)
  {
    if |faults| > 1 {
      JoinFaultsNamesPaths(faults[1..]);
      forall k | 0 <= k < |faults| ensures Text.Contains(JoinFaults(faults), faults[k].path) {
        if k == 0 {
          JoinedHeadNamed(FaultText(faults[0]), JoinFaults(faults[1..]), faults[0].path);
        } else {
          assert faults[k] == faults[1..][k - 1];
          JoinedRestNamed(FaultText(faults[0]), JoinFaults(faults[1..]), faults[k].path);
        }
      }
    }
  }

  /** A word of the first report is in the joined reports. */
  lemma JoinedHeadNamed(head: string, rest: string, w: string)
    requires Text.Contains(head, w)
    ensures Text.Contains(head + (", " + rest), w)
  {
    Text.ContainsInPrefix(head, ", " + rest, w);
  }

  /** A word of the later reports is in the joined reports. */
  lemma JoinedRestNamed(head: string, rest: string, w: string)
    requires Text.Contains(rest, w)
    ensures Text.Contains(head + (", " + rest), w)
  {
    Text.ContainsInSuffix(head + ", ", rest, w);
    assert head + (", " + rest) == (head + ", ") + rest;
  }

  /** The message of the `ValidationError` a failed save throws: the model's name, then every failed path. */
  function ValidationMessage(faults: seq<Fault>): (r: string)
    ensures Text.StartsWith(r, MODIFIED_VALIDATION_FAILED + ": ")
    ensures forall k :: 0 <= k < |faults| ==> Text.Contains(r, faults[k].path)
  {
    var r := MODIFIED_VALIDATION_FAILED + ": " + JoinFaults(faults);
    assert r[..|MODIFIED_VALIDATION_FAILED + ": "|] == MODIFIED_VALIDATION_FAILED + ": ";
    JoinFaultsNamesPaths(faults);
    forall k | 0 <= k < |faults| ensures Text.Contains(r, faults[k].path) {
      Text.ContainsInSuffix(MODIFIED_VALIDATION_FAILED + ": ", JoinFaults(faults), faults[k].path);
    }
    r
  }

  /** The message of a save whose only failure is a missing top-level path. */
  lemma MissingMessage(path: string)
    ensures ValidationMessage([Missing(path, path)])
         == (MODIFIED_VALIDATION_FAILED + ": ") + (path + (": " + ("Path `" + path + "` is required.")))
  {
    assert JoinFaults([Missing(path, path)]) == FaultText(Missing(path, path));
  }

  /** The message's start has no `F` and no `S`. */
  lemma MessageStartChars()
    ensures var a := MODIFIED_VALIDATION_FAILED + ": "; 'F' !in a && 'S' !in a
  {
  }

  /** The message's start has neither `co` nor `Fo`. */
  lemma MessageStartPairs()
    ensures var a := MODIFIED_VALIDATION_FAILED + ": "; Text.PairFree(a, 'c', 'o') && Text.PairFree(a, 'F', 'o')
  {
  }

  /** The required check of one string path, which refuses the empty string. */
  function RequiredFault(path: string, leaf: string, v: string): (r: seq<Fault>)
    ensures r == [] <==> Required(v)
    ensures r != [] ==> r == [Missing(path, leaf)]
  {
    if Required(v) then [] else [Missing(path, leaf)]
  }

  /** An image set's three required parts, reported under `prefix`. */
  function SetFaults(prefix: string, s: ImageSet): (r: seq<Fault>)
    ensures r == [] <==> SetPresent(s)
  {
    RequiredFault(prefix + ".name", "name", s.name) + RequiredFault(prefix + ".color", "color", s.color)
    + RequiredFault(prefix + ".src", "src", s.src)
  }

  /** The sets of the `imageSets` array from position `from` on, each reported under its index. */
  function SetsFaults(sets: seq<ImageSet>, from: nat): (r: seq<Fault>)
    ensures r == [] <==> forall k :: from <= k < |sets| ==> SetPresent(sets[k])
    decreases |sets| - from
  {
    if from >= |sets| then []
    else SetFaults("imageSets." + Text.NatToString(from), sets[from]) + SetsFaults(sets, from + 1)
  }

  /** A required path with an enumeration: missing when empty, refused when not listed. */
  function EnumFault(path: string, v: string, values: set<string>): (r: seq<Fault>)
    requires "" !in values
    ensures r == [] <==> v in values
  {
    if !Required(v) then [Missing(path, path)] else if v in values then [] else [NotInEnum(path, v)]
  }

  /** A set's three parts are present. */
  predicate SetPresent(s: ImageSet) {
    Required(s.name) && Required(s.color) && Required(s.src)
  }

  /** Every required and enumeration check of the placed-object schema passes. */
  predicate PassesChecks(t: Modified) {
    Required(t.name) && t.currentImageSet.Some? && SetPresent(t.currentImageSet.value)
    && (forall k :: 0 <= k < |t.imageSets| ==> SetPresent(t.imageSets[k]))
    && t.onType in OBJECT_ON_TYPES
    && t.itemFunction.Some? && t.itemFunction.value in ITEM_FUNCTIONS
  }

  /**
   * The validators a placement fails once the setters have run, in the
   * schema's path order: name, current set, sets, placement kind, function.
   */
  function ModifiedFaults(t: Modified): (r: seq<Fault>)
    ensures r == [] <==> PassesChecks(t)
  {
    RequiredFault("name", "name", t.name)
    + (if t.currentImageSet.None? then [Missing("currentImageSet", "currentImageSet")]
       else SetFaults("currentImageSet", t.currentImageSet.value))
    + SetsFaults(t.imageSets, 0)
    + EnumFault("onType", t.onType, OBJECT_ON_TYPES)
    + (if t.itemFunction.None? then [Missing("itemFunction", "itemFunction")]
       else EnumFault("itemFunction", t.itemFunction.value, ITEM_FUNCTIONS))
  }

  /** `new ModifiedObjectModel(...).save()`: the setters trim, then the schema validates. */
  function SaveModified(m: Modified): (r: Result<Modified>)
    ensures r.Ok? ==> ValidModified(r.value)
    ensures r.Ok? ==> r.value.isUserMade == m.isUserMade && r.value.additionalData == m.additionalData
                      && r.value.createdAt == m.createdAt && r.value.coordinates == m.coordinates && r.value.onType == m.onType
    ensures r.Err? ==> Text.StartsWith(r.error, MODIFIED_VALIDATION_FAILED + ": ")
  {
    if ValidModified(TrimmedModified(m)) then Ok(TrimmedModified(m))
    else Err(ValidationMessage(ModifiedFaults(TrimmedModified(m))))
  }

  /**
   * A save is refused exactly when some validator fails, and the error then
   * names every path that failed.
   */
  lemma SaveModifiedReports(m: Modified)
    ensures SaveModified(m).Ok? <==> ModifiedFaults(TrimmedModified(m)) == []
    ensures SaveModified(m).Err? ==> var faults := ModifiedFaults(TrimmedModified(m));
      SaveModified(m).error == ValidationMessage(faults)
      && forall k :: 0 <= k < |faults| ==> Text.Contains(SaveModified(m).error, faults[k].path)
  {
    TrimmedChecksIffValid(m);
  }

  /** Once the setters have run, only the required and enumeration checks can fail. */
  lemma TrimmedChecksIffValid(m: Modified)
    ensures ValidModified(TrimmedModified(m)) <==> PassesChecks(TrimmedModified(m))
  {
    SettersSettle(m);
    ChecksDecideValid(m);
  }

  /**
   * What the setters leave settled: trimming the trimmed strings again
   * changes nothing, and every trimmed set is valid exactly when its parts
   * are present.
   */
  predicate SettledParts(m: Modified) {
    Text.Trim(Text.Trim(m.name)) == Text.Trim(m.name)
    && (m.description.Some? ==> Text.Trim(Text.Trim(m.description.value)) == Text.Trim(m.description.value))
    && (m.currentImageSet.Some? ==>
          (ValidImageSet(TrimmedSet(m.currentImageSet.value)) <==> SetPresent(TrimmedSet(m.currentImageSet.value))))
    && (var r := TrimmedSets(m.imageSets); forall k :: 0 <= k < |r| ==> (ValidImageSet(r[k]) <==> SetPresent(r[k])))
  }

  /** The setters settle every placement. */
  lemma SettersSettle(m: Modified)
    ensures SettledParts(m)
  {
    Text.TrimIdempotent(m.name);
    DescriptionSettles(m.description);
    CurrentSetSettles(m.currentImageSet);
    TrimmedSetsSettled(m.imageSets);
  }

  /** A trimmed description trims to itself. */
  lemma DescriptionSettles(d: Option<string>)
    ensures d.Some? ==> Text.Trim(Text.Trim(d.value)) == Text.Trim(d.value)
  {
    if d.Some? {
      Text.TrimIdempotent(d.value);
    }
  }

  /** A trimmed current set is valid exactly when its parts are present. */
  lemma CurrentSetSettles(c: Option<ImageSet>)
    ensures c.Some? ==> (ValidImageSet(TrimmedSet(c.value)) <==> SetPresent(TrimmedSet(c.value)))
  {
    if c.Some? {
      TrimmedSetIdempotent(c.value);
    }
  }

  /** After the setters, a set of the list is valid exactly when its three parts are present. */
  lemma TrimmedSetsSettled(sets: seq<ImageSet>)
    ensures var r := TrimmedSets(sets);
      forall k :: 0 <= k < |r| ==> (ValidImageSet(r[k]) <==> SetPresent(r[k]))
  {
    var r := TrimmedSets(sets);
    forall k | 0 <= k < |r| ensures ValidImageSet(r[k]) <==> SetPresent(r[k]) {
      TrimmedSetIdempotent(sets[k]);
    }
  }

  /** When the setters leave every string settled, the schema accepts the result exactly when every check passes. */
  lemma ChecksDecideValid(m: Modified)
    requires SettledParts(m)
    ensures ValidModified(TrimmedModified(m)) <==> PassesChecks(TrimmedModified(m))
  {
  }

  /** The setters leave a set's parts trimmed, so only the required checks can fail. */
  lemma TrimmedSetIdempotent(s: ImageSet)
    ensures ValidImageSet(TrimmedSet(s)) <==> SetPresent(TrimmedSet(s))
  {
    Text.TrimIdempotent(s.name);
    Text.TrimIdempotent(s.color);
    Text.TrimIdempotent(s.src);
    SettledSetIff(TrimmedSet(s));
  }

  /** A set whose parts are already trimmed is valid exactly when they are present. */
  lemma SettledSetIff(s: ImageSet)
    requires Text.Trim(s.name) == s.name && Text.Trim(s.color) == s.color && Text.Trim(s.src) == s.src
    ensures ValidImageSet(s) <==> SetPresent(s)
  {
  }

  /** The function enumeration's values have no surrounding white space. */
  lemma TrimOfTrimmedFunction(f: string)
    requires f in ITEM_FUNCTIONS
    ensures Text.Trim(f) == f
  {
    Text.TrimOfTrimmed(f);
  }

  /** The setters change nothing on a set list the schema accepts. */
  lemma ValidSetsStayTrimmed(sets: seq<ImageSet>)
    requires ValidSets(sets)
    ensures TrimmedSets(sets) == sets
  {
    forall k | 0 <= k < |sets| ensures TrimmedSets(sets)[k] == sets[k] {
      assert ValidImageSet(sets[k]);
    }
  }

  /** The setters change nothing on a placement the schema accepts. */
  lemma ValidStaysTrimmed(m: Modified)
    requires ValidModified(m)
    ensures TrimmedModified(m) == m
  {
    assert TrimmedSet(m.currentImageSet.value) == m.currentImageSet.value;
    ValidSetsStayTrimmed(m.imageSets);
    TrimOfTrimmedFunction(m.itemFunction.value);
  }

  /** Of a placement the schema accepts, the current set, the sets and the placement kind raise no fault. */
  lemma ValidRestFaultless(m: Modified)
    requires ValidModified(m)
    ensures SetFaults("currentImageSet", m.currentImageSet.value) == []
    ensures SetsFaults(m.imageSets, 0) == []
    ensures EnumFault("onType", m.onType, OBJECT_ON_TYPES) == []
  {
    forall k | 0 <= k < |m.imageSets| ensures SetPresent(m.imageSets[k]) {
      assert ValidImageSet(m.imageSets[k]);
    }
  }

  /**
   * Clearing the function of a placement the schema accepts makes the save
   * fail on `itemFunction` alone.
   */
  lemma ClearedFunctionRefused(m: Modified)
    requires ValidModified(m)
    ensures SaveModified(m.(itemFunction := None)) == Err(ValidationMessage([Missing("itemFunction", "itemFunction")]))
  {
    ClearedFunctionKept(m);
    ClearedFunctionFaults(m);
    SaveModifiedReports(m.(itemFunction := None));
  }

  /** The setters leave a cleared-function copy of an accepted placement as it is. */
  lemma ClearedFunctionKept(m: Modified)
    requires ValidModified(m)
    ensures TrimmedModified(m.(itemFunction := None)) == m.(itemFunction := None)
  {
    ValidStaysTrimmed(m);
  }

  /** The cleared function is the only fault of such a copy. */
  lemma ClearedFunctionFaults(m: Modified)
    requires ValidModified(m)
    ensures ModifiedFaults(m.(itemFunction := None)) == [Missing("itemFunction", "itemFunction")]
  {
    ValidRestFaultless(m);
  }

  /**
   * Emptying the name of a placement the schema accepts (a blank name trims
   * to empty) makes the save fail on `name` alone.
   */
  lemma EmptyNameRefused(m: Modified)
    requires ValidModified(m)
    ensures SaveModified(m.(name := [])) == Err(ValidationMessage([Missing("name", "name")]))
  {
    EmptyNameKept(m);
    EmptyNameFaults(m);
    SaveModifiedReports(m.(name := []));
  }

  /** The setters leave an emptied-name copy of an accepted placement as it is. */
  lemma EmptyNameKept(m: Modified)
    requires ValidModified(m)
    ensures TrimmedModified(m.(name := [])) == m.(name := [])
  {
    ValidStaysTrimmed(m);
    assert Text.Trim([]) == [];
  }

  /** The empty name is the only fault of such a copy. */
  lemma EmptyNameFaults(m: Modified)
    requires ValidModified(m)
    ensures ModifiedFaults(m.(name := [])) == [Missing("name", "name")]
  {
    ValidRestFaultless(m);
    OnlyNameFaults(m.(name := []));
  }

  /** A placement whose other paths raise no fault fails at most on its name. */
  lemma OnlyNameFaults(t: Modified)
    requires t.currentImageSet.Some? && SetFaults("currentImageSet", t.currentImageSet.value) == []
    requires SetsFaults(t.imageSets, 0) == []
    requires EnumFault("onType", t.onType, OBJECT_ON_TYPES) == []
    requires t.itemFunction.Some? && t.itemFunction.value in ITEM_FUNCTIONS
    ensures ModifiedFaults(t) == RequiredFault("name", "name", t.name)
  {
  }

  /** Every set of a list is valid. */
  predicate ValidSets(sets: seq<ImageSet>) {
    forall k :: 0 <= k < |sets| ==> ValidImageSet(sets[k])
  }

  /** No set of a list has a blank part. */
  predicate FilledSets(sets: seq<ImageSet>) {
    forall k :: 0 <= k < |sets| ==> FilledSet(sets[k])
  }

  /** Every set of a list with the setters applied. */
  function TrimmedSets(sets: seq<ImageSet>): (r: seq<ImageSet>)
    ensures |r| == |sets| && forall k :: 0 <= k < |sets| ==> r[k] == TrimmedSet(sets[k])
  {
    seq(|sets|, i requires 0 <= i < |sets| => TrimmedSet(sets[i]))
  }

  /** Every set of a list survives the setters exactly when no set has a blank part. */
  lemma TrimmedListValid(sets: seq<ImageSet>)
    ensures ValidSets(TrimmedSets(sets)) <==> FilledSets(sets)
  {
    var r := TrimmedSets(sets);
    forall k | 0 <= k < |sets|
      ensures ValidImageSet(r[k]) <==> FilledSet(sets[k])
    {
      TrimmedSetValid(sets[k]);
    }
  }

  /**
   * Saving a placement succeeds exactly when the name and every part of the
   * current set and of every set hold something other than white space, the
   * current set is present, the placement kind is in the enumeration, and the
   * trimmed `itemFunction` is present and one of its enumeration's.
   */
  lemma SaveModifiedAcceptsIff(m: Modified)
    ensures SaveModified(m).Ok? <==>
      !Text.IsBlank(m.name) && m.currentImageSet.Some? && FilledSet(m.currentImageSet.value)
      && FilledSets(m.imageSets)
      && m.onType in OBJECT_ON_TYPES
      && m.itemFunction.Some? && Text.Trim(m.itemFunction.value) in ITEM_FUNCTIONS
  {
    var t := TrimmedModified(m);
    assert Required(t.name) && Text.Trim(t.name) == t.name <==> !Text.IsBlank(m.name) by {
      TrimmedNameValid(m.name);
    }
    assert t.description.Some? ==> Text.Trim(t.description.value) == t.description.value by {
      if m.description.Some? {
        Text.TrimIdempotent(m.description.value);
      }
    }
    assert (t.currentImageSet.Some? && ValidImageSet(t.currentImageSet.value))
       <==> (m.currentImageSet.Some? && FilledSet(m.currentImageSet.value)) by {
      if m.currentImageSet.Some? {
        TrimmedSetValid(m.currentImageSet.value);
      }
    }
    TrimmedListValid(m.imageSets);
    assert t.onType == m.onType;
    assert (t.itemFunction.Some? && t.itemFunction.value in ITEM_FUNCTIONS)
       <==> (m.itemFunction.Some? && Text.Trim(m.itemFunction.value) in ITEM_FUNCTIONS);
  }

  /** The user schema: name, email and password present, a complete theme with a known weather. */
  predicate ValidUser(u: User) {
    u.name.Some? && Required(u.name.value) && Required(u.email) && Required(u.password)
    && "floorColor" in u.theme && Required(u.theme["floorColor"])
    && "wallColor" in u.theme && Required(u.theme["wallColor"])
    && "weather" in u.theme && u.theme["weather"] in WEATHERS
    && (u.invitation.Some? ==> Text.Trim(u.invitation.value) == u.invitation.value)
  }

  /** A new user document as the schema defaults complete it: both id lists empty. */
  function NewUser(name: Option<string>, email: string, password: string, theme: map<string, string>, now: nat): (u: User)
    ensures u.objectIds == [] && u.modifiedObjectIds == []
    ensures u.name == name && u.email == email && u.password == password && u.theme == theme
    ensures u.invitation.None? && u.aiAnalysis.None? && u.createdAt == now
  {
    User(name, email, password, theme, None, None, [], [], None, None, now)
  }

  /** The theme every account starts with. */
  const DEFAULT_THEME: map<string, string> :=
    map["floorColor" := "#ffffff", "wallColor" := "#ffffff", "weather" := "sunny"]

  /** A fresh account with the default theme satisfies the user schema whenever its name, email and password are present. */
  lemma NewUserValid(name: string, email: string, password: string, now: nat)
    requires name != "" && email != "" && password != ""
    ensures ValidUser(NewUser(Some(name), email, password, DEFAULT_THEME, now))
  {
  }

  /** Without a name, a fresh account breaks the user schema. */
  lemma NewUserWithoutNameInvalid(email: string, password: string, theme: map<string, string>, now: nat)
    ensures !ValidUser(NewUser(None, email, password, theme, now))
  {
  }
}

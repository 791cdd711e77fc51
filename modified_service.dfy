/**
 * Placed ("modified") objects and their ownership: a placed object belongs to
 * the user whose `modifiedObjectIds` list holds its key. Each operation is
 * given twice: as a function from one database state to an outcome, where the
 * properties are proved, and as a method that performs the same steps on the
 * database in place and is proved to agree with that function.
 */
module ModifiedService {
  import opened Wrappers
  import opened Json
  import opened Text
  import opened Models
  import opened Store

  const ORIGINAL_NOT_FOUND := "Original object not found"
  const ORIGINAL_HAS_NO_SETS := "Original object has no imageSets"
  const NOT_FOUND := "Modified object not found"
  const FORBIDDEN := "Forbidden"
  const FORBIDDEN_UPDATE := FORBIDDEN + ": You don't have permission to update this object"
  const FORBIDDEN_DELETE := FORBIDDEN + ": You don't have permission to delete this object"
  const SETS_IMMUTABLE := "imageSets cannot be updated. Please create a new modified object instead."
  const USER_NOT_FOUND := "User not found"

  /**
   * What a caller supplies to create a placement. `None` is an undefined
   * property; for `itemFunction` it also stands for `null`.
   */
  datatype CreateParams = CreateParams(
    name: string,
    imageSrc: Option<string>,
    itemFunction: Option<string>,
    coordinates: Coords,
    originalObjectId: Option<string>,
    description: Option<string>,
    isReversed: Option<bool>,
    additionalData: Option<Json>)

  /**
   * What a caller supplies to change a placement; `None` leaves the field
   * alone. `Some(None)` is an explicit `null` for description and itemFunction.
   */
  datatype UpdateParams = UpdateParams(
    name: Option<string>,
    description: Option<Option<string>>,
    itemFunction: Option<Option<string>>,
    additionalData: Option<Json>,
    coordinates: Option<Coords>,
    imageSrc: Option<string>,
    imageSets: Option<Json>,
    isReversed: Option<bool>)

  /**
   * The placement built from a catalog object and the caller's parameters.
   * `imageSrc` and `isReversed` are passed to the model constructor, which in
   * strict mode drops them: the schema declares neither.
   */
  function NewModified(original: ImageObject, p: CreateParams, now: nat): (m: Modified)
    ensures m.name == Trim(p.name) && m.coordinates == p.coordinates
    ensures m.description.Some? <==> p.description.Some?
    ensures p.description.Some? ==> m.description.value == Trim(p.description.value)
    ensures m.itemFunction == p.itemFunction
    ensures m.additionalData == if p.additionalData.None? || p.additionalData == Some(JNull) then JObj(map[]) else p.additionalData.value
    ensures m.isUserMade == original.isUserMade && m.onType == original.onType
    ensures m.imageSets == original.imageSets && m.currentImageSet.None?
    ensures m.createdAt == now
  {
    Modified(
      name := Trim(p.name),
      description := if p.description.Some? then Some(Trim(p.description.value)) else None,
      currentImageSet := None,
      imageSets := seq(|original.imageSets|, i requires 0 <= i < |original.imageSets| =>
        ImageSet(original.imageSets[i].name, original.imageSets[i].color, original.imageSets[i].src)),
      isUserMade := original.isUserMade,
      onType := original.onType,
      itemFunction := p.itemFunction,
      coordinates := p.coordinates,
      additionalData := if p.additionalData.Some? && p.additionalData.value != JNull then p.additionalData.value else JObj(map[]),
      createdAt := now)
  }

  /** Appends a placement key to a user's list. */
  function PushModified(id: Id): User -> User {
    (u: User) => u.(modifiedObjectIds := u.modifiedObjectIds + [id])
  }

  /** Pulls every occurrence of a placement key from a user's list. */
  function PullModified(id: Id): User -> User {
    (u: User) => u.(modifiedObjectIds := Remove(u.modifiedObjectIds, id))
  }

  /** The check that fails a creation before anything is written, if one does. */
  function CreateRejection(cast: string -> Option<Id>, s: State, p: CreateParams): (e: Option<string>)
    ensures FindObject(cast, s, p.originalObjectId) == Ok(None) ==> e == Some(ORIGINAL_NOT_FOUND)
    ensures e.None? <==> (FindObject(cast, s, p.originalObjectId).Ok?
                          && FindObject(cast, s, p.originalObjectId).value.Some?
                          && |FindObject(cast, s, p.originalObjectId).value.value.1.imageSets| > 0)
  {
    match FindObject(cast, s, p.originalObjectId)
    case Err(msg) => Some(msg)
    case Ok(None) => Some(ORIGINAL_NOT_FOUND)
    case Ok(Some((_, original))) => if |original.imageSets| == 0 then Some(ORIGINAL_HAS_NO_SETS) else None
  }

  /**
   * `createModified`: look the catalog object up, refuse a missing one or one
   * without image sets, save the placement under a fresh key, then push the
   * key onto the caller's list.
   */
  function Create(cast: string -> Option<Id>, s: State, p: CreateParams, userId: string): (o: Outcome<(Id, Modified)>)
    ensures CreateRejection(cast, s, p).Some? ==> o == Outcome(Err(CreateRejection(cast, s, p).value), s)
    ensures o.result.Ok? ==> o.result.value.0 == s.nextId
    ensures o.result.Ok? && ValidState(s) ==> o.result.value.0 !in s.modified
    ensures o.result.Ok? ==> o.state.modified == s.modified[s.nextId := o.result.value.1] && o.state.objects == s.objects
    ensures o.result.Ok? ==> o.state.users.Keys == s.users.Keys
    ensures o.result.Ok? ==> forall k :: k in s.users && Some(k) != cast(userId) ==> o.state.users[k] == s.users[k]
    ensures o.result.Ok? ==> forall k :: k in s.users && Some(k) == cast(userId) ==>
      o.state.users[k] == s.users[k].(modifiedObjectIds := s.users[k].modifiedObjectIds + [s.nextId])
    ensures o.result.Ok? <==> CreateRejection(cast, s, p).None? && cast(userId).Some?
    ensures o.result.Err? ==> o.state.users == s.users && o.state.objects == s.objects
    ensures o.result.Err? && cast(userId).Some? ==> o.state == s
  {
    match CreateRejection(cast, s, p)
    case Some(msg) => Outcome(Err(msg), s)
    case None =>
      var original := FindObject(cast, s, p.originalObjectId).value.value.1;
      var id := s.nextId;
      var record := NewModified(original, p, s.clock);
      var saved := Tick(s).(modified := s.modified[id := record]);
      match UpdateUser(cast, saved, userId, PushModified(id))
      case Err(msg) => Outcome(Err(msg), saved)
      case Ok(t) => Outcome(Ok((id, record)), t)
  }

  /** Creation keeps keys below the counter, timestamps in the past and every listed key handed out. */
  lemma CreatePreservesValid(cast: string -> Option<Id>, s: State, p: CreateParams, userId: string)
    requires ValidState(s)
    ensures ValidState(Create(cast, s, p, userId).state)
  {
    if CreateRejection(cast, s, p).None? {
      var original := FindObject(cast, s, p.originalObjectId).value.value.1;
      var id := s.nextId;
      var saved := Tick(s).(modified := s.modified[id := NewModified(original, p, s.clock)]);
      assert ValidState(saved) by {
        forall k | k in saved.users ensures ListsBelow(saved.users[k], saved.nextId) {
          assert ListsBelow(s.users[k], s.nextId);
        }
      }
      var r := UpdateUser(cast, saved, userId, PushModified(id));
      if r.Ok? {
        UpdateUserKeepsValid(cast, saved, userId, PushModified(id));
      }
    }
  }

  /** The created placement copies the catalog object's image sets one for one, in order. */
  lemma CreateCopiesImageSets(cast: string -> Option<Id>, s: State, p: CreateParams, userId: string)
    requires Create(cast, s, p, userId).result.Ok?
    ensures var original := FindObject(cast, s, p.originalObjectId).value.value.1;
      var m := Create(cast, s, p, userId).result.value.1;
      |m.imageSets| == |original.imageSets| > 0
      && (forall i :: 0 <= i < |m.imageSets| ==>
            m.imageSets[i].name == original.imageSets[i].name
            && m.imageSets[i].color == original.imageSets[i].color
            && m.imageSets[i].src == original.imageSets[i].src)
  {
  }

  /**
   * `createModified` as written: the record it builds is saved through the
   * placed-object schema, which requires a current image set the record never
   * gets (and an `itemFunction`, which `null` does not give).
   */
  function CreateAsWritten(cast: string -> Option<Id>, s: State, p: CreateParams, userId: string): (o: Outcome<(Id, Modified)>)
  {
    match CreateRejection(cast, s, p)
    case Some(msg) => Outcome(Err(msg), s)
    case None =>
      var original := FindObject(cast, s, p.originalObjectId).value.value.1;
      match SaveModified(NewModified(original, p, s.clock))
      case Err(msg) => Outcome(Err(msg), s)
      case Ok(record) =>
        var id := s.nextId;
        var saved := Tick(s).(modified := s.modified[id := record]);
        match UpdateUser(cast, saved, userId, PushModified(id))
        case Err(msg) => Outcome(Err(msg), saved)
        case Ok(t) => Outcome(Ok((id, record)), t)
  }

  /**
   * As written, no placement is ever created and nothing is stored: where the
   * lookups pass, the save refuses the record for its missing current set.
   */
  lemma CreateAsWrittenNeverCreates(cast: string -> Option<Id>, s: State, p: CreateParams, userId: string)
    ensures CreateAsWritten(cast, s, p, userId).result.Err? && CreateAsWritten(cast, s, p, userId).state == s
    ensures CreateRejection(cast, s, p).None? ==> var e := CreateAsWritten(cast, s, p, userId).result.error;
      StartsWith(e, MODIFIED_VALIDATION_FAILED + ": ") && Contains(e, "currentImageSet")
  {
    if CreateRejection(cast, s, p).None? {
      var original := FindObject(cast, s, p.originalObjectId).value.value.1;
      var m := NewModified(original, p, s.clock);
      SaveModifiedAcceptsIff(m);
      SaveModifiedReports(m);
      var faults := ModifiedFaults(TrimmedModified(m));
      var k := |RequiredFault("name", "name", TrimmedModified(m).name)|;
      assert faults[k] == Missing("currentImageSet", "currentImageSet");
    }
  }

  /**
   * The fields `updateModified` changes: exactly those given, the name and
   * description trimmed. The `imageSrc` and `isReversed` assignments write
   * paths the schema does not declare, and strict mode drops them.
   */
  function ApplyUpdate(m: Modified, p: UpdateParams): (r: Modified)
    ensures r.name == if p.name.Some? then Trim(p.name.value) else m.name
    ensures r.description == match p.description
      case None => m.description
      case Some(None) => None
      case Some(Some(d)) => Some(Trim(d))
    ensures r.itemFunction == if p.itemFunction.Some? then p.itemFunction.value else m.itemFunction
    ensures r.additionalData == if p.additionalData.Some? then p.additionalData.value else m.additionalData
    ensures r.coordinates == if p.coordinates.Some? then p.coordinates.value else m.coordinates
    ensures r.imageSets == m.imageSets && r.currentImageSet == m.currentImageSet
    ensures r.isUserMade == m.isUserMade && r.onType == m.onType && r.createdAt == m.createdAt
  {
    Modified(
      Pick(TrimmedOpt(p.name), m.name), PickDescription(p.description, m.description),
      m.currentImageSet, m.imageSets, m.isUserMade, m.onType,
      Pick(p.itemFunction, m.itemFunction), Pick(p.coordinates, m.coordinates),
      Pick(p.additionalData, m.additionalData), m.createdAt)
  }

  function Pick<T>(given: Option<T>, current: T): T {
    if given.Some? then given.value else current
  }

  function TrimmedOpt(s: Option<string>): Option<string> {
    if s.Some? then Some(Trim(s.value)) else None
  }

  function PickDescription(given: Option<Option<string>>, current: Option<string>): Option<string> {
    if given.Some? then TrimmedOpt(given.value) else current
  }

  /** An update that names no field leaves the placement as it was. */
  lemma UpdateNothingIsIdentity(m: Modified)
    ensures ApplyUpdate(m, UpdateParams(None, None, None, None, None, None, None, None)) == m
  {
  }

  /** Applying the same update twice changes nothing more than applying it once. */
  lemma UpdateIdempotent(m: Modified, p: UpdateParams)
    ensures ApplyUpdate(ApplyUpdate(m, p), p) == ApplyUpdate(m, p)
  {
    var once := ApplyUpdate(m, p);
    var twice := ApplyUpdate(once, p);
    if p.name.Some? {
      TrimIdempotent(p.name.value);
    }
    assert twice.name == once.name;
    if p.description.Some? && p.description.value.Some? {
      TrimIdempotent(p.description.value.value);
    }
    assert twice.description == once.description;
  }

  /** The first failing check of an update or a deletion, if any; `forbidden` is the operation's own message. */
  function OwnershipRejection(cast: string -> Option<Id>, s: State, raw: string, userId: string, forbidden: string): (e: Option<string>)
    ensures FindModified(cast, s, raw) == Ok(None) ==> e == Some(NOT_FOUND)
    ensures e.None? <==> (FindModified(cast, s, raw).Ok? && FindModified(cast, s, raw).value.Some?
                          && FindUser(cast, s, userId).Ok? && FindUser(cast, s, userId).value.Some?
                          && FindModified(cast, s, raw).value.value.0 in FindUser(cast, s, userId).value.value.1.modifiedObjectIds)
    ensures FindModified(cast, s, raw).Ok? && FindModified(cast, s, raw).value.Some? && FindUser(cast, s, userId).Ok? ==>
      (e.Some? <==> e == Some(forbidden))
  {
    match FindModified(cast, s, raw)
    case Err(msg) => Some(msg)
    case Ok(None) => Some(NOT_FOUND)
    case Ok(Some((k, _))) =>
      match FindUser(cast, s, userId)
      case Err(msg) => Some(msg)
      case Ok(None) => Some(forbidden)
      case Ok(Some((_, u))) => if k in u.modifiedObjectIds then None else Some(forbidden)
  }

  /**
   * `updateModified`: not found, then not owned, then an `imageSets` property
   * are refused in that order; otherwise the given fields are overwritten and
   * the record is saved, which runs the setters and the schema's validators.
   * A refused save throws its validation error and stores nothing.
   */
  function Update(cast: string -> Option<Id>, s: State, raw: string, p: UpdateParams, userId: string): (o: Outcome<Modified>)
    ensures o.result.Err? ==> o.state == s
    ensures OwnershipRejection(cast, s, raw, userId, FORBIDDEN_UPDATE).Some? ==>
      o.result == Err(OwnershipRejection(cast, s, raw, userId, FORBIDDEN_UPDATE).value)
    ensures OwnershipRejection(cast, s, raw, userId, FORBIDDEN_UPDATE).None? && p.imageSets.Some? ==> o.result == Err(SETS_IMMUTABLE)
    ensures OwnershipRejection(cast, s, raw, userId, FORBIDDEN_UPDATE).None? && p.imageSets.None? ==>
      var k := cast(raw).value;
      k in s.modified && o.result == SaveModified(ApplyUpdate(s.modified[k], p))
    ensures o.result.Ok? ==> var k := cast(raw).value;
      k in s.modified && ValidModified(o.result.value) && o.state == s.(modified := s.modified[k := o.result.value])
  {
    match OwnershipRejection(cast, s, raw, userId, FORBIDDEN_UPDATE)
    case Some(msg) => Outcome(Err(msg), s)
    case None =>
      if p.imageSets.Some? then Outcome(Err(SETS_IMMUTABLE), s)
      else
        var k := cast(raw).value;
        match SaveModified(ApplyUpdate(s.modified[k], p))
        case Err(msg) => Outcome(Err(msg), s)
        case Ok(m) => Outcome(Ok(m), s.(modified := s.modified[k := m]))
  }

  /**
   * An update of a stored placement that satisfies the schema is saved
   * exactly when it leaves a name that is not blank and names no function or
   * one of the enumeration's; the assignments of `imageSrc` and `isReversed`
   * make no difference.
   */
  lemma UpdateOfValidSaves(m: Modified, p: UpdateParams)
    requires ValidModified(m)
    ensures SaveModified(ApplyUpdate(m, p)).Ok? <==>
      (p.name.None? || !IsBlank(p.name.value))
      && (p.itemFunction.None? || (p.itemFunction.value.Some? && Trim(p.itemFunction.value.value) in ITEM_FUNCTIONS))
    ensures ApplyUpdate(m, p.(imageSrc := None, isReversed := None)) == ApplyUpdate(m, p)
  {
    UpdatedFields(m, p);
    SaveModifiedAcceptsIff(ApplyUpdate(m, p));
  }

  /** What an update leaves of a valid placement, in the terms the save checks. */
  lemma UpdatedFields(m: Modified, p: UpdateParams)
    requires ValidModified(m)
    ensures var r := ApplyUpdate(m, p);
      (!IsBlank(r.name) <==> p.name.None? || !IsBlank(p.name.value))
      && r.currentImageSet.Some? && FilledSet(r.currentImageSet.value) && FilledSets(r.imageSets)
      && r.onType in OBJECT_ON_TYPES
      && (r.itemFunction.Some? && Trim(r.itemFunction.value) in ITEM_FUNCTIONS <==>
          p.itemFunction.None? || (p.itemFunction.value.Some? && Trim(p.itemFunction.value.value) in ITEM_FUNCTIONS))
  {
    var r := ApplyUpdate(m, p);
    assert !IsBlank(r.name) <==> p.name.None? || !IsBlank(p.name.value) by {
      if p.name.Some? {
        TrimIdempotent(p.name.value);
      } else {
        ValidNotBlank(m.name);
      }
    }
    ValidSetFilled(m.currentImageSet.value);
    forall k | 0 <= k < |m.imageSets| ensures FilledSet(m.imageSets[k]) {
      ValidSetFilled(m.imageSets[k]);
    }
    if p.itemFunction.None? {
      TrimOfTrimmedFunction(m.itemFunction.value);
    }
  }

  /** A present, trimmed string is not blank. */
  lemma ValidNotBlank(n: string)
    requires Required(n) && Trim(n) == n
    ensures !IsBlank(n)
  {
  }

  /** A set the schema accepts has no blank part. */
  lemma ValidSetFilled(s: ImageSet)
    requires ValidImageSet(s)
    ensures FilledSet(s)
  {
    ValidNotBlank(s.name);
    ValidNotBlank(s.color);
    ValidNotBlank(s.src);
  }

  /**
   * `deleteModified`: the same not-found-then-not-owned checks; then the key
   * is pulled from the caller's list and the placement is deleted.
   */
  function Delete(cast: string -> Option<Id>, s: State, raw: string, userId: string): (o: Outcome<()>)
    ensures OwnershipRejection(cast, s, raw, userId, FORBIDDEN_DELETE).Some? ==>
      o == Outcome(Err(OwnershipRejection(cast, s, raw, userId, FORBIDDEN_DELETE).value), s)
    ensures o.result.Ok? <==> OwnershipRejection(cast, s, raw, userId, FORBIDDEN_DELETE).None?
    ensures o.result.Ok? ==> var k := cast(raw).value; var u := cast(userId).value;
      k !in o.state.modified && o.state.modified == s.modified - {k}
      && u in o.state.users && k !in o.state.users[u].modifiedObjectIds
      && o.state.users[u] == s.users[u].(modifiedObjectIds := Remove(s.users[u].modifiedObjectIds, k))
      && (forall v :: v in s.users && v != u ==> v in o.state.users && o.state.users[v] == s.users[v])
      && o.state.users.Keys == s.users.Keys && o.state.objects == s.objects
  {
    match OwnershipRejection(cast, s, raw, userId, FORBIDDEN_DELETE)
    case Some(msg) => Outcome(Err(msg), s)
    case None =>
      var k := cast(raw).value;
      var u := cast(userId).value;
      var pulled := s.(users := s.users[u := PullModified(k)(s.users[u])]);
      Outcome(Ok(()), pulled.(modified := pulled.modified - {k}))
  }

  /** Updating a placement keeps the state valid. */
  lemma UpdatePreservesValid(cast: string -> Option<Id>, s: State, raw: string, p: UpdateParams, userId: string)
    requires ValidState(s)
    ensures ValidState(Update(cast, s, raw, p, userId).state)
  {
    var o := Update(cast, s, raw, p, userId);
    if o.result.Ok? {
      var k := cast(raw).value;
      ReplaceKeepsValid(s, k, o.result.value);
    }
  }

  /** Replacing a record by one with the same creation time keeps the state valid. */
  lemma ReplaceKeepsValid(s: State, k: Id, m: Modified)
    requires ValidState(s) && k in s.modified && m.createdAt == s.modified[k].createdAt
    ensures ValidState(s.(modified := s.modified[k := m]))
  {
  }

  /** Deleting a placement keeps the state valid. */
  lemma DeletePreservesValid(cast: string -> Option<Id>, s: State, raw: string, userId: string)
    requires ValidState(s)
    ensures ValidState(Delete(cast, s, raw, userId).state)
  {
    var o := Delete(cast, s, raw, userId);
    if o.result.Ok? {
      var u := cast(userId).value;
      forall v | v in o.state.users ensures v < o.state.nextId && ListsBelow(o.state.users[v], o.state.nextId) {
        assert v in s.users;
        assert ListsBelow(s.users[v], s.nextId);
      }
    }
  }

  /**
   * Creating a placement and then deleting it as the same user gives back the
   * collections and the user's list as they were; only the id counter and the
   * clock have moved on.
   */
  lemma CreateThenDelete(cast: string -> Option<Id>, s: State, p: CreateParams, userId: string, raw: string)
    requires ValidState(s)
    requires Create(cast, s, p, userId).result.Ok?
    requires cast(userId).Some? && cast(userId).value in s.users
    requires cast(raw) == Some(s.nextId)
    ensures Delete(cast, Create(cast, s, p, userId).state, raw, userId) == Outcome(Ok(()), Tick(s))
  {
    CreatedState(cast, s, p, userId);
    DeleteUndoesInsert(cast, s, Create(cast, s, p, userId).result.value.1, raw, userId);
  }

  /** Deleting a freshly inserted, freshly listed placement restores the previous collections. */
  lemma DeleteUndoesInsert(cast: string -> Option<Id>, s: State, record: Modified, raw: string, userId: string)
    requires ValidState(s)
    requires cast(userId).Some? && cast(userId).value in s.users
    requires cast(raw) == Some(s.nextId)
    ensures var u := cast(userId).value;
      Delete(cast, Tick(s).(modified := s.modified[s.nextId := record],
                            users := s.users[u := s.users[u].(modifiedObjectIds := s.users[u].modifiedObjectIds + [s.nextId])]),
             raw, userId) == Outcome(Ok(()), Tick(s))
  {
    var u := cast(userId).value;
    var k := s.nextId;
    var before := s.users[u].modifiedObjectIds;
    assert k !in before by {
      assert ListsBelow(s.users[u], s.nextId);
    }
    var pushed := s.users[u].(modifiedObjectIds := before + [k]);
    var t := Tick(s).(modified := s.modified[k := record], users := s.users[u := pushed]);
    DeleteOwned(cast, t, raw, userId);
    RemoveAppended(before, k);
    assert pushed.(modifiedObjectIds := Remove(pushed.modifiedObjectIds, k)) == s.users[u];
    UpdateUndone(s.users, u, pushed);
    InsertUndone(s.modified, k, record);
  }

  /** Writing a key back to its old value undoes an update. */
  lemma UpdateUndone(m: map<Id, User>, k: Id, v: User)
    requires k in m
    ensures m[k := v][k := m[k]] == m
  {
  }

  /** Removing a key that was fresh undoes its insertion. */
  lemma InsertUndone(m: map<Id, Modified>, k: Id, v: Modified)
    requires k !in m
    ensures m[k := v] - {k} == m
  {
  }

  /** A successful creation by a known user adds one record and one list entry, and ticks the counters. */
  lemma CreatedState(cast: string -> Option<Id>, s: State, p: CreateParams, userId: string)
    requires Create(cast, s, p, userId).result.Ok?
    requires cast(userId).Some? && cast(userId).value in s.users
    ensures var c := Create(cast, s, p, userId); var u := cast(userId).value;
      c.state == Tick(s).(modified := s.modified[s.nextId := c.result.value.1],
                          users := s.users[u := s.users[u].(modifiedObjectIds := s.users[u].modifiedObjectIds + [s.nextId])])
  {
    var c := Create(cast, s, p, userId);
    var u := cast(userId).value;
    assert c.state.users == s.users[u := s.users[u].(modifiedObjectIds := s.users[u].modifiedObjectIds + [s.nextId])];
  }

  /** Deleting an owned placement removes exactly its record and its key from the owner's list. */
  lemma DeleteOwned(cast: string -> Option<Id>, t: State, raw: string, userId: string)
    requires cast(raw).Some? && cast(raw).value in t.modified
    requires cast(userId).Some? && cast(userId).value in t.users
    requires cast(raw).value in t.users[cast(userId).value].modifiedObjectIds
    ensures var k := cast(raw).value; var u := cast(userId).value;
      Delete(cast, t, raw, userId) == Outcome(Ok(()),
        t.(modified := t.modified - {k}, users := t.users[u := t.users[u].(modifiedObjectIds := Remove(t.users[u].modifiedObjectIds, k))]))
  {
  }

  /** A deleted placement can no longer be updated: the update reports it missing. */
  lemma DeleteThenUpdateNotFound(cast: string -> Option<Id>, s: State, raw: string, userId: string, p: UpdateParams)
    requires Delete(cast, s, raw, userId).result.Ok?
    ensures Update(cast, Delete(cast, s, raw, userId).state, raw, p, userId).result == Err(NOT_FOUND)
  {
  }

  /** `createModified` on the database in place. */
  method CreateModified(db: Db, p: CreateParams, userId: string) returns (r: Result<(Id, Modified)>)
    requires db.Valid()
    modifies db
    ensures db.Valid()
    ensures Create(db.cast, old(db.Snapshot()), p, userId) == Outcome(r, db.Snapshot())
  {
    var rejection := CreateRejection(db.cast, db.Snapshot(), p);
    if rejection.Some? {
      return Err(rejection.value);
    }
    ghost var s0 := db.Snapshot();
    CreatePreservesValid(db.cast, s0, p, userId);
    var original := FindObject(db.cast, db.Snapshot(), p.originalObjectId).value.value.1;
    var id, now := db.Fresh();
    var record := NewModified(original, p, now);
    db.modified := db.modified[id := record];
    ghost var saved := db.Snapshot();
    assert saved == Tick(s0).(modified := s0.modified[id := record]);
    var owner := db.cast(userId);
    if owner.None? {
      return Err(CastErrorMessage(userId, USER_MODEL));
    }
    if owner.value in db.users {
      db.users := db.users[owner.value := PushModified(id)(db.users[owner.value])];
    }
    assert UpdateUser(db.cast, saved, userId, PushModified(id)) == Ok(db.Snapshot());
    r := Ok((id, record));
  }

  /** `updateModified` on the database in place. */
  method UpdateModified(db: Db, raw: string, p: UpdateParams, userId: string) returns (r: Result<Modified>)
    requires db.Valid()
    modifies db
    ensures db.Valid()
    ensures Update(db.cast, old(db.Snapshot()), raw, p, userId) == Outcome(r, db.Snapshot())
  {
    ghost var s0 := db.Snapshot();
    UpdatePreservesValid(db.cast, s0, raw, p, userId);
    var rejection := OwnershipRejection(db.cast, db.Snapshot(), raw, userId, FORBIDDEN_UPDATE);
    if rejection.Some? {
      return Err(rejection.value);
    }
    if p.imageSets.Some? {
      return Err(SETS_IMMUTABLE);
    }
    var k := db.cast(raw).value;
    var m := OverwriteGiven(db.modified[k], p);
    r := SaveModified(m);
    StoreSaved(db, k, r);
  }

  /** Writes the outcome of a `save()` of the record under `k`: a refused save stores nothing. */
  method StoreSaved(db: Db, k: Id, r: Result<Modified>)
    modifies db
    ensures r.Err? ==> db.Snapshot() == old(db.Snapshot())
    ensures r.Ok? ==> db.Snapshot() == old(db.Snapshot()).(modified := old(db.modified)[k := r.value])
  {
    if r.Ok? {
      db.modified := db.modified[k := r.value];
    }
  }

  /**
   * Overwrites, one after the other, the fields an update names. The
   * `imageSrc` and `isReversed` assignments change nothing: strict mode drops
   * them.
   */
  method OverwriteGiven(m0: Modified, p: UpdateParams) returns (m: Modified)
    ensures m == ApplyUpdate(m0, p)
  {
    var name, description, itemFunction := m0.name, m0.description, m0.itemFunction;
    var additionalData, coordinates := m0.additionalData, m0.coordinates;
    if p.name.Some? {
      name := Trim(p.name.value);
    }
    if p.description.Some? {
      description := if p.description.value.Some? then Some(Trim(p.description.value.value)) else None;
    }
    if p.itemFunction.Some? {
      itemFunction := p.itemFunction.value;
    }
    if p.additionalData.Some? {
      additionalData := p.additionalData.value;
    }
    if p.coordinates.Some? {
      coordinates := p.coordinates.value;
    }
    m := m0.(name := name, description := description, itemFunction := itemFunction, additionalData := additionalData,
             coordinates := coordinates);
  }

  /** `deleteModified` on the database in place. */
  method DeleteModified(db: Db, raw: string, userId: string) returns (r: Result<()>)
    requires db.Valid()
    modifies db
    ensures db.Valid()
    ensures Delete(db.cast, old(db.Snapshot()), raw, userId) == Outcome(r, db.Snapshot())
  {
    var rejection := OwnershipRejection(db.cast, db.Snapshot(), raw, userId, FORBIDDEN_DELETE);
    if rejection.Some? {
      return Err(rejection.value);
    }
    var k := db.cast(raw).value;
    var u := db.cast(userId).value;
    db.users := db.users[u := PullModified(k)(db.users[u])];
    db.modified := db.modified - {k};
    r := Ok(());
  }

  function CreatedAtOfModified(m: Modified): nat {
    m.createdAt
  }

  function KeepAll(m: Modified): bool {
    true
  }

  /**
   * `getAllModified`: the caller's placements, each once, newest first; an
   * unknown caller is an error and an empty list gives no placements.
   */
  method GetAllModified(db: Db, userId: string) returns (r: Result<seq<(Id, Modified)>>)
    ensures r.Err? <==> FindUser(db.cast, db.Snapshot(), userId).Err? || FindUser(db.cast, db.Snapshot(), userId) == Ok(None)
    ensures FindUser(db.cast, db.Snapshot(), userId) == Ok(None) ==> r == Err(USER_NOT_FOUND)
    ensures r.Ok? ==> NewestFirst(r.value, CreatedAtOfModified) && DistinctKeys(r.value)
    ensures r.Ok? ==> var u := db.users[db.cast(userId).value];
      forall k, m :: (k, m) in r.value <==> k in u.modifiedObjectIds && k in db.modified && m == db.modified[k]
  {
    var found := FindUser(db.cast, db.Snapshot(), userId);
    if found.Err? {
      return Err(found.error);
    }
    if found.value.None? {
      return Err(USER_NOT_FOUND);
    }
    var u := found.value.value.1;
    if |u.modifiedObjectIds| == 0 {
      return Ok([]);
    }
    var wanted := set k | k in u.modifiedObjectIds;
    var list := CollectNewestFirst(db.modified, wanted, KeepAll, CreatedAtOfModified);
    r := Ok(list);
  }
}

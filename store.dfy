/**
 * The database the services work on: the three collections, a source of fresh
 * document ids and a clock for `createdAt`. Each operation is sequential; the
 * interleaving of concurrent requests is not represented.
 */
module Store {
  import opened Wrappers
  import opened Models

  /** The collection names Mongoose reports in cast errors. */
  const IMAGE_OBJECT_MODEL := "ImageObject"
  const MODIFIED_MODEL := "ModifiedObject"
  const USER_MODEL := "User"

  /** The message of the error `findById` throws for an id that is not an ObjectId. */
  function CastErrorMessage(raw: string, model: string): (msg: string)
    ensures |msg| > |raw| + |model|
  {
    "Cast to ObjectId failed for value \"" + raw + "\" (type string) at path \"_id\" for model \"" + model + "\""
  }

  /** The contents of the database at one moment. */
  datatype State = State(
    objects: map<Id, ImageObject>,
    modified: map<Id, Modified>,
    users: map<Id, User>,
    nextId: Id,
    clock: nat)

  /** Every key was handed out before `nextId`, and every stored timestamp lies in the past. */
  predicate ValidState(s: State) {
    (forall k :: k in s.objects ==> k < s.nextId && s.objects[k].createdAt < s.clock)
    && (forall k :: k in s.modified ==> k < s.nextId && s.modified[k].createdAt < s.clock)
    && (forall k :: k in s.users ==> k < s.nextId && ListsBelow(s.users[k], s.nextId))
  }

  /** Both id lists of a user hold only keys handed out before `bound`. */
  predicate ListsBelow(u: User, bound: Id) {
    (forall x :: x in u.objectIds ==> x < bound) && (forall x :: x in u.modifiedObjectIds ==> x < bound)
  }

  /** What an operation returns, together with the state it leaves behind. */
  datatype Outcome<T> = Outcome(result: Result<T>, state: State)

  /** The state after a fresh key and the current time have been handed out. */
  function Tick(s: State): (t: State)
    ensures t.nextId == s.nextId + 1 && t.clock == s.clock + 1
    ensures t.objects == s.objects && t.modified == s.modified && t.users == s.users
    ensures ValidState(s) ==> ValidState(t) && s.nextId !in t.objects && s.nextId !in t.modified && s.nextId !in t.users
  {
    s.(nextId := s.nextId + 1, clock := s.clock + 1)
  }

  class Db {
    /** How a textual id becomes a document key; `None` when it is not an ObjectId. */
    const cast: string -> Option<Id>

    var objects: map<Id, ImageObject>
    var modified: map<Id, Modified>
    var users: map<Id, User>
    var nextId: Id
    var clock: nat

    function Snapshot(): State
      reads this
    {
      State(objects, modified, users, nextId, clock)
    }

    predicate Valid()
      reads this
    {
      ValidState(Snapshot())
    }

    constructor(cast: string -> Option<Id>)
      ensures Valid()
      ensures this.cast == cast
      ensures objects == map[] && modified == map[] && users == map[]
    {
      this.cast := cast;
      objects := map[];
      modified := map[];
      users := map[];
      nextId := 0;
      clock := 0;
    }

    /** A key no stored document has, and the current time; both counters advance. */
    method Fresh() returns (id: Id, now: nat)
      modifies this
      ensures Snapshot() == Tick(old(Snapshot()))
      ensures id == old(nextId) && now == old(clock)
    {
      id := nextId;
      now := clock;
      nextId := nextId + 1;
      clock := clock + 1;
    }
  }

  /** `Model.findById(raw)`: a cast error, no document (also for an undefined id), or the key and the document. */
  function FindObject(cast: string -> Option<Id>, s: State, raw: Option<string>): (r: Result<Option<(Id, ImageObject)>>)
    ensures r.Ok? && r.value.Some? ==> r.value.value.0 in s.objects && s.objects[r.value.value.0] == r.value.value.1
    ensures r.Err? <==> raw.Some? && cast(raw.value).None?
    ensures r == Ok(None) <==> raw.None? || (cast(raw.value).Some? && cast(raw.value).value !in s.objects)
  {
    if raw.None? then Ok(None)
    else match cast(raw.value)
      case None => Err(CastErrorMessage(raw.value, IMAGE_OBJECT_MODEL))
      case Some(k) => Ok(if k in s.objects then Some((k, s.objects[k])) else None)
  }

  function FindModified(cast: string -> Option<Id>, s: State, raw: string): (r: Result<Option<(Id, Modified)>>)
    ensures r.Ok? && r.value.Some? ==> r.value.value.0 in s.modified && s.modified[r.value.value.0] == r.value.value.1
    ensures r.Err? <==> cast(raw).None?
    ensures r == Ok(None) <==> cast(raw).Some? && cast(raw).value !in s.modified
  {
    match cast(raw)
    case None => Err(CastErrorMessage(raw, MODIFIED_MODEL))
    case Some(k) => Ok(if k in s.modified then Some((k, s.modified[k])) else None)
  }

  function FindUser(cast: string -> Option<Id>, s: State, raw: string): (r: Result<Option<(Id, User)>>)
    ensures r.Ok? && r.value.Some? ==> r.value.value.0 in s.users && s.users[r.value.value.0] == r.value.value.1
    ensures r.Err? <==> cast(raw).None?
    ensures r == Ok(None) <==> cast(raw).Some? && cast(raw).value !in s.users
  {
    match cast(raw)
    case None => Err(CastErrorMessage(raw, USER_MODEL))
    case Some(k) => Ok(if k in s.users then Some((k, s.users[k])) else None)
  }

  /** `User.findByIdAndUpdate(raw, f)`: a cast error, or the state with `f` applied to the user if there is one. */
  function UpdateUser(cast: string -> Option<Id>, s: State, raw: string, f: User -> User): (r: Result<State>)
    ensures r.Err? <==> cast(raw).None?
    ensures r.Ok? ==> r.value.objects == s.objects && r.value.modified == s.modified
    ensures r.Ok? ==> r.value.nextId == s.nextId && r.value.clock == s.clock && r.value.users.Keys == s.users.Keys
    ensures r.Ok? ==> forall k :: k in s.users && Some(k) != cast(raw) ==> r.value.users[k] == s.users[k]
    ensures r.Ok? ==> forall k :: k in s.users && Some(k) == cast(raw) ==> r.value.users[k] == f(s.users[k])
  {
    match cast(raw)
    case None => Err(CastErrorMessage(raw, USER_MODEL))
    case Some(k) => Ok(if k in s.users then s.(users := s.users[k := f(s.users[k])]) else s)
  }


  /** Applying to one user a change that keeps its lists below the counter keeps the state valid. */
  lemma UpdateUserKeepsValid(cast: string -> Option<Id>, s: State, raw: string, f: User -> User)
    requires ValidState(s)
    requires UpdateUser(cast, s, raw, f).Ok?
    requires cast(raw).value in s.users ==> ListsBelow(f(s.users[cast(raw).value]), s.nextId)
    ensures ValidState(UpdateUser(cast, s, raw, f).value)
  {
    var t := UpdateUser(cast, s, raw, f).value;
    forall k | k in t.users ensures k < t.nextId && ListsBelow(t.users[k], t.nextId) {
      assert k in s.users;
    }
  }

  /** Keys in descending order of a timestamp. */
  predicate NewestFirst<T>(xs: seq<(Id, T)>, key: T -> nat) {
    forall i, j :: 0 <= i < j < |xs| ==> key(xs[i].1) >= key(xs[j].1)
  }

  /** No key appears twice. */
  predicate DistinctKeys<T>(xs: seq<(Id, T)>) {
    forall i, j :: 0 <= i < j < |xs| ==> xs[i].0 != xs[j].0
  }

  /** Puts `x` before the first element that is not newer than it. */
  function InsertNewestFirst<T(!new)>(xs: seq<(Id, T)>, x: (Id, T), key: T -> nat): (r: seq<(Id, T)>)
    ensures |r| == |xs| + 1
    ensures forall e :: e in r <==> e in xs || e == x
  {
    if |xs| == 0 then [x]
    else if key(x.1) >= key(xs[0].1) then [x] + xs
    else
      assert forall e :: e in xs ==> e == xs[0] || e in xs[1..];
      [xs[0]] + InsertNewestFirst(xs[1..], x, key)
  }

  /** Inserting keeps a newest-first list newest first. */
  lemma {:induction false} InsertKeepsOrder<T(!new)>(xs: seq<(Id, T)>, x: (Id, T), key: T -> nat)
    requires NewestFirst(xs, key)
    ensures NewestFirst(InsertNewestFirst(xs, x, key), key)
  {
    if |xs| > 0 && key(x.1) < key(xs[0].1) {
      var rest := InsertNewestFirst(xs[1..], x, key);
      InsertKeepsOrder(xs[1..], x, key);
      assert forall e :: e in rest ==> e in xs[1..] || e == x;
      forall j | 0 < j < |rest| + 1
        ensures key(xs[0].1) >= key(([xs[0]] + rest)[j].1)
      {
        assert ([xs[0]] + rest)[j] == rest[j - 1];
        assert rest[j - 1] in rest;
      }
    }
  }

  /** Inserting a pair whose key is new keeps keys distinct. */
  lemma {:induction false} InsertKeepsDistinct<T(!new)>(xs: seq<(Id, T)>, x: (Id, T), key: T -> nat)
    requires DistinctKeys(xs)
    requires forall e :: e in xs ==> e.0 != x.0
    ensures DistinctKeys(InsertNewestFirst(xs, x, key))
  {
    if |xs| > 0 && key(x.1) < key(xs[0].1) {
      var rest := InsertNewestFirst(xs[1..], x, key);
      InsertKeepsDistinct(xs[1..], x, key);
      assert forall e :: e in rest ==> e in xs[1..] || e == x;
      forall j | 0 < j < |rest| + 1
        ensures xs[0].0 != ([xs[0]] + rest)[j].0
      {
        assert ([xs[0]] + rest)[j] == rest[j - 1];
        assert rest[j - 1] in rest;
      }
    }
  }

  /**
   * `find({_id: {$in: wanted}}).sort({createdAt: -1})` over one collection,
   * restricted to the documents `keep` accepts: every matching document once,
   * newest first.
   */
  method CollectNewestFirst<T(!new)>(docs: map<Id, T>, wanted: set<Id>, keep: T -> bool, key: T -> nat)
    returns (r: seq<(Id, T)>)
    ensures NewestFirst(r, key) && DistinctKeys(r)
    ensures forall k, d :: (k, d) in r <==> k in wanted && k in docs && d == docs[k] && keep(d)
  {
    r := [];
    var todo := wanted;
    while todo != {}
      invariant todo <= wanted
      invariant NewestFirst(r, key) && DistinctKeys(r)
      invariant forall k, d :: (k, d) in r <==> k in wanted - todo && k in docs && d == docs[k] && keep(d)
      decreases |todo|
    {
      var k :| k in todo;
      if k in docs && keep(docs[k]) {
        InsertKeepsOrder(r, (k, docs[k]), key);
        InsertKeepsDistinct(r, (k, docs[k]), key);
        r := InsertNewestFirst(r, (k, docs[k]), key);
      }
      todo := todo - {k};
    }
  }

  /** `xs.filter(x => x !== v)`, the effect of `$pull` on a list: every occurrence goes. */
  function Remove(xs: seq<Id>, v: Id): (r: seq<Id>)
    ensures v !in r
    ensures forall x :: x in r <==> x in xs && x != v
    ensures |r| <= |xs|
  {
    if |xs| == 0 then []
    else if xs[0] == v then Remove(xs[1..], v)
    else [xs[0]] + Remove(xs[1..], v)
  }

  /** Removing a value that is absent leaves the list as it was. */
  lemma {:induction false} RemoveAbsent(xs: seq<Id>, v: Id)
    requires v !in xs
    ensures Remove(xs, v) == xs
  {
    if |xs| > 0 {
      assert v !in xs[1..];
      RemoveAbsent(xs[1..], v);
      assert [xs[0]] + xs[1..] == xs;
    }
  }

  /** Appending a value and then pulling it gives back the list, when the value was new. */
  lemma {:induction false} RemoveAppended(xs: seq<Id>, v: Id)
    requires v !in xs
    ensures Remove(xs + [v], v) == xs
  {
    if |xs| == 0 {
      assert [v][1..] == [];
    } else {
      assert (xs + [v])[1..] == xs[1..] + [v];
      RemoveAppended(xs[1..], v);
      assert [xs[0]] + xs[1..] == xs;
    }
  }
}

/**
 * The image sets of a multipart `POST /object/basic` request, as the handler
 * assembles them: from a parsed `imageSets` array or from flat
 * `imageSets[N][name]` / `imageSets[N][color]` fields, with the files attached
 * by their field name `imageSets[N][file]`, ordered by `N`, then checked one
 * by one.
 */
module ObjectForm {
  import opened Wrappers
  import opened Json
  import opened Text
  import ObjectService

  const SET_KEY_PREFIX := "imageSets["

  // ---------------------------------------------------------------- field names

  /**
   * The index `N` of a field name `imageSets[N][<field>]`, the whole name
   * matching: `N` is one or more ASCII digits, read as a decimal number (so
   * leading zeros are allowed).
   */
  function SetKeyIndex(key: string, field: string): Option<nat> {
    if !StartsWith(key, SET_KEY_PREFIX) then None
    else
      var rest := key[|SET_KEY_PREFIX|..];
      var d := DigitPrefix(rest);
      if |d| > 0 && rest[|d|..] == "][" + field + "]" then Some(DigitsValue(d)) else None
  }

  /** The rendered field name of set `n`. */
  function SetKey(n: nat, field: string): string {
    SET_KEY_PREFIX + NatToString(n) + "][" + field + "]"
  }

  /** The digits stop where a non-digit follows them. */
  lemma {:induction false} DigitPrefixUpTo(d: string, t: string)
    requires forall i :: 0 <= i < |d| ==> IsDigit(d[i])
    requires |t| > 0 && !IsDigit(t[0])
    ensures DigitPrefix(d + t) == d
  {
    if |d| > 0 {
      assert (d + t)[1..] == d[1..] + t;
      DigitPrefixUpTo(d[1..], t);
      assert [d[0]] + d[1..] == d;
    } else {
      assert d + t == t;
    }
  }

  /** Every rendered field name reads back as its own index. */
  lemma SetKeyIndexOfSetKey(n: nat, field: string)
    ensures SetKeyIndex(SetKey(n, field), field) == Some(n)
  {
    var key := SetKey(n, field);
    var digits := NatToString(n);
    var tail := "][" + field + "]";
    assert key == SET_KEY_PREFIX + (digits + tail);
    assert key[..|SET_KEY_PREFIX|] == SET_KEY_PREFIX;
    var rest := key[|SET_KEY_PREFIX|..];
    assert rest == digits + tail;
    assert tail[0] == ']';
    DigitPrefixUpTo(digits, tail);
    assert rest[|digits|..] == tail;
    DigitsValueOfNatToString(n);
  }

  /**
   * A field name is accepted only in the shape `imageSets[<digits>][<field>]`,
   * and its index is the value of those digits.
   */
  lemma SetKeyIndexShape(key: string, field: string)
    requires SetKeyIndex(key, field).Some?
    ensures var d := DigitPrefix(key[|SET_KEY_PREFIX|..]);
      |d| > 0 && key == SET_KEY_PREFIX + d + "][" + field + "]" && SetKeyIndex(key, field).value == DigitsValue(d)
  {
    var rest := key[|SET_KEY_PREFIX|..];
    var d := DigitPrefix(rest);
    var tail := "][" + field + "]";
    assert rest == d + rest[|d|..];
    assert rest[|d|..] == tail;
    assert StartsWith(key, SET_KEY_PREFIX);
    PrefixThenRest(key, SET_KEY_PREFIX);
    assert SET_KEY_PREFIX + d + tail == SET_KEY_PREFIX + (d + tail);
  }

  /** A string that starts with `prefix` is that prefix followed by the rest. */
  lemma PrefixThenRest(key: string, prefix: string)
    requires StartsWith(key, prefix)
    ensures key == prefix + key[|prefix|..]
  {
    assert key == key[..|prefix|] + key[|prefix|..];
  }

  // ---------------------------------------------------------------- assembly

  /** One image set as the handler collects it: name, colour and the file, if one came. */
  datatype SetInput = SetInput(name: Json, color: Json, file: Option<ObjectService.UploadFile>)

  /** A set first met through another of its fields starts with empty name and colour and no file. */
  const EMPTY_INPUT := SetInput(JStr(""), JStr(""), None)

  /** An element of a parsed `imageSets` array that is kept: an object whose name and colour are strings. */
  function ArrayEntry(v: Json): (r: Option<SetInput>)
    ensures r.Some? <==> v.JObj? && "name" in v.fields && "color" in v.fields
                         && v.fields["name"].JStr? && v.fields["color"].JStr?
    ensures r.Some? ==> r.value == SetInput(v.fields["name"], v.fields["color"], None)
  {
    if v.JObj? && "name" in v.fields && "color" in v.fields && v.fields["name"].JStr? && v.fields["color"].JStr?
    then Some(SetInput(v.fields["name"], v.fields["color"], None))
    else None
  }

  /** The sets gathered from a parsed array, element by element in order: kept elements at their own index. */
  function ArraySets(items: seq<Json>): map<nat, SetInput>
    decreases |items|
  {
    if |items| == 0 then map[]
    else
      var m := ArraySets(items[..|items| - 1]);
      var e := ArrayEntry(items[|items| - 1]);
      if e.Some? then m[|items| - 1 := e.value] else m
  }

  /** Index `n` holds a set exactly when element `n` is kept, and then holds that element's name and colour. */
  lemma {:induction false} ArraySetsAt(items: seq<Json>, n: nat)
    ensures n in ArraySets(items) <==> n < |items| && ArrayEntry(items[n]).Some?
    ensures n in ArraySets(items) ==> ArraySets(items)[n] == ArrayEntry(items[n]).value
    decreases |items|
  {
    if |items| > 0 {
      var prefix := items[..|items| - 1];
      ArraySetsAt(prefix, n);
      if n < |prefix| {
        assert prefix[n] == items[n];
      }
    }
  }

  /** A flat field `imageSets[N][name]` or `imageSets[N][color]`: the index and which field it is. */
  function MetaKey(key: string): Option<(nat, string)> {
    if SetKeyIndex(key, "name").Some? then Some((SetKeyIndex(key, "name").value, "name"))
    else if SetKeyIndex(key, "color").Some? then Some((SetKeyIndex(key, "color").value, "color"))
    else None
  }

  /** One flat field applied: its set is created empty if needed, then the field is overwritten. */
  function FlatStep(body: map<string, Json>, m: map<nat, SetInput>, key: string): map<nat, SetInput> {
    if key in body && MetaKey(key).Some? then
      var (n, field) := MetaKey(key).value;
      var e := if n in m then m[n] else EMPTY_INPUT;
      m[n := if field == "name" then e.(name := body[key]) else e.(color := body[key])]
    else m
  }

  /** The sets gathered from the body's fields, visited in the order `Object.keys` lists them. */
  function FlatSets(body: map<string, Json>, order: seq<string>): map<nat, SetInput>
    decreases |order|
  {
    if |order| == 0 then map[] else FlatStep(body, FlatSets(body, order[..|order| - 1]), order[|order| - 1])
  }

  /** The value of the last listed field that names field `field` of set `n`, if any does. */
  function LastField(body: map<string, Json>, order: seq<string>, n: nat, field: string): (r: Option<Json>)
    ensures r.Some? ==> exists j :: 0 <= j < |order| && order[j] in body && MetaKey(order[j]) == Some((n, field))
                                    && r.value == body[order[j]]
    decreases |order|
  {
    if |order| == 0 then None
    else
      var key := order[|order| - 1];
      if key in body && MetaKey(key) == Some((n, field)) then Some(body[key])
      else
        var r := LastField(body, order[..|order| - 1], n, field);
        if r.Some? then
          var j :| 0 <= j < |order| - 1 && order[..|order| - 1][j] in body && MetaKey(order[..|order| - 1][j]) == Some((n, field))
                   && r.value == body[order[..|order| - 1][j]];
          assert order[j] == order[..|order| - 1][j];
          r
        else r
  }

  /** A value that may be missing, with the empty string in its place. */
  function OrEmpty(v: Option<Json>): Json {
    if v.Some? then v.value else JStr("")
  }

  /**
   * Set `n` exists exactly when some field names it; its name and colour are
   * those of the last field naming each (the empty string when none does),
   * and it has no file yet.
   */
  lemma {:induction false} FlatSetsAt(body: map<string, Json>, order: seq<string>, n: nat)
    ensures n in FlatSets(body, order) <==> LastField(body, order, n, "name").Some? || LastField(body, order, n, "color").Some?
    ensures n in FlatSets(body, order) ==>
      FlatSets(body, order)[n] == SetInput(OrEmpty(LastField(body, order, n, "name")), OrEmpty(LastField(body, order, n, "color")), None)
    decreases |order|
  {
    if |order| > 0 {
      var prefix := order[..|order| - 1];
      var key := order[|order| - 1];
      FlatSetsAt(body, prefix, n);
      var m := FlatSets(body, prefix);
      assert FlatSets(body, order) == FlatStep(body, m, key);
      if key in body && MetaKey(key).Some? {
        var (k, field) := MetaKey(key).value;
        MetaKeyField(key);
        assert "name" != "color";
        if k == n && field == "name" {
          assert LastField(body, order, n, "name") == Some(body[key]);
          assert LastField(body, order, n, "color") == LastField(body, prefix, n, "color");
        } else if k == n {
          assert LastField(body, order, n, "color") == Some(body[key]);
          assert LastField(body, order, n, "name") == LastField(body, prefix, n, "name");
        } else {
          assert LastField(body, order, n, "name") == LastField(body, prefix, n, "name");
          assert LastField(body, order, n, "color") == LastField(body, prefix, n, "color");
        }
      } else {
        assert LastField(body, order, n, "name") == LastField(body, prefix, n, "name");
        assert LastField(body, order, n, "color") == LastField(body, prefix, n, "color");
      }
    }
  }

  /** A flat field is either a name or a colour. */
  lemma MetaKeyField(key: string)
    requires MetaKey(key).Some?
    ensures MetaKey(key).value.1 == "name" || MetaKey(key).value.1 == "color"
  {
  }

  /** One file attached: its set is created empty if needed, then its file is replaced. */
  function AttachStep(m: map<nat, SetInput>, f: ObjectService.UploadFile): map<nat, SetInput> {
    match SetKeyIndex(f.fieldname, "file")
    case None => m
    case Some(n) => m[n := (if n in m then m[n] else EMPTY_INPUT).(file := Some(f))]
  }

  /** The files attached in upload order. */
  function AttachFiles(m: map<nat, SetInput>, files: seq<ObjectService.UploadFile>): map<nat, SetInput>
    decreases |files|
  {
    if |files| == 0 then m else AttachStep(AttachFiles(m, files[..|files| - 1]), files[|files| - 1])
  }

  /** The last file whose field name is `imageSets[n][file]`, if any. */
  function LastFile(files: seq<ObjectService.UploadFile>, n: nat): (r: Option<ObjectService.UploadFile>)
    ensures r.Some? ==> r.value in files && SetKeyIndex(r.value.fieldname, "file") == Some(n)
    decreases |files|
  {
    if |files| == 0 then None
    else if SetKeyIndex(files[|files| - 1].fieldname, "file") == Some(n) then Some(files[|files| - 1])
    else LastFile(files[..|files| - 1], n)
  }

  /**
   * After the files are attached, set `n` exists when it existed before or a
   * file names it; a file naming it replaces its file (the last such file
   * wins) and leaves its name and colour as they were.
   */
  lemma {:induction false} AttachFilesAt(m: map<nat, SetInput>, files: seq<ObjectService.UploadFile>, n: nat)
    ensures n in AttachFiles(m, files) <==> n in m || LastFile(files, n).Some?
    ensures n in AttachFiles(m, files) ==>
      var e := if n in m then m[n] else EMPTY_INPUT;
      AttachFiles(m, files)[n] == if LastFile(files, n).Some? then e.(file := LastFile(files, n)) else e
    decreases |files|
  {
    if |files| > 0 {
      AttachFilesAt(m, files[..|files| - 1], n);
    }
  }

  /** The sets before ordering: from the parsed array when there is one, else from the flat fields; then the files. */
  function Assembled(body: map<string, Json>, order: seq<string>, files: seq<ObjectService.UploadFile>): map<nat, SetInput> {
    var meta := if "imageSets" in body && body["imageSets"].JArr? then ArraySets(body["imageSets"].items) else FlatSets(body, order);
    AttachFiles(meta, files)
  }

  // ---------------------------------------------------------------- ordering

  /** A set of indices that holds `x` has a least element, found by descending from `x`. */
  lemma {:induction false} LeastExists(s: set<nat>, x: nat)
    requires x in s
    ensures exists k :: k in s && forall j :: j in s ==> k <= j
    decreases x
  {
    if exists y :: y in s && y < x {
      var y :| y in s && y < x;
      LeastExists(s, y);
    } else {
      assert forall j :: j in s ==> x <= j;
    }
  }

  /** The entries of `m` by index, ascending: the least index first, then the rest. */
  function SortedEntries(m: map<nat, SetInput>): seq<(nat, SetInput)>
    decreases |m|
  {
    if |m| == 0 then []
    else
      var x :| x in m;
      LeastExists(m.Keys, x);
      var k :| k in m && forall j :: j in m ==> k <= j;
      RemoveShrinks(m, k);
      [(k, m[k])] + SortedEntries(m - {k})
  }

  /** Removing a present index leaves one entry fewer. */
  lemma RemoveShrinks(m: map<nat, SetInput>, k: nat)
    requires k in m
    ensures |m - {k}| == |m| - 1
  {
    assert (m - {k}).Keys == m.Keys - {k};
  }

  /** Indices strictly increase along the list. */
  predicate Ascending(r: seq<(nat, SetInput)>) {
    forall i, j :: 0 <= i < j < |r| ==> r[i].0 < r[j].0
  }

  /** The least index of a non-empty map, the one the ordering puts first. */
  lemma LeastFirst(m: map<nat, SetInput>) returns (k: nat)
    requires |m| > 0
    ensures k in m && forall j :: j in m ==> k <= j
    ensures SortedEntries(m) == [(k, m[k])] + SortedEntries(m - {k})
  {
    var x :| x in m;
    LeastExists(m.Keys, x);
    k :| k in m && forall j :: j in m ==> k <= j;
  }

  /** The ordering lists exactly the entries of the map, each once. */
  lemma {:induction false} SortedEntriesMembers(m: map<nat, SetInput>)
    ensures forall k, v :: (k, v) in SortedEntries(m) <==> k in m && m[k] == v
    ensures forall i :: 0 <= i < |SortedEntries(m)| ==> SortedEntries(m)[i].0 in m
    ensures |SortedEntries(m)| == |m|
    decreases |m|
  {
    if |m| > 0 {
      var k := LeastFirst(m);
      SortedEntriesMembers(m - {k});
    }
  }

  /** An entry below every index of an ascending list keeps it ascending in front. */
  lemma AscendingCons(k: nat, v: SetInput, tail: seq<(nat, SetInput)>)
    requires Ascending(tail)
    requires forall i :: 0 <= i < |tail| ==> k < tail[i].0
    ensures Ascending([(k, v)] + tail)
  {
    var r := [(k, v)] + tail;
    forall i, j | 0 <= i < j < |r|
      ensures r[i].0 < r[j].0
    {
      assert r[j] == tail[j - 1];
      if i > 0 {
        assert r[i] == tail[i - 1];
      }
    }
  }

  /** The ordering lists the entries by strictly increasing index. */
  lemma {:induction false} SortedEntriesAscending(m: map<nat, SetInput>)
    ensures Ascending(SortedEntries(m))
    decreases |m|
  {
    if |m| > 0 {
      var k := LeastFirst(m);
      var rest := m - {k};
      SortedEntriesAscending(rest);
      SortedEntriesMembers(rest);
      AscendingCons(k, m[k], SortedEntries(rest));
    }
  }

  /** `Array.from(map.entries()).sort(([a], [b]) => a - b)`. */
  method SortByIndex(m: map<nat, SetInput>) returns (r: seq<(nat, SetInput)>)
    ensures r == SortedEntries(m)
  {
    r := [];
    var rest := m;
    while |rest| > 0
      invariant r + SortedEntries(rest) == SortedEntries(m)
      decreases |rest|
    {
      var x :| x in rest;
      LeastExists(rest.Keys, x);
      var k :| k in rest && forall j :: j in rest ==> k <= j;
      ghost var least := LeastFirst(rest);
      assert k <= least && least <= k;
      assert (r + [(k, rest[k])]) + SortedEntries(rest - {k}) == r + SortedEntries(rest);
      r := r + [(k, rest[k])];
      rest := rest - {k};
    }
  }

  /** `.map(([, set]) => set)`. */
  function Values(entries: seq<(nat, SetInput)>): (r: seq<SetInput>)
    ensures |r| == |entries| && forall i :: 0 <= i < |r| ==> r[i] == entries[i].1
  {
    seq(|entries|, i requires 0 <= i < |entries| => entries[i].1)
  }

  // ---------------------------------------------------------------- checks

  const NAME_AND_COLOR := " must have name and color fields"
  const FILE_REQUIRED := " must have a file"

  /** What a collected set lacks: a truthy name and colour first, then a file. */
  function InputFault(e: SetInput): Option<string> {
    if !Truthy(e.name) || !Truthy(e.color) then Some(NAME_AND_COLOR)
    else if e.file.None? then Some(FILE_REQUIRED)
    else None
  }

  /** The message for the set at position `i` of the ordered list. */
  function InputMessage(i: nat, fault: string): string {
    "imageSets[" + NatToString(i) + "]" + fault
  }

  /** The check loop from position `i` on: the first incomplete set, if any. */
  function InputsRejection(inputs: seq<SetInput>, i: nat): Option<string>
    requires i <= |inputs|
    decreases |inputs| - i
  {
    if i == |inputs| then None
    else if InputFault(inputs[i]).Some? then Some(InputMessage(i, InputFault(inputs[i]).value))
    else InputsRejection(inputs, i + 1)
  }

  /** The first position from `i` on whose set is incomplete, or `|inputs|` when there is none. */
  function FirstIncomplete(inputs: seq<SetInput>, i: nat): (j: nat)
    requires i <= |inputs|
    ensures i <= j <= |inputs|
    ensures forall l :: i <= l < j ==> InputFault(inputs[l]).None?
    ensures j < |inputs| ==> InputFault(inputs[j]).Some?
    decreases |inputs| - i
  {
    if i == |inputs| || InputFault(inputs[i]).Some? then i else FirstIncomplete(inputs, i + 1)
  }

  /**
   * The loop reports the first incomplete set by its position in the ordered
   * list, and passes exactly when every set is complete.
   */
  lemma {:induction false} InputsRejectionFirst(inputs: seq<SetInput>, i: nat)
    requires i <= |inputs|
    ensures var j := FirstIncomplete(inputs, i);
      InputsRejection(inputs, i) == if j == |inputs| then None else Some(InputMessage(j, InputFault(inputs[j]).value))
    ensures InputsRejection(inputs, i).None? <==> forall l :: i <= l < |inputs| ==> InputFault(inputs[l]).None?
    decreases |inputs| - i
  {
    if i < |inputs| && InputFault(inputs[i]).None? {
      InputsRejectionFirst(inputs, i + 1);
    }
  }

  // ---------------------------------------------------------------- the handler's loops

  /** The metadata pass over the array elements, as its `forEach` fills the map. */
  method CollectArray(items: seq<Json>) returns (m: map<nat, SetInput>)
    ensures m == ArraySets(items)
  {
    m := map[];
    var i := 0;
    while i < |items|
      invariant 0 <= i <= |items| && m == ArraySets(items[..i])
    {
      assert items[..i + 1][..i] == items[..i];
      var e := ArrayEntry(items[i]);
      if e.Some? {
        m := m[i := e.value];
      }
      i := i + 1;
    }
    assert items[..|items|] == items;
  }

  /** The metadata pass over the body's keys, in their order. */
  method CollectFlat(body: map<string, Json>, order: seq<string>) returns (m: map<nat, SetInput>)
    ensures m == FlatSets(body, order)
  {
    m := map[];
    var i := 0;
    while i < |order|
      invariant 0 <= i <= |order| && m == FlatSets(body, order[..i])
    {
      assert order[..i + 1][..i] == order[..i];
      var key := order[i];
      if key in body && MetaKey(key).Some? {
        var (n, field) := MetaKey(key).value;
        var e := if n in m then m[n] else EMPTY_INPUT;
        if field == "name" {
          m := m[n := e.(name := body[key])];
        } else {
          m := m[n := e.(color := body[key])];
        }
      }
      i := i + 1;
    }
    assert order[..|order|] == order;
  }

  /** The pass over the uploaded files, attaching each to the set its field names. */
  method AttachIn(meta: map<nat, SetInput>, files: seq<ObjectService.UploadFile>) returns (m: map<nat, SetInput>)
    ensures m == AttachFiles(meta, files)
  {
    m := meta;
    var i := 0;
    while i < |files|
      invariant 0 <= i <= |files| && m == AttachFiles(meta, files[..i])
    {
      assert files[..i + 1][..i] == files[..i];
      var n := SetKeyIndex(files[i].fieldname, "file");
      if n.Some? {
        var e := if n.value in m then m[n.value] else EMPTY_INPUT;
        m := m[n.value := e.(file := Some(files[i]))];
      }
      i := i + 1;
    }
    assert files[..|files|] == files;
  }

  /**
   * The handler's collection of the sets: a map filled from the array
   * elements or from the body's keys, then from the files, then ordered by
   * index.
   */
  method CollectSets(body: map<string, Json>, order: seq<string>, files: seq<ObjectService.UploadFile>)
    returns (inputs: seq<SetInput>)
    ensures inputs == Values(SortedEntries(Assembled(body, order, files)))
  {
    var meta;
    if "imageSets" in body && body["imageSets"].JArr? {
      meta := CollectArray(body["imageSets"].items);
    } else {
      meta := CollectFlat(body, order);
    }
    var m := AttachIn(meta, files);
    var entries := SortByIndex(m);
    inputs := seq(|entries|, j requires 0 <= j < |entries| => entries[j].1);
  }
}

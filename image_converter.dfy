/**
 * Turning generated image data (a URL or base64 text) into bytes and a MIME
 * type. Downloading is the parameter `download`; base64 decoding (section 4
 * of RFC 4648, as `Buffer.from(s, "base64")` performs it) is the parameter
 * `decode`. A data URL follows section 3 of RFC 2397.
 */
module ImageConverter {
  import opened Wrappers
  import opened Text

  type Bytes = seq<int>

  datatype Image = Image(buffer: Bytes, mimeType: string)

  const DEFAULT_MIME := "image/png"
  const DATA := "data:"
  const BASE64 := ";base64"
  const BASE64_COMMA := BASE64 + ","

  /**
   * The lazy `.*?` of a regular expression followed by `pat`: the first
   * position at or after `j` where `pat` occurs, provided no line terminator
   * lies in between (`.` does not match one).
   */
  function LazyUpTo(s: string, j: nat, pat: string): (r: Option<nat>)
    requires j <= |s|
    ensures r.Some? ==> j <= r.value && OccursAt(s, pat, r.value)
    ensures r.Some? ==> forall k :: j <= k < r.value ==> !IsLineTerminator(s[k]) && !OccursAt(s, pat, k)
    decreases |s| - j
  {
    if OccursAt(s, pat, j) then Some(j)
    else if j == |s| || IsLineTerminator(s[j]) then None
    else LazyUpTo(s, j + 1, pat)
  }

  /** The greedy `(.+)` at `j`: the text up to the next line terminator, when it is not empty. */
  function LineFrom(s: string, j: nat): (r: string)
    requires j <= |s|
    ensures j + |r| <= |s| && r == s[j..j + |r|]
    ensures forall k :: 0 <= k < |r| ==> !IsLineTerminator(r[k])
    ensures j + |r| == |s| || IsLineTerminator(s[j + |r|])
    decreases |s| - j
  {
    if j == |s| || IsLineTerminator(s[j]) then ""
    else [s[j]] + LineFrom(s, j + 1)
  }

  /** `/data:(.*?);base64/` tried at `p` and, failing that, at every later position. */
  function MimeMatch(s: string, p: nat): (r: Option<string>)
    requires p <= |s|
    decreases |s| - p
  {
    if OccursAt(s, DATA, p) && LazyUpTo(s, p + 5, BASE64).Some? then
      Some(s[p + 5..LazyUpTo(s, p + 5, BASE64).value])
    else if p == |s| then None
    else MimeMatch(s, p + 1)
  }

  /** `(.*?);base64,(.+)` from `j`: the lazy part grows until a `;base64,` is followed by a non-empty line. */
  function LazyPayload(s: string, j: nat): (r: Option<string>)
    requires j <= |s|
    decreases |s| - j
  {
    if OccursAt(s, BASE64_COMMA, j) && |LineFrom(s, j + 8)| > 0 then Some(LineFrom(s, j + 8))
    else if j == |s| || IsLineTerminator(s[j]) then None
    else LazyPayload(s, j + 1)
  }

  /** `/data:.*?;base64,(.+)/` tried at `p` and every later position. */
  function PayloadMatch(s: string, p: nat): (r: Option<string>)
    requires p <= |s|
    decreases |s| - p
  {
    if OccursAt(s, DATA, p) && LazyPayload(s, p + 5).Some? then LazyPayload(s, p + 5)
    else if p == |s| then None
    else PayloadMatch(s, p + 1)
  }

  /** `ImageConverter.base64ToBuffer`. */
  function Base64ToBuffer(decode: string -> Bytes, s: string): Image {
    if StartsWith(s, DATA) then
      var mime := MimeMatch(s, 0);
      var data := PayloadMatch(s, 0);
      Image(decode(if data.Some? then data.value else s), if mime.Some? then mime.value else DEFAULT_MIME)
    else Image(decode(s), DEFAULT_MIME)
  }

  /** `ImageConverter.toBuffer`: downloads web URLs, decodes everything else. */
  function ToBuffer(download: string -> Result<Image>, decode: string -> Bytes, s: string): (r: Result<Image>)
    ensures StartsWith(s, "http://") || StartsWith(s, "https://") ==> r == download(s)
    ensures !(StartsWith(s, "http://") || StartsWith(s, "https://")) ==> r == Ok(Base64ToBuffer(decode, s))
  {
    if StartsWith(s, "http://") || StartsWith(s, "https://") then download(s) else Ok(Base64ToBuffer(decode, s))
  }

  /** Without a `data:` prefix the whole text is decoded as a PNG. */
  lemma PlainBase64(decode: string -> Bytes, s: string)
    requires !StartsWith(s, DATA)
    ensures Base64ToBuffer(decode, s) == Image(decode(s), DEFAULT_MIME)
  {
  }

  /** A line of text with no `;base64` inside. */
  predicate PlainPart(m: string) {
    (forall k :: 0 <= k < |m| ==> !IsLineTerminator(m[k]))
    && (forall k :: 0 <= k < |m| ==> !OccursAt(m + BASE64, BASE64, k))
  }

  /**
   * `data:<m>;base64,<d>` with a one-line `m` and `d`: the MIME type is `m`
   * and, when `d` is not empty, exactly `d` is decoded.
   */
  lemma DataUrl(decode: string -> Bytes, m: string, d: string)
    requires PlainPart(m) && |d| > 0 && forall k :: 0 <= k < |d| ==> !IsLineTerminator(d[k])
    ensures Base64ToBuffer(decode, DATA + m + BASE64_COMMA + d) == Image(decode(d), m)
  {
    var s := DATA + m + BASE64_COMMA + d;
    assert StartsWith(s, DATA) by { assert s[..5] == DATA; }
    assert OccursAt(s, DATA, 0) by { assert s[0..5] == DATA; }
    var j := 5 + |m|;
    LazyReachesBase64(s, m, d, 5);
    assert s[5..j] == m;
    assert OccursAt(s, BASE64_COMMA, j) by { assert s[j..j + 8] == BASE64_COMMA; }
    LineToEnd(s, j + 8);
    assert s[j + 8..] == d;
    LazyPayloadReaches(s, m, d, 5);
  }

  /** In `data:<m>;base64,<d>`, the lazy search for `;base64` from inside `m` stops right after `m`. */
  lemma {:induction false} LazyReachesBase64(s: string, m: string, d: string, j: nat)
    requires s == DATA + m + BASE64_COMMA + d && PlainPart(m) && 5 <= j <= 5 + |m|
    ensures LazyUpTo(s, j, BASE64) == Some(5 + |m|)
    decreases 5 + |m| - j
  {
    if j == 5 + |m| {
      assert s[j..j + 7] == BASE64;
    } else {
      assert s[5..] == m + BASE64_COMMA + d;
      assert s[j] == s[5..][j - 5] == m[j - 5];
      assert |BASE64| == 7 && BASE64_COMMA[..7] == BASE64;
      assert (m + BASE64_COMMA + d)[..|m| + 7] == m + BASE64;
      assert s[5..5 + |m| + 7] == m + BASE64;
      assert !OccursAt(s, BASE64, j) by {
        assert s[5..5 + |m| + 7][j - 5..j - 5 + 7] == s[j..j + 7];
        assert (m + BASE64)[j - 5..j - 5 + 7] == s[j..j + 7];
        assert !OccursAt(m + BASE64, BASE64, j - 5);
      }
      LazyReachesBase64(s, m, d, j + 1);
    }
  }

  /** In `data:<m>;base64,<d>`, the lazy search for the payload from inside `m` yields `d`. */
  lemma {:induction false} LazyPayloadReaches(s: string, m: string, d: string, j: nat)
    requires s == DATA + m + BASE64_COMMA + d && PlainPart(m) && 5 <= j <= 5 + |m|
    requires |d| > 0 && forall k :: 0 <= k < |d| ==> !IsLineTerminator(d[k])
    ensures LazyPayload(s, j) == Some(d)
    decreases 5 + |m| - j
  {
    var e := 5 + |m|;
    if j == e {
      assert s[j..j + 8] == BASE64_COMMA;
      LineToEnd(s, j + 8);
      assert s[j + 8..] == d;
    } else {
      assert s[5..] == m + BASE64_COMMA + d;
      assert s[j] == s[5..][j - 5] == m[j - 5];
      assert |BASE64| == 7 && BASE64_COMMA[..7] == BASE64;
      assert (m + BASE64_COMMA + d)[..|m| + 7] == m + BASE64;
      assert s[5..5 + |m| + 7] == m + BASE64;
      assert !OccursAt(s, BASE64, j) by {
        assert s[5..5 + |m| + 7][j - 5..j - 5 + 7] == s[j..j + 7];
        assert (m + BASE64)[j - 5..j - 5 + 7] == s[j..j + 7];
        assert !OccursAt(m + BASE64, BASE64, j - 5);
      }
      CommaFollowsBase64(s, j);
      LazyPayloadReaches(s, m, d, j + 1);
    }
  }

  /** `data:<m>;base64,` with nothing after the comma: the payload pattern fails, so the whole text is decoded. */
  lemma DataUrlWithoutPayload(decode: string -> Bytes, m: string)
    requires PlainPart(m)
    ensures Base64ToBuffer(decode, DATA + m + BASE64_COMMA) == Image(decode(DATA + m + BASE64_COMMA), m)
  {
    var s := DATA + m + BASE64_COMMA + "";
    assert s == DATA + m + BASE64_COMMA;
    assert StartsWith(s, DATA) by { assert s[..5] == DATA; }
    assert OccursAt(s, DATA, 0) by { assert s[0..5] == DATA; }
    LazyReachesBase64(s, m, "", 5);
    assert s[5..5 + |m|] == m;
    NoPayloadFrom(s, m, 0);
  }

  /** In `data:<m>;base64,` no start position yields a payload. */
  lemma {:induction false} NoPayloadFrom(s: string, m: string, p: nat)
    requires s == DATA + m + BASE64_COMMA + "" && PlainPart(m) && p <= |s|
    ensures PayloadMatch(s, p).None?
    decreases |s| - p
  {
    if p + 5 <= |s| {
      NoLazyPayload(s, m, p + 5);
    }
    if p < |s| {
      NoPayloadFrom(s, m, p + 1);
    }
  }

  /** In `data:<m>;base64,` the lazy payload search fails from every position after `data:`. */
  lemma {:induction false} NoLazyPayload(s: string, m: string, j: nat)
    requires s == DATA + m + BASE64_COMMA + "" && PlainPart(m) && 5 <= j <= |s|
    ensures LazyPayload(s, j).None?
    decreases |s| - j
  {
    var e := 5 + |m|;
    if j < e {
      assert s[5..] == m + BASE64_COMMA;
      assert |BASE64| == 7 && BASE64_COMMA[..7] == BASE64;
      assert (m + BASE64_COMMA)[..|m| + 7] == m + BASE64;
      assert s[5..5 + |m| + 7] == m + BASE64;
      assert !OccursAt(s, BASE64, j) by {
        assert s[5..5 + |m| + 7][j - 5..j - 5 + 7] == s[j..j + 7];
        assert (m + BASE64)[j - 5..j - 5 + 7] == s[j..j + 7];
        assert !OccursAt(m + BASE64, BASE64, j - 5);
      }
      CommaFollowsBase64(s, j);
    }
    if j == e {
      assert LineFrom(s, j + 8) == "";
    }
    if j < |s| {
      NoLazyPayload(s, m, j + 1);
    }
  }

  /** Where `;base64,` occurs, `;base64` occurs. */
  lemma CommaFollowsBase64(s: string, j: int)
    ensures OccursAt(s, BASE64_COMMA, j) ==> OccursAt(s, BASE64, j)
  {
    if OccursAt(s, BASE64_COMMA, j) {
      assert s[j..j + 7] == s[j..j + 8][..7];
    }
  }

  /** A tail without line terminators is taken whole by `(.+)`. */
  lemma {:induction false} LineToEnd(s: string, j: nat)
    requires j <= |s| && forall k :: j <= k < |s| ==> !IsLineTerminator(s[k])
    ensures LineFrom(s, j) == s[j..]
    decreases |s| - j
  {
    if j < |s| {
      LineToEnd(s, j + 1);
    }
  }
}

/**
 * Extraction of the first JSON object embedded in a text produced by a text
 * generator. `JSON.parse` is the parameter `jsonParse`: it yields the parsed
 * value, or an error carrying its message.
 */
module ResponseParser {
  import opened Wrappers
  import opened Json

  const NO_JSON := "No JSON found in response"
  const PARSE_FAILED := "Failed to parse JSON: "

  /** How one character moves the brace depth. */
  function Step(c: char): int {
    if c == '{' then 1 else if c == '}' then -1 else 0
  }

  /** The brace depth after reading `s`: opening minus closing braces, never clamped at zero. */
  function Depth(s: string): int {
    if |s| == 0 then 0 else Depth(s[..|s| - 1]) + Step(s[|s| - 1])
  }

  /**
   * The last position before `i` holding a '{' read at depth zero, the
   * start of the object that is open at `i`; -1 when there is none.
   */
  function LastZeroOpen(text: string, i: nat): (a: int)
    requires i <= |text|
    ensures -1 <= a < i
    ensures a >= 0 ==> text[a] == '{' && Depth(text[..a]) == 0
  {
    if i == 0 then -1
    else if text[i - 1] == '{' && Depth(text[..i - 1]) == 0 then i - 1
    else LastZeroOpen(text, i - 1)
  }

  /** Position `b` closes an object opened at depth zero. */
  predicate Closes(text: string, b: nat) {
    b < |text| && text[b] == '}' && Depth(text[..b + 1]) == 0
  }

  /**
   * The first candidate, at or after position `b`, that `jsonParse`
   * accepts, as the bounds `(a, e)` of `text[a..e]`.
   */
  function FirstParsed(jsonParse: string -> Result<Json>, text: string, b: nat): (r: Option<(nat, nat)>)
    requires b <= |text|
    ensures r.Some? ==> r.value.0 < r.value.1 <= |text| && b < r.value.1
    decreases |text| - b
  {
    if b == |text| then None
    else if Closes(text, b) && LastZeroOpen(text, b) >= 0
            && jsonParse(text[LastZeroOpen(text, b)..b + 1]).Ok? then
      Some((LastZeroOpen(text, b), b + 1))
    else FirstParsed(jsonParse, text, b + 1)
  }

  /** The one-character extension of a prefix. */
  lemma DepthStep(text: string, i: nat)
    requires i < |text|
    ensures Depth(text[..i + 1]) == Depth(text[..i]) + Step(text[i])
  {
    assert text[..i + 1][..i] == text[..i];
  }

  /**
   * `ResponseParser.extractJSON`: scans left to right, opening a candidate
   * at every '{' read at depth zero and trying it when its '}' brings the
   * depth back to zero; a candidate that does not parse is dropped.
   */
  method ExtractJson(jsonParse: string -> Result<Json>, text: string) returns (r: Option<string>)
    ensures r == (match FirstParsed(jsonParse, text, 0)
                  case None => None
                  case Some(span) => Some(text[span.0..span.1]))
  {
    var depth := 0;
    var startIndex := -1;
    var i := 0;
    while i < |text|
      invariant 0 <= i <= |text|
      invariant depth == Depth(text[..i])
      invariant depth > 0 ==> startIndex == LastZeroOpen(text, i) >= 0
      invariant FirstParsed(jsonParse, text, 0) == FirstParsed(jsonParse, text, i)
    {
      DepthStep(text, i);
      if text[i] == '{' {
        if depth == 0 {
          startIndex := i;
        }
        depth := depth + 1;
      } else if text[i] == '}' {
        depth := depth - 1;
        if depth == 0 && startIndex != -1 {
          var candidate := text[startIndex..i + 1];
          if jsonParse(candidate).Ok? {
            return Some(candidate);
          }
          startIndex := -1;
        }
      }
      i := i + 1;
    }
    return None;
  }

  /** `ResponseParser.parseJSON`: the value of the extracted candidate. */
  function ParsedJson(jsonParse: string -> Result<Json>, text: string): (r: Result<Json>)
  {
    match FirstParsed(jsonParse, text, 0)
    case None => Err(NO_JSON)
    case Some(span) =>
      match jsonParse(text[span.0..span.1])
      case Ok(v) => Ok(v)
      case Err(e) => Err(PARSE_FAILED + e)
  }

  /** `ResponseParser.parseJSON` on top of the scanner. */
  method ParseJson(jsonParse: string -> Result<Json>, text: string) returns (r: Result<Json>)
    ensures r == ParsedJson(jsonParse, text)
  {
    var jsonString := ExtractJson(jsonParse, text);
    if jsonString.None? || jsonString.value == "" {
      return Err(NO_JSON);
    }
    match jsonParse(jsonString.value)
    case Ok(v) => return Ok(v);
    case Err(e) => return Err(PARSE_FAILED + e);
  }

  /**
   * What is returned is a piece of the input that starts with '{', ends with
   * '}', is balanced, opens at depth zero and parses; everything after the
   * first candidate that parses is never looked at.
   */
  lemma {:induction false} ExtractedShape(jsonParse: string -> Result<Json>, text: string, b: nat)
    requires b <= |text|
    requires FirstParsed(jsonParse, text, b).Some?
    ensures var (a, e) := FirstParsed(jsonParse, text, b).value;
      text[a] == '{' && text[e - 1] == '}'
      && Depth(text[..a]) == 0 && Depth(text[..e]) == 0
      && jsonParse(text[a..e]).Ok?
    decreases |text| - b
  {
    if !(Closes(text, b) && LastZeroOpen(text, b) >= 0 && jsonParse(text[LastZeroOpen(text, b)..b + 1]).Ok?) {
      ExtractedShape(jsonParse, text, b + 1);
    }
  }

  /** Wherever the depth is positive, an object opened at depth zero is still open. */
  lemma {:induction false} OpenWhenPositive(text: string, i: nat)
    requires i <= |text|
    requires Depth(text[..i]) > 0
    ensures LastZeroOpen(text, i) >= 0
  {
    if i > 0 {
      DepthStep(text, i - 1);
      if !(text[i - 1] == '{' && Depth(text[..i - 1]) == 0) {
        OpenWhenPositive(text, i - 1);
      }
    }
  }

  /**
   * The first parsed candidate is the earliest: every object that closed
   * before it at depth zero failed to parse.
   */
  lemma {:induction false} EarlierCandidatesFail(jsonParse: string -> Result<Json>, text: string, b: nat, c: nat)
    requires b <= c < |text|
    requires Closes(text, c)
    requires FirstParsed(jsonParse, text, b).Some? && c < FirstParsed(jsonParse, text, b).value.1 - 1
    ensures LastZeroOpen(text, c) >= 0
    ensures jsonParse(text[LastZeroOpen(text, c)..c + 1]).Err?
    decreases c - b
  {
    DepthStep(text, c);
    OpenWhenPositive(text, c);
    if b < c {
      EarlierCandidatesFail(jsonParse, text, b + 1, c);
    }
  }

  /** The scan's answer and the parser's error path agree: no candidate means "No JSON found". */
  lemma ParseFailsOnlyWithoutCandidate(jsonParse: string -> Result<Json>, text: string)
    ensures ParsedJson(jsonParse, text).Err? <==> FirstParsed(jsonParse, text, 0).None?
    ensures ParsedJson(jsonParse, text).Err? ==> ParsedJson(jsonParse, text) == Err(NO_JSON)
  {
    if FirstParsed(jsonParse, text, 0).Some? {
      ExtractedShape(jsonParse, text, 0);
    }
  }

  /**
   * A '}' before the object drives the depth below zero and it never comes
   * back: `} {"a":1}` yields nothing, whatever `JSON.parse` accepts.
   */
  lemma StrayCloserHidesObject(jsonParse: string -> Result<Json>)
    ensures FirstParsed(jsonParse, ['}', ' ', '{', '"', 'a', '"', ':', '1', '}'], 0).None?
  {
    var t := ['}', ' ', '{', '"', 'a', '"', ':', '1', '}'];
    forall i | 0 <= i <= |t|
      ensures Depth(t[..i]) == (if i == 0 then 0 else if i < 3 then -1 else if i < 9 then 0 else -1)
    {
      DepthPrefixes(t, i);
    }
    assert !Closes(t, 8) by { DepthStep(t, 8); }
  }

  /** The depths of the prefixes of the stray-closer example. */
  lemma {:induction false} DepthPrefixes(t: string, i: nat)
    requires t == ['}', ' ', '{', '"', 'a', '"', ':', '1', '}'] && i <= |t|
    ensures Depth(t[..i]) == (if i == 0 then 0 else if i < 3 then -1 else if i < 9 then 0 else -1)
  {
    if i > 0 {
      DepthPrefixes(t, i - 1);
      DepthStep(t, i - 1);
    }
  }

  /**
   * Braces inside string literals count like any other: in `{"}"}` the
   * quoted '}' closes the candidate, so the whole text is never tried.
   */
  lemma QuotedBraceCloses(jsonParse: string -> Result<Json>)
    ensures FirstParsed(jsonParse, ['{', '"', '}', '"', '}'], 0)
         == (if jsonParse(['{', '"', '}']).Ok? then Some((0, 3)) else None)
  {
    var t := ['{', '"', '}', '"', '}'];
    DepthStep(t, 0);
    DepthStep(t, 1);
    DepthStep(t, 2);
    DepthStep(t, 3);
    DepthStep(t, 4);
    assert t[..0] == [];
    assert t[0..3] == ['{', '"', '}'];
  }
}

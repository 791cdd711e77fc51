/**
 * The theme recommendation from five onboarding answers: a prompt for the text
 * generator, the checks on what it returns, the keyword-scoring fallback that
 * replaces any failure, and the table of theme descriptions. The generator,
 * `JSON.parse` and the conversion of text to a number are parameters.
 */
module ThemeAnalysis {
  import opened Wrappers
  import opened Json
  import opened Text
  import ThemeConfig

  /** One onboarding answer. */
  datatype Answer = Answer(question: string, answer: string)

  /** The analysis result: the theme choice and the reason, as the values the caller receives. */
  datatype Verdict = Verdict(choice: Json, reason: Json)

  /** The description of a theme. */
  datatype ThemeInfo = ThemeInfo(name: string, characteristics: seq<string>, description: string)

  const PROMPT_HEADER := "[유저의 응답]\n"
  const BLOCK_SEPARATOR := "\n\n"

  // ---------------------------------------------------------------- the prompt

  /** One numbered question and answer. */
  function Block(n: nat, r: Answer): string {
    "Q" + NatToString(n) + ": " + r.question + "\nA" + NatToString(n) + ": " + r.answer
  }

  /** The blocks of all answers, numbered from 1. */
  function Blocks(rs: seq<Answer>): seq<string> {
    seq(|rs|, i requires 0 <= i < |rs| => Block(i + 1, rs[i]))
  }

  /** `parts.join("\n\n")`. */
  function JoinBlocks(parts: seq<string>): string
    decreases |parts|
  {
    if |parts| == 0 then ""
    else if |parts| == 1 then parts[0]
    else parts[0] + BLOCK_SEPARATOR + JoinBlocks(parts[1..])
  }

  /** The user prompt. */
  function Prompt(rs: seq<Answer>): string {
    PROMPT_HEADER + JoinBlocks(Blocks(rs))
  }

  /** Each part stands in the joined text at some position. */
  lemma {:induction false} PartPosition(parts: seq<string>, i: nat) returns (p: nat)
    requires i < |parts|
    ensures OccursAt(JoinBlocks(parts), parts[i], p)
    decreases |parts|
  {
    var joined := JoinBlocks(parts);
    if |parts| == 1 {
      p := 0;
      assert joined[0..|parts[0]|] == parts[0];
    } else if i == 0 {
      p := 0;
      assert joined[0..|parts[0]|] == parts[0];
    } else {
      var q := PartPosition(parts[1..], i - 1);
      var prefix := parts[0] + BLOCK_SEPARATOR;
      assert joined == prefix + JoinBlocks(parts[1..]);
      p := |prefix| + q;
      assert joined[p..p + |parts[i]|] == JoinBlocks(parts[1..])[q..q + |parts[i]|];
    }
  }

  /** The prompt lists every answer, with its question, under its 1-based number. */
  lemma PromptListsEveryAnswer(rs: seq<Answer>, i: nat)
    requires i < |rs|
    ensures Contains(Prompt(rs), Block(i + 1, rs[i]))
    ensures StartsWith(Prompt(rs), PROMPT_HEADER)
  {
    var blocks := Blocks(rs);
    var q := PartPosition(blocks, i);
    var joined := JoinBlocks(blocks);
    var p := |PROMPT_HEADER| + q;
    assert Prompt(rs)[p..p + |blocks[i]|] == joined[q..q + |blocks[i]|];
    ContainsAt(Prompt(rs), Block(i + 1, rs[i]), p);
    assert Prompt(rs)[..|PROMPT_HEADER|] == PROMPT_HEADER;
  }

  // ---------------------------------------------------------------- the fallback

  /** The keywords of themes 1 to 5, each list in the order the source tests them. */
  const KEYWORD_LISTS: seq<seq<string>> := [
    ["가족", "따뜻", "순수"],
    ["사랑", "감성", "예술"],
    ["성공", "열정", "성장"],
    ["자연", "평화", "단순"],
    ["추억", "기억", "그리움"]]

  /** The keywords of theme `t`. */
  function Keywords(t: int): (words: seq<string>)
    requires IsTheme(t)
    ensures |words| == 3
  {
    KEYWORD_LISTS[t - 1]
  }

  /** The fixed reason of each theme. */
  const REASONS: map<int, string> := map[
    1 := "따뜻한 마음을 간직한 당신에게는, 이 테마가 잘 어울릴 것 같아요.",
    2 := "감성이 풍부한 당신에게는, 이 테마가 잘 어울릴 것 같아요.",
    3 := "열정적이고 진취적인 당신에게는, 이 테마가 잘 어울릴 것 같아요.",
    4 := "평온함을 추구하는 당신에게는, 이 테마가 잘 어울릴 것 같아요.",
    5 := "소중한 추억을 간직한 당신에게는, 이 테마가 잘 어울릴 것 같아요."]

  /** The theme ids, 1 to 5. */
  predicate IsTheme(t: int) {
    1 <= t <= 5
  }

  /** The answers lowered and joined with single spaces. */
  function AllAnswers(rs: seq<Answer>): string {
    Join(seq(|rs|, i requires 0 <= i < |rs| => Lower(rs[i].answer)), ' ')
  }

  /** The text contains one of the three keywords. */
  predicate Mentions(all: string, words: seq<string>)
    requires |words| == 3
  {
    Contains(all, words[0]) || Contains(all, words[1]) || Contains(all, words[2])
  }

  /** What the fallback adds for theme `t`: 2 when one of its keywords occurs, 0 otherwise. */
  function ThemeScore(all: string, t: int): int
    requires IsTheme(t)
  {
    if Mentions(all, Keywords(t)) then 2 else 0
  }

  /** The score table the fallback fills, one entry per theme. */
  function KeywordScores(all: string): (scores: map<int, int>)
    ensures forall t :: IsTheme(t) ==> t in scores && scores[t] == ThemeScore(all, t)
  {
    map[1 := ThemeScore(all, 1), 2 := ThemeScore(all, 2), 3 := ThemeScore(all, 3),
        4 := ThemeScore(all, 4), 5 := ThemeScore(all, 5)]
  }

  /** The fallback's scoring, one theme after the other, adding 2 for each theme whose keywords occur. */
  method ScoreThemes(all: string) returns (scores: map<int, int>)
    ensures scores == KeywordScores(all)
  {
    scores := map[1 := 0, 2 := 0, 3 := 0, 4 := 0, 5 := 0];
    if Mentions(all, Keywords(1)) {
      scores := scores[1 := scores[1] + 2];
    }
    if Mentions(all, Keywords(2)) {
      scores := scores[2 := scores[2] + 2];
    }
    if Mentions(all, Keywords(3)) {
      scores := scores[3 := scores[3] + 2];
    }
    if Mentions(all, Keywords(4)) {
      scores := scores[4 := scores[4] + 2];
    }
    if Mentions(all, Keywords(5)) {
      scores := scores[5 := scores[5] + 2];
    }
  }

  /** A score for every theme. */
  predicate Scored(scores: map<int, int>) {
    forall t :: 1 <= t <= 5 ==> t in scores
  }

  /** The reduction over the entries from `t` on: the running winner gives way unless its score is strictly greater. */
  function Best(scores: map<int, int>, acc: int, t: int): int
    requires Scored(scores) && IsTheme(acc) && 2 <= t <= 6
    decreases 6 - t
  {
    if t > 5 then acc
    else Best(scores, if scores[acc] > scores[t] then acc else t, t + 1)
  }

  /** `Object.entries(themeScores).reduce(...)`: the entries come in key order 1 to 5. */
  function Winner(scores: map<int, int>): int
    requires Scored(scores)
  {
    Best(scores, 1, 2)
  }

  /** The reduction keeps the best score seen, and the latest id among those holding it. */
  lemma {:induction false} BestIsLatestMaximum(scores: map<int, int>, acc: int, t: int)
    requires Scored(scores) && IsTheme(acc) && 2 <= t <= 6 && acc < t
    requires forall u :: 1 <= u < t ==> scores[u] <= scores[acc]
    requires forall u :: acc < u < t ==> scores[u] < scores[acc]
    ensures var w := Best(scores, acc, t);
      IsTheme(w) && (forall u :: IsTheme(u) ==> scores[u] <= scores[w])
      && (forall u :: w < u <= 5 ==> scores[u] < scores[w])
    decreases 6 - t
  {
    if t <= 5 {
      var next := if scores[acc] > scores[t] then acc else t;
      BestIsLatestMaximum(scores, next, t + 1);
    }
  }

  /** The winner has the highest score; every later theme scores strictly less. */
  lemma WinnerIsLatestMaximum(scores: map<int, int>)
    requires Scored(scores)
    ensures var w := Winner(scores);
      IsTheme(w) && (forall u :: IsTheme(u) ==> scores[u] <= scores[w])
      && (forall u :: w < u <= 5 ==> scores[u] < scores[w])
  {
    BestIsLatestMaximum(scores, 1, 2);
  }

  /** The theme the keyword scores pick. */
  function FallbackChoice(rs: seq<Answer>): (t: int)
    ensures IsTheme(t)
  {
    var scores := KeywordScores(AllAnswers(rs));
    WinnerIsLatestMaximum(scores);
    Winner(scores)
  }

  /** The keyword-scoring analysis: a theme number from 1 to 5 and that theme's reason. */
  function Fallback(rs: seq<Answer>): (v: Verdict)
    ensures v.choice.JNum? && 1.0 <= v.choice.n <= 5.0 && v.reason.JStr?
  {
    var t := FallbackChoice(rs);
    Verdict(JNum(t as real), JStr(REASONS[t]))
  }

  /**
   * The fallback picks the theme with the highest id among those whose
   * keywords occur, and theme 5 when none occurs.
   */
  lemma FallbackPicksLatestMentioned(rs: seq<Answer>)
    ensures var all := AllAnswers(rs); var t := FallbackChoice(rs);
      && (Mentions(all, Keywords(t)) || forall u :: IsTheme(u) ==> !Mentions(all, Keywords(u)))
      && (forall u :: t < u <= 5 ==> !Mentions(all, Keywords(u)))
  {
    var all := AllAnswers(rs);
    var scores := KeywordScores(all);
    var t := Winner(scores);
    WinnerIsLatestMaximum(scores);
    if !Mentions(all, Keywords(t)) {
      forall u | IsTheme(u) ensures !Mentions(all, Keywords(u)) {
        assert scores[u] <= scores[t];
      }
    }
    forall u | t < u <= 5 ensures !Mentions(all, Keywords(u)) {
      assert scores[u] < scores[t];
    }
  }

  /** With no keyword anywhere every score is 0 and the tie goes to theme 5. */
  lemma NoKeywordGivesTheme5(rs: seq<Answer>)
    requires forall u :: IsTheme(u) ==> !Mentions(AllAnswers(rs), Keywords(u))
    ensures FallbackChoice(rs) == 5
  {
    var scores := KeywordScores(AllAnswers(rs));
    WinnerIsLatestMaximum(scores);
    var t := Winner(scores);
    assert scores[5] == 0 && scores[t] == 0;
  }

  // ---------------------------------------------------------------- the analysis

  /**
   * JavaScript's conversion of a parsed value to a number, `None` for NaN:
   * `numeric` converts text, `null` is 0 and `true` 1. An array converts
   * through its text, its elements joined by commas: the empty array is 0,
   * two or more elements give a comma and so NaN, and one element gives that
   * element's text, which for a boolean is "true" or "false" (NaN) and for
   * `null` is empty (0). Objects are NaN; an ObjectId never comes out of
   * parsing and is NaN too.
   */
  function ToNumber(numeric: string -> Option<real>, v: Json): (x: Option<real>)
    decreases v
  {
    match v
    case JNum(n) => Some(n)
    case JStr(s) => numeric(s)
    case JBool(b) => Some(if b then 1.0 else 0.0)
    case JNull => Some(0.0)
    case JArr(items) =>
      if items == [] then Some(0.0)
      else if |items| > 1 || items[0].JBool? then None
      else ToNumber(numeric, items[0])
    case _ => None
  }

  /** `choice < 1 || choice > 5`: NaN fails both comparisons. */
  predicate OutOfRange(numeric: string -> Option<real>, v: Json) {
    var x := ToNumber(numeric, v);
    x.Some? && (x.value < 1.0 || x.value > 5.0)
  }

  /**
   * A one-element array compares as its element: `[7]` is above 5 and
   * `[[3]]` within range, while two or more elements never compare, and the
   * empty array and `[null]` are below 1.
   */
  lemma ArrayChoiceCompared(numeric: string -> Option<real>, n: real, items: seq<Json>)
    ensures OutOfRange(numeric, JArr([JNum(n)])) <==> n < 1.0 || n > 5.0
    ensures OutOfRange(numeric, JArr([JArr([JNum(n)])])) <==> n < 1.0 || n > 5.0
    ensures |items| > 1 ==> !OutOfRange(numeric, JArr(items))
    ensures OutOfRange(numeric, JArr([])) && OutOfRange(numeric, JArr([JNull]))
    ensures !OutOfRange(numeric, JArr([JBool(false)]))
  {
    assert ToNumber(numeric, JArr([JNum(n)])) == Some(n) by {
      assert [JNum(n)][0] == JNum(n);
    }
    assert ToNumber(numeric, JArr([JArr([JNum(n)])])) == Some(n) by {
      assert [JArr([JNum(n)])][0] == JArr([JNum(n)]);
    }
  }

  /**
   * `analyzeResponses`: any thrown error (a wrong number of answers, a failed
   * generation, text that does not parse, a missing choice or reason, a choice
   * out of range) gives the fallback's result.
   */
  function AnalyzeResponses(generate: string -> Result<string>, parse: string -> Option<Json>,
                            numeric: string -> Option<real>, rs: seq<Answer>): Verdict
  {
    if |rs| != 5 then Fallback(rs)
    else match generate(Prompt(rs))
      case Err(_) => Fallback(rs)
      case Ok(text) =>
        match parse(text)
        case None => Fallback(rs)
        case Some(v) =>
          var choice, reason := Get(v, "choice"), Get(v, "reason");
          if !TruthyOpt(choice) || !TruthyOpt(reason) || OutOfRange(numeric, choice.value) then Fallback(rs)
          else Verdict(choice.value, reason.value)
  }

  /** A wrong number of answers is not refused: the fallback scores them anyway. */
  lemma WrongCountFallsBack(generate: string -> Result<string>, parse: string -> Option<Json>,
                            numeric: string -> Option<real>, rs: seq<Answer>)
    requires |rs| != 5
    ensures AnalyzeResponses(generate, parse, numeric, rs) == Fallback(rs)
  {
  }

  /**
   * The result is the fallback's, or the generator's own choice and reason,
   * both truthy, the choice not out of range, from five answers.
   */
  lemma AnalysisOutcomes(generate: string -> Result<string>, parse: string -> Option<Json>,
                         numeric: string -> Option<real>, rs: seq<Answer>)
    ensures var v := AnalyzeResponses(generate, parse, numeric, rs);
      v == Fallback(rs)
      || (|rs| == 5 && generate(Prompt(rs)).Ok? && parse(generate(Prompt(rs)).value).Some?
          && var parsed := parse(generate(Prompt(rs)).value).value;
          Get(parsed, "choice") == Some(v.choice) && Get(parsed, "reason") == Some(v.reason)
          && Truthy(v.choice) && Truthy(v.reason) && !OutOfRange(numeric, v.choice))
  {
  }

  /** A numeric choice that survives the checks lies in 1..5. */
  lemma NumericChoiceInRange(generate: string -> Result<string>, parse: string -> Option<Json>,
                             numeric: string -> Option<real>, rs: seq<Answer>)
    requires AnalyzeResponses(generate, parse, numeric, rs).choice.JNum?
    ensures var n := AnalyzeResponses(generate, parse, numeric, rs).choice.n; 1.0 <= n <= 5.0
  {
  }

  /**
   * As written, a choice that is not a number passes the range check: text
   * that does not convert compares false both ways.
   */
  lemma TextChoicePasses(generate: string -> Result<string>, parse: string -> Option<Json>,
                         numeric: string -> Option<real>, rs: seq<Answer>)
    requires |rs| == 5 && generate(Prompt(rs)).Ok?
    requires parse(generate(Prompt(rs)).value) == Some(JObj(map["choice" := JStr("three"), "reason" := JStr("r")]))
    requires numeric("three").None?
    ensures AnalyzeResponses(generate, parse, numeric, rs) == Verdict(JStr("three"), JStr("r"))
  {
    var parsed := JObj(map["choice" := JStr("three"), "reason" := JStr("r")]);
    assert Get(parsed, "choice") == Some(JStr("three"));
    assert Get(parsed, "reason") == Some(JStr("r"));
  }

  /** The analysis as evidently intended: only a number from 1 to 5 is taken from the generator. */
  function CheckedAnalysis(generate: string -> Result<string>, parse: string -> Option<Json>, rs: seq<Answer>): Verdict {
    if |rs| != 5 then Fallback(rs)
    else match generate(Prompt(rs))
      case Err(_) => Fallback(rs)
      case Ok(text) =>
        match parse(text)
        case None => Fallback(rs)
        case Some(v) =>
          var choice, reason := Get(v, "choice"), Get(v, "reason");
          if !TruthyOpt(choice) || !TruthyOpt(reason) || !choice.value.JNum? || choice.value.n < 1.0 || choice.value.n > 5.0
          then Fallback(rs)
          else Verdict(choice.value, reason.value)
  }

  /** The intended analysis always chooses a number from 1 to 5. */
  lemma CheckedChoiceInRange(generate: string -> Result<string>, parse: string -> Option<Json>, rs: seq<Answer>)
    ensures var v := CheckedAnalysis(generate, parse, rs); v.choice.JNum? && 1.0 <= v.choice.n <= 5.0
  {
  }

  // ---------------------------------------------------------------- theme descriptions

  /** `getThemeInfo`: the entry for ids 1 to 5, theme 1's for any other id. */
  function GetThemeInfo(themeId: int): ThemeInfo {
    if themeId == 2 then ThemeInfo("낭만파", ["감성", "예술", "사랑"],
      "감성적이고 예술적인 표현을 통해 사랑과 낭만을 삶의 중요한 가치로 여기는 성향")
    else if themeId == 3 then ThemeInfo("도시파", ["자립심", "열정", "세련됨"],
      "주체적이고 열정적인 태도로 현대적이고 세련된 감각을 추구하며 성취를 중시하는 성향")
    else if themeId == 4 then ThemeInfo("자연파", ["자연", "소박함", "평온함"],
      "복잡함보다는 단순함을 추구하며 자연 속에서의 평화와 여유로운 삶을 지향하는 성향")
    else if themeId == 5 then ThemeInfo("기억파", ["추억", "그리움", "연결"],
      "과거의 인연을 소중히 여기고 깊은 그리움과 사람 간의 연결을 강조하는 성향")
    else ThemeInfo("동심파", ["순수함", "가족애", "따뜻함"],
      "어린 시절의 추억과 가족과의 유대감을 중시하는 따뜻하고 순수한 마음")
  }

  /** The descriptions agree with the theme table for every theme, and unknown ids read as theme 1. */
  lemma ThemeInfoMatchesConfig(themeId: int)
    ensures var info := GetThemeInfo(themeId);
      var t := if IsTheme(themeId) then themeId else 1;
      t in ThemeConfig.THEME_CONFIGS
      && info.name == ThemeConfig.THEME_CONFIGS[t].name
      && info.characteristics == ThemeConfig.THEME_CONFIGS[t].characteristics
      && info.description == ThemeConfig.THEME_CONFIGS[t].description
  {
    var t := if IsTheme(themeId) then themeId else 1;
    if t == 1 { assert ThemeConfig.THEME_CONFIGS[t] == ThemeConfig.THEME_1; }
    else if t == 2 { assert ThemeConfig.THEME_CONFIGS[t] == ThemeConfig.THEME_2; }
    else if t == 3 { assert ThemeConfig.THEME_CONFIGS[t] == ThemeConfig.THEME_3; }
    else if t == 4 { assert ThemeConfig.THEME_CONFIGS[t] == ThemeConfig.THEME_4; }
    else { assert ThemeConfig.THEME_CONFIGS[t] == ThemeConfig.THEME_5; }
  }
}

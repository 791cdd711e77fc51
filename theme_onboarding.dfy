/**
 * The `/arti` routes: analysing five submitted answers or the answers saved in
 * the profile, storing the result on the user, and reading it back. The
 * analysis service and its theme descriptions are parameters; the service is
 * not part of this model.
 */
module ThemeOnboarding {
  import opened Wrappers
  import opened Json
  import opened Models
  import opened Store
  import opened Http
  import ThemeAnalysis

  const NOT_AUTHENTICATED := "User not authenticated"
  const BAD_FORMAT := "Invalid request format. Expected responses array."
  const FIVE_REQUIRED := "Exactly 5 responses are required for analysis"
  const FIELDS_REQUIRED := "Each response must have both question and answer fields"
  const ANALYSIS_FAILED := "AI analysis failed"
  const ANALYSIS_DONE := "AI analysis completed successfully"
  const USER_NOT_FOUND := "User not found"
  const ONBOARDING_FIRST := "User must complete onboarding first (5 responses required)"
  const NO_ANALYSIS := "No AI analysis found. Please complete analysis first."
  const GET_FAILED := "Failed to get AI analysis"

  /** What the analysis service returns. */
  datatype AiResult = AiResult(choice: int, reason: string)

  /** The collaborators: the analysis of a list of answers (an error when it throws) and the theme descriptions. */
  datatype Analyst = Analyst(analyze: seq<Json> -> Result<AiResult>, info: int -> ThemeAnalysis.ThemeInfo)

  // ---------------------------------------------------------------- checks

  /**
   * The loop over the answers: the first one without a truthy question or
   * answer is refused with 400, but reading a field of `null` throws (500).
   */
  function AnswerRejection(items: seq<Json>, i: nat): (r: Option<Reply>)
    requires i <= |items|
    ensures r.None? <==> forall k :: i <= k < |items| ==> CompleteAnswer(items[k])
    ensures r.Some? ==> r.value.status in {400, 500}
    decreases |items| - i
  {
    if i == |items| then None
    else if items[i].JNull? then Some(Failure(500, ANALYSIS_FAILED))
    else if !TruthyOpt(Get(items[i], "question")) || !TruthyOpt(Get(items[i], "answer")) then Some(Failure(400, FIELDS_REQUIRED))
    else AnswerRejection(items, i + 1)
  }

  /** An answer with a truthy question and a truthy answer. */
  predicate CompleteAnswer(v: Json) {
    TruthyOpt(Get(v, "question")) && TruthyOpt(Get(v, "answer"))
  }

  /** The JSON of the theme descriptions. */
  function ThemeJson(id: int, t: ThemeAnalysis.ThemeInfo): Json {
    JObj(map["id" := JNum(id as real), "name" := JStr(t.name),
             "characteristics" := JArr(seq(|t.characteristics|, i requires 0 <= i < |t.characteristics| => JStr(t.characteristics[i]))),
             "description" := JStr(t.description)])
  }

  /** The success body: the analysis, its theme and the caller. */
  function AnalysisReply(status: int, message: Option<string>, a: Analysis, t: ThemeAnalysis.ThemeInfo, userId: string): Reply {
    var data := JObj(map[
      "analysis" := JObj(map["choice" := JNum(a.choice as real), "reason" := JStr(a.reason), "analyzedAt" := JNum(a.analyzedAt as real)]),
      "theme" := ThemeJson(a.choice, t),
      "user" := JObj(map["id" := JStr(userId)])]);
    Reply(status, JObj(if message.Some? then map["success" := JBool(true), "message" := JStr(message.value), "data" := data]
                       else map["success" := JBool(true), "data" := data]))
  }

  /** The `$set` of the five `aiAnalysis` fields, on whichever user the id names. */
  function StoreAnalysis(a: Analysis): User -> User {
    (u: User) => u.(aiAnalysis := Some(a))
  }

  /**
   * The common tail of both analysis routes: run the analysis, describe its
   * theme, store it on the user (a missing user is not noticed) and report it.
   */
  function AnalyzeAndStore(cast: string -> Option<Id>, ai: Analyst, s: State, userId: string, items: seq<Json>): (h: Handled)
    ensures h.reply.status in {200, 500}
    ensures h.reply.status == 500 ==> h.state == s
  {
    match ai.analyze(items)
    case Err(_) => Handled(Failure(500, ANALYSIS_FAILED), s)
    case Ok(res) =>
      var a := Analysis(res.choice, res.reason, ai.info(res.choice).name, s.clock, items);
      match UpdateUser(cast, s, userId, StoreAnalysis(a))
      case Err(_) => Handled(Failure(500, ANALYSIS_FAILED), s)
      case Ok(t) => Handled(AnalysisReply(200, Some(ANALYSIS_DONE), a, ai.info(res.choice), userId), t)
  }

  // ---------------------------------------------------------------- routes

  /** `POST /arti/analyze`. */
  function Analyze(cast: string -> Option<Id>, ai: Analyst, s: State, userId: Option<string>, body: map<string, Json>): (h: Handled)
    ensures h.reply.status in {200, 400, 401, 500}
    ensures h.reply.status != 200 ==> h.state == s
  {
    var responses := FieldOf(body, "responses");
    if userId.None? || userId.value == "" then Handled(Failure(401, NOT_AUTHENTICATED), s)
    else if !TruthyOpt(responses) || !responses.value.JArr? then Handled(Failure(400, BAD_FORMAT), s)
    else if |responses.value.items| != 5 then Handled(Failure(400, FIVE_REQUIRED), s)
    else match AnswerRejection(responses.value.items, 0)
      case Some(r) => Handled(r, s)
      case None => AnalyzeAndStore(cast, ai, s, userId.value, responses.value.items)
  }

  /** `POST /arti/analyze-from-profile`: the same analysis on the answers saved in the profile. */
  function AnalyzeFromProfile(cast: string -> Option<Id>, ai: Analyst, s: State, userId: Option<string>): (h: Handled)
    ensures h.reply.status in {200, 400, 401, 404, 500}
    ensures h.reply.status != 200 ==> h.state == s
  {
    if userId.None? || userId.value == "" then Handled(Failure(401, NOT_AUTHENTICATED), s)
    else match FindUser(cast, s, userId.value)
      case Err(_) => Handled(Failure(500, ANALYSIS_FAILED), s)
      case Ok(None) => Handled(Failure(404, USER_NOT_FOUND), s)
      case Ok(Some((_, u))) =>
        if u.onboardingResponses.None? || |u.onboardingResponses.value| != 5 then Handled(Failure(400, ONBOARDING_FIRST), s)
        else AnalyzeAndStore(cast, ai, s, userId.value, u.onboardingResponses.value)
  }

  /** `GET /arti/analysis`: the stored analysis with its theme, when there is one with a non-zero choice. */
  function GetAnalysis(cast: string -> Option<Id>, ai: Analyst, s: State, userId: Option<string>): (r: Reply)
    ensures r.status in {200, 401, 404, 500}
  {
    if userId.None? || userId.value == "" then Failure(401, NOT_AUTHENTICATED)
    else match FindUser(cast, s, userId.value)
      case Err(_) => Failure(500, GET_FAILED)
      case Ok(None) => Failure(404, USER_NOT_FOUND)
      case Ok(Some((_, u))) =>
        if u.aiAnalysis.None? || u.aiAnalysis.value.choice == 0 then Failure(404, NO_ANALYSIS)
        else AnalysisReply(200, None, u.aiAnalysis.value, ai.info(u.aiAnalysis.value.choice), userId.value)
  }

  // ---------------------------------------------------------------- properties

  /**
   * The request checks run before the analysis: a refused request gets the
   * same reply whatever the analysis service would have said.
   */
  lemma AnalyzeChecksBeforeAi(cast: string -> Option<Id>, ai: Analyst, other: Analyst, s: State,
                              userId: Option<string>, body: map<string, Json>)
    requires Analyze(cast, ai, s, userId, body).reply.status in {400, 401}
    ensures Analyze(cast, other, s, userId, body) == Analyze(cast, ai, s, userId, body)
  {
  }

  /**
   * The checks in order: no caller is 401; no array is 400; a count other
   * than 5 is 400; then the answers one by one.
   */
  lemma AnalyzeRejections(cast: string -> Option<Id>, ai: Analyst, s: State, userId: Option<string>, body: map<string, Json>)
    ensures var h := Analyze(cast, ai, s, userId, body); var rs := FieldOf(body, "responses");
      && (h.reply.status == 401 <==> userId.None? || userId.value == "")
      && (userId.Some? && userId.value != "" && (!TruthyOpt(rs) || !rs.value.JArr?) ==> h.reply == Failure(400, BAD_FORMAT))
      && (userId.Some? && userId.value != "" && TruthyOpt(rs) && rs.value.JArr? && |rs.value.items| != 5 ==>
            h.reply == Failure(400, FIVE_REQUIRED))
      && (h.reply == Failure(400, FIELDS_REQUIRED) ==>
            rs.Some? && rs.value.JArr? && exists k :: 0 <= k < |rs.value.items| && !CompleteAnswer(rs.value.items[k]))
  {
    var h := Analyze(cast, ai, s, userId, body);
    if h.reply == Failure(400, FIELDS_REQUIRED) {
      FailureMessages(400, BAD_FORMAT, FIELDS_REQUIRED);
      FailureMessages(400, FIVE_REQUIRED, FIELDS_REQUIRED);
    }
  }

  /**
   * A completed analysis is stored on the caller, when the caller exists,
   * with the choice, the reason, the theme's name, the time and the answers;
   * nothing else changes. The reply reports the same analysis.
   */
  lemma AnalyzeStores(cast: string -> Option<Id>, ai: Analyst, s: State, userId: Option<string>, body: map<string, Json>)
    requires Analyze(cast, ai, s, userId, body).reply.status == 200
    ensures var h := Analyze(cast, ai, s, userId, body);
      var items := body["responses"].items; var res := ai.analyze(items).value;
      var a := Analysis(res.choice, res.reason, ai.info(res.choice).name, s.clock, items);
      var k := cast(userId.value).value;
      && ai.analyze(items).Ok? && |items| == 5
      && (forall j :: 0 <= j < 5 ==> CompleteAnswer(items[j]))
      && h.reply == AnalysisReply(200, Some(ANALYSIS_DONE), a, ai.info(res.choice), userId.value)
      && h.state.objects == s.objects && h.state.modified == s.modified && h.state.users.Keys == s.users.Keys
      && (forall j :: j in s.users && j != k ==> h.state.users[j] == s.users[j])
      && (k in s.users ==> h.state.users[k] == s.users[k].(aiAnalysis := Some(a)))
  {
  }

  /** An analysis whose caller has no account is still reported as done, and nothing is stored. */
  lemma AnalyzeForUnknownUser(cast: string -> Option<Id>, ai: Analyst, s: State, userId: Option<string>, body: map<string, Json>)
    requires Analyze(cast, ai, s, userId, body).reply.status == 200
    requires cast(userId.value).value !in s.users
    ensures Analyze(cast, ai, s, userId, body).state == s
  {
  }

  /** The profile route refuses a missing user with 404 and a profile without exactly five saved answers with 400. */
  lemma ProfileRejections(cast: string -> Option<Id>, ai: Analyst, s: State, userId: Option<string>)
    requires userId.Some? && userId.value != "" && cast(userId.value).Some?
    ensures var h := AnalyzeFromProfile(cast, ai, s, userId); var k := cast(userId.value).value;
      && (h.reply.status == 404 <==> k !in s.users)
      && (h.reply.status == 400 <==>
            k in s.users && (s.users[k].onboardingResponses.None? || |s.users[k].onboardingResponses.value| != 5))
  {
  }

  /** Reading the analysis back: 404 without a user, without an analysis or with a zero choice. */
  lemma GetAnalysisOutcomes(cast: string -> Option<Id>, ai: Analyst, s: State, userId: Option<string>)
    requires userId.Some? && userId.value != "" && cast(userId.value).Some?
    ensures var r := GetAnalysis(cast, ai, s, userId); var k := cast(userId.value).value;
      && (r.status == 404 <==> k !in s.users || s.users[k].aiAnalysis.None? || s.users[k].aiAnalysis.value.choice == 0)
      && (r.status == 200 ==> r == AnalysisReply(200, None, s.users[k].aiAnalysis.value,
                                                 ai.info(s.users[k].aiAnalysis.value.choice), userId.value))
  {
  }

  /** What an analysis stores for an existing caller, reading it back returns, unless the choice is 0. */
  lemma AnalyzeThenGet(cast: string -> Option<Id>, ai: Analyst, s: State, userId: Option<string>, body: map<string, Json>)
    requires Analyze(cast, ai, s, userId, body).reply.status == 200
    requires cast(userId.value).value in s.users
    requires ai.analyze(body["responses"].items).value.choice != 0
    ensures var h := Analyze(cast, ai, s, userId, body); var r := GetAnalysis(cast, ai, h.state, userId);
      var res := ai.analyze(body["responses"].items).value;
      && r.status == 200
      && r == AnalysisReply(200, None, Analysis(res.choice, res.reason, ai.info(res.choice).name, s.clock, body["responses"].items),
                            ai.info(res.choice), userId.value)
  {
    AnalyzeStores(cast, ai, s, userId, body);
  }

  /**
   * `POST /arti/analyze` as written against the user schema, which declares
   * no `aiAnalysis` path: Mongoose's default strict mode strips the `$set`
   * of undeclared paths, so the reply is the same but no user changes.
   */
  function AnalyzeAsWritten(cast: string -> Option<Id>, ai: Analyst, s: State, userId: Option<string>, body: map<string, Json>): (h: Handled)
  {
    Handled(Analyze(cast, ai, s, userId, body).reply, s)
  }

  /**
   * As written, a caller without a stored analysis who gets 200 from the
   * analysis still gets 404 "No AI analysis found" when reading it back.
   */
  lemma AnalyzeAsWrittenNotKept(cast: string -> Option<Id>, ai: Analyst, s: State, userId: Option<string>, body: map<string, Json>)
    requires Analyze(cast, ai, s, userId, body).reply.status == 200
    requires cast(userId.value).value in s.users && s.users[cast(userId.value).value].aiAnalysis.None?
    ensures AnalyzeAsWritten(cast, ai, s, userId, body).reply.status == 200
    ensures GetAnalysis(cast, ai, AnalyzeAsWritten(cast, ai, s, userId, body).state, userId) == Failure(404, NO_ANALYSIS)
  {
    AnalyzeRejections(cast, ai, s, userId, body);
  }
}

/**
 * The onboarding questionnaire: the five fixed questions and the check on a
 * submitted list of answers. Nothing is stored.
 */
module Onboarding {
  import opened Wrappers
  import opened Json
  import opened Http

  const QUESTIONS: seq<string> := [
    "어떤 칭찬을 들으면 기분이 좋던가요?",
    "평소에 무엇을 기대하며 살고 있나요?",
    "주변 사람들에게 어떻게 기억되고 싶은가요?",
    "나의 삶을 한 문장으로 정리하자면?",
    "당신의 장례식은 분위기가 어땠으면 하나요?"]

  const NOT_AN_ARRAY := "Invalid format. Expected an array of objects."
  const INCOMPLETE := "Incomplete responses"
  const NOT_AUTHENTICATED := "User not authenticated"
  const RECEIVED := "Onboarding responses received"

  /** The JSON list of the questions. */
  function QuestionsJson(qs: seq<string>): (j: Json)
    ensures j.JArr? && |j.items| == |qs|
    ensures forall i :: 0 <= i < |qs| ==> j.items[i] == JStr(qs[i])
  {
    JArr(seq(|qs|, i requires 0 <= i < |qs| => JStr(qs[i])))
  }

  /** `GET /onboarding/theme`. */
  function GetQuestions(): (r: Reply)
    ensures r.status == 200
    ensures r.body.JObj? && "questions" in r.body.fields
    ensures var q := r.body.fields["questions"];
      q.JArr? && |q.items| == 5 && forall i :: 0 <= i < 5 ==> q.items[i] == JStr(QUESTIONS[i])
  {
    Reply(200, JObj(map["status" := JStr("success"), "questions" := QuestionsJson(QUESTIONS)]))
  }

  /**
   * `POST /onboarding/theme`: the body must be an array of at least as many
   * answers as there are questions; only then is the caller's id looked at.
   */
  function PostAnswers(userId: Option<string>, body: Json): (r: Reply)
  {
    if !body.JArr? then Reply(400, JObj(map["error" := JStr(NOT_AN_ARRAY)]))
    else if |body.items| < |QUESTIONS| then Reply(400, JObj(map["status" := JStr("error"), "message" := JStr(INCOMPLETE)]))
    else if userId.None? || userId.value == "" then Failure(401, NOT_AUTHENTICATED)
    else Reply(201, JObj(map["status" := JStr("success"), "message" := JStr(RECEIVED)]))
  }

  /**
   * A body that is not an array, or one with fewer than five answers, is
   * refused with 400 whoever asks; five or more answers from a signed-in user
   * are accepted with 201, and a missing user is 401 only for an acceptable
   * body. The answers themselves are never looked at.
   */
  lemma AnswersOutcomes(userId: Option<string>, body: Json)
    ensures var r := PostAnswers(userId, body);
      && (r.status == 400 <==> !body.JArr? || |body.items| < 5)
      && (r.status == 401 <==> body.JArr? && |body.items| >= 5 && (userId.None? || userId.value == ""))
      && (r.status == 201 <==> body.JArr? && |body.items| >= 5 && userId.Some? && userId.value != "")
  {
  }

  /** Only the number of answers matters: two arrays of the same length get the same reply. */
  lemma AnswersContentIgnored(userId: Option<string>, a: seq<Json>, b: seq<Json>)
    requires |a| == |b|
    ensures PostAnswers(userId, JArr(a)) == PostAnswers(userId, JArr(b))
  {
  }
}

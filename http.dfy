/**
 * What a request handler sends back: a status code and a JSON body, together
 * with the database state it leaves behind.
 */
module Http {
  import opened Wrappers
  import opened Json
  import opened Text
  import opened Models
  import opened Store

  datatype Reply = Reply(status: int, body: Json)

  datatype Handled = Handled(reply: Reply, state: State)

  /** A body holding only a message. */
  function Message(status: int, msg: string): Reply {
    Reply(status, JObj(map["message" := JStr(msg)]))
  }

  /** A body marked unsuccessful, with a message. */
  function Failure(status: int, msg: string): Reply {
    Reply(status, JObj(map["success" := JBool(false), "message" := JStr(msg)]))
  }

  /** Failures with different messages are different replies. */
  lemma FailureMessages(status: int, a: string, b: string)
    requires a != b
    ensures Failure(status, a) != Failure(status, b)
  {
    assert Failure(status, a).body.fields["message"] == JStr(a);
  }

  /** `!v || typeof v !== "string" || v.trim().length === 0` fails: a string with a non-blank character. */
  predicate NonBlank(v: Option<Json>) {
    v.Some? && v.value.JStr? && HasNonSpace(v.value.s)
  }

  /** The JSON of an image entry. */
  function SetJson(entry: ImageSet): Json {
    JObj(map["name" := JStr(entry.name), "color" := JStr(entry.color), "src" := JStr(entry.src)])
  }
}

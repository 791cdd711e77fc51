/**
 * The second signup handler, which no router mounts: it also requires a name,
 * creates the account without a theme and issues no token. The address
 * format and the uniqueness check are those of `Auth`.
 */
module Signup {
  import opened Wrappers
  import opened Json
  import opened Text
  import opened Models
  import opened Store
  import opened Http
  import Auth

  /**
   * The handler. `hash` is `bcrypt.hash(_, 10)`; the schema trims the stored
   * name, and the reply reports the stored one.
   */
  function NamedSignup(hash: string -> string, s: State, body: map<string, Json>): (h: Handled)
    ensures h.reply.status in {201, 400, 409, 500}
    ensures h.reply.status != 201 ==> h.state == s
  {
    var name := FieldOf(body, "name");
    var email := FieldOf(body, "email");
    var password := FieldOf(body, "password");
    if !TruthyOpt(email) || !TruthyOpt(password) || !TruthyOpt(name) then Handled(Message(400, Auth.FIELDS_REQUIRED), s)
    else if !Auth.EmailAccepted(email.value) then Handled(Message(400, Auth.BAD_EMAIL), s)
    else if Auth.EmailInUse(s, email.value.s) then Handled(Message(409, Auth.EMAIL_TAKEN), s)
    else if !password.value.JStr? || !name.value.JStr? then Handled(Message(500, Auth.SIGNUP_FAILED), s)
    else
      var id := s.nextId;
      var user := NewUser(Some(Trim(name.value.s)), email.value.s, hash(password.value.s), map[], s.clock);
      Handled(Reply(201, JObj(map["id" := JId(id), "name" := JStr(Trim(name.value.s)), "email" := JStr(email.value.s)])),
              Tick(s).(users := s.users[id := user]))
  }

  /** A missing or empty name, address or password is refused first, then a malformed address, then a taken one. */
  lemma NamedSignupRejections(hash: string -> string, s: State, body: map<string, Json>)
    ensures var h := NamedSignup(hash, s, body);
      var present := TruthyOpt(FieldOf(body, "name")) && TruthyOpt(FieldOf(body, "email")) && TruthyOpt(FieldOf(body, "password"));
      && (!present ==> h.reply == Message(400, Auth.FIELDS_REQUIRED))
      && (present ==> (h.reply == Message(400, Auth.BAD_EMAIL) <==> !Auth.EmailAccepted(body["email"])))
      && (h.reply.status == 409 <==> present && Auth.EmailAccepted(body["email"]) && Auth.EmailInUse(s, body["email"].s))
  {
  }

  /**
   * A successful signup stores one account under a fresh key with the trimmed
   * name, the address and the hash of the password, and answers with the id,
   * the name and the address only.
   */
  lemma NamedSignupCreates(hash: string -> string, s: State, body: map<string, Json>)
    requires NamedSignup(hash, s, body).reply.status == 201
    ensures var h := NamedSignup(hash, s, body); var u := h.state.users[s.nextId];
      && Auth.EmailFormat(body["email"].s) && !Auth.EmailInUse(s, body["email"].s)
      && h.state.users == s.users[s.nextId := u]
      && h.state.objects == s.objects && h.state.modified == s.modified
      && u.name == Some(Trim(body["name"].s)) && u.email == body["email"].s
      && u.password == hash(body["password"].s) && u.theme == map[]
      && u.objectIds == [] && u.modifiedObjectIds == []
      && h.reply.body.JObj? && h.reply.body.fields.Keys == {"id", "name", "email"}
  {
  }

  /** The account this handler stores has no theme, which the user schema requires. */
  lemma NamedSignupAccountLacksTheme(hash: string -> string, s: State, body: map<string, Json>)
    requires NamedSignup(hash, s, body).reply.status == 201
    ensures !ValidUser(NamedSignup(hash, s, body).state.users[s.nextId])
  {
  }

  /**
   * The handler as written: `user.save()` runs the user schema's validators
   * before inserting, so an account without a theme is never stored; the save
   * throws and the reply is 500.
   */
  function NamedSignupAsWritten(hash: string -> string, s: State, body: map<string, Json>): (h: Handled)
  {
    var h := NamedSignup(hash, s, body);
    if h.reply.status == 201 && !ValidUser(h.state.users[s.nextId]) then Handled(Message(500, Auth.SIGNUP_FAILED), s) else h
  }

  /**
   * As written, this handler never creates an account either: a request that
   * passes the checks ends in 500 with nothing stored, and every other request
   * gets the same reply as the corrected handler.
   */
  lemma NamedSignupAsWrittenNeverCreates(hash: string -> string, s: State, body: map<string, Json>)
    ensures NamedSignupAsWritten(hash, s, body).reply.status != 201
    ensures NamedSignup(hash, s, body).reply.status == 201 ==>
      NamedSignupAsWritten(hash, s, body) == Handled(Message(500, Auth.SIGNUP_FAILED), s)
    ensures NamedSignup(hash, s, body).reply.status != 201 ==>
      NamedSignupAsWritten(hash, s, body) == NamedSignup(hash, s, body)
  {
    if NamedSignup(hash, s, body).reply.status == 201 {
      NamedSignupAccountLacksTheme(hash, s, body);
    }
  }

  /** The handler on the database. */
  method NamedSignupIn(db: Db, hash: string -> string, body: map<string, Json>) returns (reply: Reply)
    modifies db
    ensures NamedSignup(hash, old(db.Snapshot()), body) == Handled(reply, db.Snapshot())
  {
    var h := NamedSignup(hash, db.Snapshot(), body);
    if h.reply.status == 201 {
      var id, now := db.Fresh();
      db.users := db.users[id := NewUser(Some(Trim(body["name"].s)), body["email"].s, hash(body["password"].s), map[], now)];
    }
    reply := h.reply;
  }
}

/**
 * `POST /signup`: the presence checks, the address format of the regular
 * expression `^[^\s@]+@[^\s@]+\.[^\s@]+$`, the uniqueness of the address and
 * the insertion of the new account. Password hashing (bcrypt) and token
 * signing (JWT) are parameters.
 */
module Auth {
  import opened Wrappers
  import opened Json
  import opened Text
  import opened Models
  import opened Store
  import opened Http

  const FIELDS_REQUIRED := "name, email and password are required"
  const BAD_EMAIL := "invalid email format"
  const EMAIL_TAKEN := "email already in use"
  const SIGNUP_FAILED := "internal server error"

  // ---------------------------------------------------------------- address format

  /** A run the classes `[^\s@]+` accept, possibly empty: no white space and no '@'. */
  predicate Clean(t: string) {
    forall k :: 0 <= k < |t| ==> !IsSpace(t[k]) && t[k] != '@'
  }

  /**
   * The regular expression itself: an '@' at `i` and a '.' at `j` cut the
   * address into three non-empty clean runs.
   */
  predicate MatchesEmailPattern(s: string) {
    exists i, j :: 0 < i && i + 1 < j && j + 1 < |s| && s[i] == '@' && s[j] == '.'
      && Clean(s[..i]) && Clean(s[i + 1..j]) && Clean(s[j + 1..])
  }

  /** A domain with a '.' that is neither its first nor its last character. */
  predicate DottedDomain(d: string) {
    |d| >= 3 && '.' in d[1..|d| - 1]
  }

  /** The format check, piece by piece: exactly one '@', a non-empty local part, no white space, a dotted domain. */
  predicate EmailFormat(s: string) {
    var parts := Split(s, '@');
    |parts| == 2 && parts[0] != "" && Clean(parts[0]) && Clean(parts[1]) && DottedDomain(parts[1])
  }

  /** An address that passes the piecewise check matches the regular expression. */
  lemma FormatMatchesPattern(s: string)
    requires EmailFormat(s)
    ensures MatchesEmailPattern(s)
  {
    var parts := Split(s, '@');
    var a, d := parts[0], parts[1];
    JoinSplit(s, '@');
    assert parts[1..] == [d];
    assert s == a + ['@'] + d;
    var m :| 0 <= m < |d[1..|d| - 1]| && d[1..|d| - 1][m] == '.';
    var i, j := |a|, |a| + 2 + m;
    assert s[..i] == a;
    assert s[i + 1..j] == d[..m + 1];
    assert s[j + 1..] == d[m + 2..];
    assert s[i] == '@' && s[j] == '.';
  }

  /** Two clean runs around a '.' make a clean run, and a clean run has no '@'. */
  lemma CleanAroundDot(b: string, c: string)
    requires Clean(b) && Clean(c)
    ensures Clean(b + ['.'] + c) && '@' !in b + ['.'] + c
  {
    var d := b + ['.'] + c;
    forall k | 0 <= k < |d| ensures !IsSpace(d[k]) && d[k] != '@' {
      if k < |b| { assert d[k] == b[k]; }
      else if k > |b| { assert d[k] == c[k - |b| - 1]; }
    }
  }

  /** Splitting `a@d` on '@', when neither side has one, gives the two sides. */
  lemma SplitAtSign(a: string, d: string)
    requires '@' !in a && '@' !in d
    ensures Split(a + ['@'] + d, '@') == [a, d]
  {
    var parts := [a, d];
    assert Join(parts, '@') == a + ['@'] + d by {
      assert parts[1..] == [d];
    }
    SplitJoin(parts, '@');
  }

  /** An '@' at `i` and a '.' at `j` cutting three clean runs make an address the piecewise check accepts. */
  lemma CutMeetsFormat(s: string, i: int, j: int)
    requires 0 < i && i + 1 < j && j + 1 < |s| && s[i] == '@' && s[j] == '.'
    requires Clean(s[..i]) && Clean(s[i + 1..j]) && Clean(s[j + 1..])
    ensures EmailFormat(s)
  {
    var a, b, c := s[..i], s[i + 1..j], s[j + 1..];
    var d := b + ['.'] + c;
    assert s == a + ['@'] + d by {
      assert s[i + 1..] == d;
      assert s == s[..i] + [s[i]] + s[i + 1..];
    }
    CleanAroundDot(b, c);
    assert '@' !in a by {
      forall k | 0 <= k < |a| ensures a[k] != '@' { }
    }
    SplitAtSign(a, d);
    assert d[1..|d| - 1][|b| - 1] == '.';
  }

  /** An address the regular expression matches passes the piecewise check. */
  lemma PatternMeetsFormat(s: string)
    requires MatchesEmailPattern(s)
    ensures EmailFormat(s)
  {
    var i, j :| 0 < i && i + 1 < j && j + 1 < |s| && s[i] == '@' && s[j] == '.'
      && Clean(s[..i]) && Clean(s[i + 1..j]) && Clean(s[j + 1..]);
    CutMeetsFormat(s, i, j);
  }

  /** The piecewise check accepts exactly the addresses the regular expression matches. */
  lemma EmailFormatIffPattern(s: string)
    ensures EmailFormat(s) <==> MatchesEmailPattern(s)
  {
    if EmailFormat(s) {
      FormatMatchesPattern(s);
    }
    if MatchesEmailPattern(s) {
      PatternMeetsFormat(s);
    }
  }

  /** What `emailRegex.test(email)` says of a request value; a value that is not text is refused. */
  predicate EmailAccepted(v: Json) {
    v.JStr? && EmailFormat(v.s)
  }

  // ---------------------------------------------------------------- the route

  /** `User.findOne({ email })` finds an account. */
  predicate EmailInUse(s: State, email: string) {
    exists k :: k in s.users && s.users[k].email == email
  }

  /**
   * The handler. `hash` is `bcrypt.hash(_, 10)`, `token` signs the id and the
   * address. The account is created with the default theme and no name.
   */
  function Signup(hash: string -> string, token: (Id, string) -> string, s: State, body: map<string, Json>): (h: Handled)
    ensures h.reply.status in {201, 400, 409, 500}
    ensures h.reply.status != 201 ==> h.state == s
  {
    var email := FieldOf(body, "email");
    var password := FieldOf(body, "password");
    if !TruthyOpt(email) || !TruthyOpt(password) then Handled(Message(400, FIELDS_REQUIRED), s)
    else if !EmailAccepted(email.value) then Handled(Message(400, BAD_EMAIL), s)
    else if EmailInUse(s, email.value.s) then Handled(Message(409, EMAIL_TAKEN), s)
    else if !password.value.JStr? then Handled(Message(500, SIGNUP_FAILED), s)
    else
      var id := s.nextId;
      var user := NewUser(None, email.value.s, hash(password.value.s), DEFAULT_THEME, s.clock);
      Handled(Reply(201, JObj(map["id" := JId(id), "email" := JStr(email.value.s), "token" := JStr(token(id, email.value.s))])),
              Tick(s).(users := s.users[id := user]))
  }

  /** The checks run in order: presence, then format, then uniqueness, and each failure is its own reply. */
  lemma SignupRejections(hash: string -> string, token: (Id, string) -> string, s: State, body: map<string, Json>)
    ensures var h := Signup(hash, token, s, body);
      && (!TruthyOpt(FieldOf(body, "email")) || !TruthyOpt(FieldOf(body, "password")) ==> h.reply == Message(400, FIELDS_REQUIRED))
      && (TruthyOpt(FieldOf(body, "email")) && TruthyOpt(FieldOf(body, "password")) ==>
            (h.reply == Message(400, BAD_EMAIL) <==> !EmailAccepted(body["email"])))
      && (h.reply.status == 409 <==>
            TruthyOpt(FieldOf(body, "email")) && TruthyOpt(FieldOf(body, "password"))
            && EmailAccepted(body["email"]) && EmailInUse(s, body["email"].s))
  {
  }

  /**
   * A successful signup stores one new account under a fresh key, holding the
   * address and the hash of the password, and answers with the id, the
   * address and the token, never the password.
   */
  lemma SignupCreates(hash: string -> string, token: (Id, string) -> string, s: State, body: map<string, Json>)
    requires ValidState(s)
    requires Signup(hash, token, s, body).reply.status == 201
    ensures var h := Signup(hash, token, s, body); var email := body["email"].s;
      && EmailFormat(email) && !EmailInUse(s, email)
      && s.nextId !in s.users && h.state.users == s.users[s.nextId := h.state.users[s.nextId]]
      && h.state.objects == s.objects && h.state.modified == s.modified
      && h.state.users[s.nextId].email == email
      && h.state.users[s.nextId].password == hash(body["password"].s)
      && h.state.users[s.nextId].objectIds == [] && h.state.users[s.nextId].modifiedObjectIds == []
      && h.reply.body.JObj? && h.reply.body.fields.Keys == {"id", "email", "token"}
      && h.reply.body.fields["id"] == JId(s.nextId)
      && ValidState(h.state)
  {
  }

  /** The account a successful signup stores has no name, which the user schema requires. */
  lemma SignupAccountLacksName(hash: string -> string, token: (Id, string) -> string, s: State, body: map<string, Json>)
    requires Signup(hash, token, s, body).reply.status == 201
    ensures !ValidUser(Signup(hash, token, s, body).state.users[s.nextId])
  {
    NewUserWithoutNameInvalid(body["email"].s, hash(body["password"].s), DEFAULT_THEME, s.clock);
  }

  /**
   * The handler as written: `user.save()` runs the user schema's validators
   * before inserting, so an account without a name is never stored; the save
   * throws and the reply is 500.
   */
  function SignupAsWritten(hash: string -> string, token: (Id, string) -> string, s: State, body: map<string, Json>): (h: Handled)
  {
    var h := Signup(hash, token, s, body);
    if h.reply.status == 201 && !ValidUser(h.state.users[s.nextId]) then Handled(Message(500, SIGNUP_FAILED), s) else h
  }

  /**
   * As written, no signup ever succeeds: a request that passes the three
   * checks ends in 500 with nothing stored, and every other request gets the
   * same reply as the corrected handler.
   */
  lemma SignupAsWrittenNeverCreates(hash: string -> string, token: (Id, string) -> string, s: State, body: map<string, Json>)
    ensures SignupAsWritten(hash, token, s, body).reply.status != 201
    ensures Signup(hash, token, s, body).reply.status == 201 ==>
      SignupAsWritten(hash, token, s, body) == Handled(Message(500, SIGNUP_FAILED), s)
    ensures Signup(hash, token, s, body).reply.status != 201 ==>
      SignupAsWritten(hash, token, s, body) == Signup(hash, token, s, body)
  {
    if Signup(hash, token, s, body).reply.status == 201 {
      SignupAccountLacksName(hash, token, s, body);
    }
  }

  /** The handler on the database: the checks read it, a successful signup inserts the account. */
  method SignupIn(db: Db, hash: string -> string, token: (Id, string) -> string, body: map<string, Json>) returns (reply: Reply)
    modifies db
    ensures Signup(hash, token, old(db.Snapshot()), body) == Handled(reply, db.Snapshot())
  {
    var h := Signup(hash, token, db.Snapshot(), body);
    if h.reply.status == 201 {
      var id, now := db.Fresh();
      db.users := db.users[id := NewUser(None, body["email"].s, hash(body["password"].s), DEFAULT_THEME, now)];
    }
    reply := h.reply;
  }
}

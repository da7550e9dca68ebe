/** The `/auth` routes. The password primitives are parameters: `hash` stands
    for bcrypt's `generate_password_hash` and `check` for its
    `check_password_hash`. A token is the user id it is bound to. */
module AuthController {
  import opened Web
  import opened UserModel
  import opened Store

  const InvalidCredentialsMessage := "Invalid credentials"
  const UserExistsMessage := "User already exists"

  /** An access token, bound to the identity of the user it was issued to. */
  datatype Token = Token(userId: UserId)

  /** The JSON body of a login request. */
  datatype LoginPayload = LoginPayload(email: Field, password: Field)

  /** The JSON body of a register request. */
  datatype RegisterPayload = RegisterPayload(name: Field, email: Field, password: Field)

  /** POST /auth/login: the same 401 for an unknown email and for a wrong
      password; a token bound to the user otherwise. A missing password cannot
      be passed to the password check and ends in a server error. */
  function Login(t: Tables, p: LoginPayload, check: (string, string) -> bool): (r: Response<Token>)
    requires WellFormed(t)
    ensures r.Ok? ==> && r.body.userId in t.users
                      && p.email.Value() == Some(t.users[r.body.userId].email)
                      && p.password.Text? && check(t.users[r.body.userId].password, p.password.text)
    ensures (forall id :: id in t.users ==> p.email.Value() != Some(t.users[id].email)) ==>
              r == Err(Unauthorized, InvalidCredentialsMessage)
    ensures forall id :: id in t.users && p.email.Value() == Some(t.users[id].email) ==>
              (p.password.Text? && !check(t.users[id].password, p.password.text) ==>
                 r == Err(Unauthorized, InvalidCredentialsMessage)) &&
              (p.password.Text? && check(t.users[id].password, p.password.text) ==> r == Ok(Token(id)))
  {
    match UserByEmail(t, p.email.Value())
    case None => Err(Unauthorized, InvalidCredentialsMessage)
    case Some(user) =>
      if p.password.Value().None? then Err(ServerError, InternalErrorMessage)
      else if !check(user.password, p.password.text) then Err(Unauthorized, InvalidCredentialsMessage)
      else Ok(Token(user.id))
  }

  /** POST /auth/register: 400 for an email already taken, otherwise a new
      user holding the hash of the password. A missing or empty password is
      refused by the hashing primitive, and a missing name or email fails the
      NOT NULL columns. */
  function RegisterStep(t: Tables, p: RegisterPayload, hash: string -> string): (o: Outcome<Json>)
    requires WellFormed(t)
    ensures WellFormed(o.after)
  {
    var name, email, password := p.name.Value(), p.email.Value(), p.password.Value();
    if UserByEmail(t, email).Some? then Outcome(Err(BadRequest, UserExistsMessage), t)
    else if password.None? || password.value == "" || name.None? || email.None? then
      Outcome(Err(ServerError, InternalErrorMessage), t)
    else
      var user := NewUser(t.nextUserId, name.value, email.value, hash(password.value));
      InsertUserKeepsWellFormed(t, user);
      Outcome(Ok(UserSchemaDump(user)), t.(users := t.users[user.id := user], nextUserId := t.nextUserId + 1))
  }

  method Register(db: Database, p: RegisterPayload, hash: string -> string) returns (r: Response<Json>)
    requires db.Valid()
    modifies db
    ensures Outcome(r, db.Contents()) == RegisterStep(old(db.Contents()), p, hash)
    ensures db.Valid()
  {
    var name, email, password := p.name.Value(), p.email.Value(), p.password.Value();
    var existing := UserByEmail(db.Contents(), email);
    if existing.Some? {
      return Err(BadRequest, UserExistsMessage);
    }
    if password.None? || password.value == "" {
      // the hashing primitive refuses a missing or empty password
      return Err(ServerError, InternalErrorMessage);
    }
    var hashed := hash(password.value);
    if name.None? || email.None? {
      // the commit violates a NOT NULL column and is rolled back
      return Err(ServerError, InternalErrorMessage);
    }
    var user := NewUser(db.nextUserId, name.value, email.value, hashed);
    db.users := db.users[user.id := user];
    db.nextUserId := db.nextUserId + 1;
    r := Ok(UserSchemaDump(user));
  }

  // Properties of the auth routes.

  /** Registering an email that is already stored answers 400 and changes
      nothing. */
  lemma RegisterDuplicateRejected(t: Tables, p: RegisterPayload, hash: string -> string, id: UserId)
    requires WellFormed(t) && id in t.users && p.email == Text(t.users[id].email)
    ensures RegisterStep(t, p, hash) == Outcome(Err(BadRequest, UserExistsMessage), t)
  {
  }

  /** A registration with a free email but a missing name, a missing email
      or a missing or empty password answers 500 and stores nothing. */
  lemma RegisterIncompleteRejected(t: Tables, p: RegisterPayload, hash: string -> string)
    requires WellFormed(t)
    requires forall id :: id in t.users ==> p.email.Value() != Some(t.users[id].email)
    requires !p.name.Text? || !p.email.Text? || !p.password.Text? || p.password.text == ""
    ensures RegisterStep(t, p, hash) == Outcome(Err(ServerError, InternalErrorMessage), t)
  {
  }

  /** A successful registration adds exactly one user, under a fresh id, with
      the given name and email, the hash of the password, and no admin
      rights; the answer carries no password. */
  lemma RegisterAddsUser(t: Tables, p: RegisterPayload, hash: string -> string)
    requires WellFormed(t) && p.name.Text? && p.email.Text? && p.password.Text? && p.password.text != ""
    requires forall id :: id in t.users ==> t.users[id].email != p.email.text
    ensures var o := RegisterStep(t, p, hash);
            var id := t.nextUserId;
            && id !in t.users
            && o.after.users == t.users[id := User(id, p.name.text, p.email.text, hash(p.password.text), false)]
            && |o.after.users| == |t.users| + 1
            && o.after.cards == t.cards && o.after.comments == t.comments
            && o.response == Ok(UserSchemaDump(o.after.users[id]))
  {
  }

  /** Registering the same email twice: the second attempt answers 400 and
      leaves the first user as it was. */
  lemma RegisterTwiceRejected(t: Tables, p: RegisterPayload, hash: string -> string)
    requires WellFormed(t) && p.name.Text? && p.email.Text? && p.password.Text? && p.password.text != ""
    ensures var first := RegisterStep(t, p, hash);
            RegisterStep(first.after, p, hash) == Outcome(Err(BadRequest, UserExistsMessage), first.after)
  {
    var first := RegisterStep(t, p, hash);
    if UserByEmail(t, p.email.Value()).None? {
      var id := t.nextUserId;
      assert first.after.users[id].email == p.email.text;
    }
  }

  /** After registering, logging in with the same email and password yields a
      token bound to the new user, provided the check accepts the hash of a
      password for that password. */
  lemma LoginAfterRegister(t: Tables, p: RegisterPayload, hash: string -> string, check: (string, string) -> bool)
    requires WellFormed(t) && p.name.Text? && p.email.Text? && p.password.Text? && p.password.text != ""
    requires forall id :: id in t.users ==> t.users[id].email != p.email.text
    requires check(hash(p.password.text), p.password.text)
    ensures var o := RegisterStep(t, p, hash);
            Login(o.after, LoginPayload(p.email, p.password), check) == Ok(Token(t.nextUserId))
  {
  }
}

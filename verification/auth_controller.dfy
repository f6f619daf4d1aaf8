/** Sign-up, sign-in and sign-out over the user collection. Passwords are kept
    only as bcrypt hashes; the model is given bcrypt's hash and compare as a
    `Hasher` and the token generator as a function, and treats both as opaque. */
module AuthController {
  import opened JsValues
  import opened ErrorHandling

  type UserId = nat

  /** A stored user; `password` holds the hash. */
  datatype User = User(
    id: UserId,
    firstName: string,
    lastName: string,
    email: string,
    password: string,
    createdAt: nat,
    updatedAt: nat)

  /** A user as sign-in sends it back: every field but the password. */
  datatype PublicUser = PublicUser(
    id: UserId,
    firstName: string,
    lastName: string,
    email: string,
    createdAt: nat,
    updatedAt: nat)

  function WithoutPassword(u: User): PublicUser
  {
    PublicUser(u.id, u.firstName, u.lastName, u.email, u.createdAt, u.updatedAt)
  }

  /** A bcrypt salt: the cost factor and the random part. */
  datatype Salt = Salt(rounds: nat, nonce: string)

  const SaltRounds := 10

  /** bcrypt's `hash(password, salt)` and `compare(password, hash)`. */
  datatype Hasher = Hasher(hash: (string, Salt) -> string, compare: (string, string) -> bool)

  /** compare accepts a password against any hash made from it. */
  ghost predicate Sound(h: Hasher)
  {
    forall p, s :: h.compare(p, h.hash(p, s))
  }

  datatype Cookie = Cookie(
    name: string,
    value: string,
    httpOnly: bool,
    maxAgeMs: nat,
    sameSite: string,
    secure: bool)

  datatype CookieOp = SetCookie(cookie: Cookie) | ClearCookie(name: string)

  /** What a handler sends: its outcome and the cookie changes on the response. */
  datatype Reply<T> = Reply(outcome: Outcome<T>, cookies: seq<CookieOp>)

  const TokenCookie := "reviewMe_token"
  const TokenMaxAgeMs := 24 * 60 * 60 * 1000

  const EmailExists := "Email already exists"
  const UserCreated := "User created successfully"
  const UserNotFound := "User not found"
  const InvalidPassword := "Invalid password"
  const UserLoggedIn := "User logged in successfully"
  const UserSignedOut := "User signed out successfully"

  /** The session cookie: HTTP only, same-site strict, one day, secure in production. */
  function SessionCookie(token: string, production: bool): (c: Cookie)
    ensures c.name == TokenCookie && c.value == token
    ensures c.maxAgeMs == 86_400_000
    ensures c.httpOnly && c.sameSite == "strict" && c.secure == production
  {
    Cookie(TokenCookie, token, true, TokenMaxAgeMs, "strict", production)
  }

  // ---------------------------------------------------------------------------
  // Looking a user up by email.
  // ---------------------------------------------------------------------------

  predicate UniqueEmails(users: seq<User>)
  {
    forall i, j :: 0 <= i < j < |users| ==> users[i].email != users[j].email
  }

  /** `findOne({ email })`: the first user, in natural order, with that email. */
  function FindByEmail(users: seq<User>, email: string): (r: Option<User>)
    ensures r.None? <==> forall u :: u in users ==> u.email != email
    ensures r.Some? ==> r.value in users && r.value.email == email
  {
    if users == [] then None
    else if users[0].email == email then Some(users[0])
    else FindByEmail(users[1..], email)
  }

  /** With unique emails, the lookup finds the one user that has the email. */
  lemma {:induction false} FindByEmailUnique(users: seq<User>, u: User)
    requires UniqueEmails(users) && u in users
    ensures FindByEmail(users, u.email) == Some(u)
  {
    if users[0] != u {
      assert users[0].email != u.email by {
        var k :| 0 <= k < |users| && users[k] == u;
      }
      assert UniqueEmails(users[1..]) by {
        forall i, j | 0 <= i < j < |users| - 1
          ensures users[1..][i].email != users[1..][j].email
        {
          assert users[1..][i] == users[i + 1] && users[1..][j] == users[j + 1];
        }
      }
      FindByEmailUnique(users[1..], u);
    }
  }

  /** Appending a user whose email no stored user has keeps emails unique. */
  lemma AppendKeepsEmailsUnique(users: seq<User>, u: User)
    requires UniqueEmails(users)
    requires forall v :: v in users ==> v.email != u.email
    ensures UniqueEmails(users + [u])
  {
    forall i, j | 0 <= i < j < |users| + 1
      ensures (users + [u])[i].email != (users + [u])[j].email
    {
      if j == |users| {
        assert (users + [u])[i] == users[i];
      }
    }
  }

  /** A user appended with a new email is found by that email. */
  lemma {:induction false} FindAppended(users: seq<User>, u: User)
    requires forall v :: v in users ==> v.email != u.email
    ensures FindByEmail(users + [u], u.email) == Some(u)
  {
    if users != [] {
      assert (users + [u])[1..] == users[1..] + [u];
      FindAppended(users[1..], u);
    }
  }

  // ---------------------------------------------------------------------------
  // Sign-in and sign-out: they read the collection and write only cookies.
  // ---------------------------------------------------------------------------

  datatype SignInInput = SignInInput(email: Option<string>, password: Option<string>)

  /** signIn: fields first, then the lookup, then the password; on success the
      session cookie is set and the user is returned without the password. */
  function SignIn(users: seq<User>, input: SignInInput, h: Hasher, issue: User -> string, production: bool)
    : (r: Reply<PublicUser>)
    ensures !Truthy(input.email) || !Truthy(input.password) ==>
              r == Reply(Raised(HttpError(400, AllFieldsRequired)), [])
    ensures Truthy(input.email) && Truthy(input.password) && (forall u :: u in users ==> u.email != input.email.value) ==>
              r == Reply(Raised(HttpError(404, UserNotFound)), [])
    ensures r.outcome.Raised? ==> r.cookies == []
    ensures r.outcome.Done? ==>
              && Truthy(input.email) && Truthy(input.password)
              && FindByEmail(users, input.email.value).Some?
              && var u := FindByEmail(users, input.email.value).value;
              && h.compare(input.password.value, u.password)
              && r == Reply(Done(200, UserLoggedIn, WithoutPassword(u)), [SetCookie(SessionCookie(issue(u), production))])
    ensures StatusCode(r.outcome) == 401 <==>
              && Truthy(input.email) && Truthy(input.password)
              && FindByEmail(users, input.email.value).Some?
              && !h.compare(input.password.value, FindByEmail(users, input.email.value).value.password)
  {
    if !Truthy(input.email) || !Truthy(input.password) then
      Reply(Raised(HttpError(400, AllFieldsRequired)), [])
    else
      match FindByEmail(users, input.email.value)
      case None => Reply(Raised(HttpError(404, UserNotFound)), [])
      case Some(u) =>
        if !h.compare(input.password.value, u.password) then
          Reply(Raised(HttpError(401, InvalidPassword)), [])
        else
          Reply(Done(200, UserLoggedIn, WithoutPassword(u)), [SetCookie(SessionCookie(issue(u), production))])
  }

  /** With unique emails, sign-in for a stored user's email succeeds exactly when
      compare accepts the password against that user's hash, and fails with 401
      otherwise. */
  lemma SignInKnownUser(users: seq<User>, u: User, password: string, h: Hasher, issue: User -> string, production: bool)
    requires UniqueEmails(users) && u in users && u.email != "" && password != ""
    ensures var r := SignIn(users, SignInInput(Some(u.email), Some(password)), h, issue, production);
            && (r.outcome.Done? <==> h.compare(password, u.password))
            && (r.outcome.Done? ==> r.outcome.data == WithoutPassword(u))
            && (r.outcome.Raised? ==> StatusCode(r.outcome) == 401)
  {
    FindByEmailUnique(users, u);
  }

  /** signOut: always 200, and the session cookie is cleared. */
  function SignOut(): (r: Reply<()>)
    ensures StatusCode(r.outcome) == 200
    ensures ClearCookie(TokenCookie) in r.cookies && |r.cookies| == 1
  {
    Reply(Done(200, UserSignedOut, ()), [ClearCookie(TokenCookie)])
  }

  // ---------------------------------------------------------------------------
  // Sign-up: inserts into the collection.
  // ---------------------------------------------------------------------------

  datatype SignUpInput = SignUpInput(
    firstName: Option<string>,
    lastName: Option<string>,
    email: Option<string>,
    password: Option<string>)

  predicate Complete(input: SignUpInput)
  {
    Truthy(input.firstName) && Truthy(input.lastName) && Truthy(input.email) && Truthy(input.password)
  }

  /** The user a sign-up stores, with the hash in place of the password. */
  function NewUser(input: SignUpInput, hashed: string, id: UserId, now: nat): User
    requires Complete(input)
  {
    User(id, input.firstName.value, input.lastName.value, input.email.value, hashed, now, now)
  }

  /** Signing in with the credentials just used to sign up succeeds, returns the
      new user without its password and sets the session cookie. */
  lemma SignInAfterSignUp(users: seq<User>, input: SignUpInput, h: Hasher, nonce: string, id: UserId, now: nat,
                          issue: User -> string, production: bool)
    requires Sound(h) && Complete(input)
    requires forall v :: v in users ==> v.email != input.email.value
    ensures var u := NewUser(input, h.hash(input.password.value, Salt(SaltRounds, nonce)), id, now);
            SignIn(users + [u], SignInInput(input.email, input.password), h, issue, production)
            == Reply(Done(200, UserLoggedIn, WithoutPassword(u)), [SetCookie(SessionCookie(issue(u), production))])
  {
    var u := NewUser(input, h.hash(input.password.value, Salt(SaltRounds, nonce)), id, now);
    FindAppended(users, u);
  }

  class UserCollection {
    var users: seq<User>  // natural order of the collection
    var nextId: UserId    // the id the next saved user receives
    var clock: nat        // the next timestamp

    ghost predicate Valid()
      reads this
    {
      && UniqueEmails(users)
      && forall i :: 0 <= i < |users| ==>
           users[i].id < nextId && users[i].createdAt <= users[i].updatedAt < clock
    }

    constructor ()
      ensures Valid() && users == []
    {
      users, nextId, clock := [], 0, 0;
    }

    /** signUp: fields first, then the email's uniqueness, then the hash with a
        fresh salt of cost 10; the password itself is never stored. */
    method SignUp(input: SignUpInput, h: Hasher, nonce: string) returns (r: Outcome<()>)
      requires Valid()
      modifies this
      ensures Valid()
      ensures !Complete(input) ==> r == Raised(HttpError(400, AllFieldsRequired)) && unchanged(this)
      ensures Complete(input) && (exists u :: u in old(users) && u.email == input.email.value) ==>
                r == Raised(HttpError(400, EmailExists)) && unchanged(this)
      ensures Complete(input) && (forall u :: u in old(users) ==> u.email != input.email.value) ==>
                && r == Done(201, UserCreated, ())
                && users == old(users) + [NewUser(input, h.hash(input.password.value, Salt(SaltRounds, nonce)),
                                                  old(nextId), old(clock))]
                && nextId == old(nextId) + 1 && clock == old(clock) + 1
    {
      if !Complete(input) {
        return Raised(HttpError(400, AllFieldsRequired));
      }
      if FindByEmail(users, input.email.value).Some? {
        return Raised(HttpError(400, EmailExists));
      }
      var hashed := h.hash(input.password.value, Salt(SaltRounds, nonce));
      var user := NewUser(input, hashed, nextId, clock);
      AppendKeepsEmailsUnique(users, user);
      users := users + [user];
      nextId := nextId + 1;
      clock := clock + 1;
      r := Done(201, UserCreated, ());
    }
  }
}

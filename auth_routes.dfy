/** The credential and session routes: `POST /signup`, `POST /login`,
    `POST /logout` and `GET /protected`, over the `users` collection. */
module AuthRoutes {
  import opened Json
  import opened Tokens
  import opened ObjectIds

  /** A document of the `users` collection; `password` holds the bcrypt hash. */
  datatype User = User(username: string, password: string)

  /** The `{ username, password }` body of a signup or login. */
  datatype Credentials = Credentials(username: Option<string>, password: Option<string>)

  /** What a response does to the browser's `token` cookie. */
  datatype CookieOp = KeepCookie | SetToken(token: string, maxAgeMs: nat) | ClearToken

  /** A status, the `message` of the JSON body, the cookie operation, and
      the decoded token that `/protected` echoes as `user`. */
  datatype Response = Response(status: nat, message: string, cookie: CookieOp, user: Option<Decoded>)

  const RequiredFields := "Username and password are required."
  const UsernameExists := "Username already exists."
  const UserCreated := "User created successfully."
  const InvalidCredentials := "Invalid credentials."
  const LoginSuccessful := "Login successful."
  const LoggedOut := "Logged out successfully."
  const NoTokenProvided := "Access denied. No token provided."
  const InvalidToken := "Invalid token."
  const ProtectedAccessed := "Protected data accessed."
  const InternalError := "Internal server error."

  function Reply(status: nat, message: string): Response
  {
    Response(status, message, KeepCookie, None)
  }

  /** `users.findOne({ username })` finds a document. */
  predicate HasUser(users: map<ObjectId, User>, username: string)
  {
    exists id :: id in users && users[id].username == username
  }

  /** No two users share a username: what the signup check establishes when
      requests are served one at a time. */
  ghost predicate UniqueUsernames(users: map<ObjectId, User>)
  {
    forall a, b :: a in users && b in users && users[a].username == users[b].username ==> a == b
  }

  /** The claims a login signs for user `id`. */
  function LoginClaims(id: ObjectId, user: User): Claims
  {
    Claims(Some(id), Some(user.username))
  }

  /** `POST /logout`: whatever the request carries, the cookie is cleared. */
  function Logout(): (r: Response)
    ensures r.status == 200 && r.cookie == ClearToken && r.message == LoggedOut
  {
    Response(200, LoggedOut, ClearToken, None)
  }

  /** `GET /protected`: a pure decision on the cookie, the secret and the clock.
      Unlike the sheet routes it does not look at the `userId` claim. */
  function Protected(token: Option<string>, jwt: Jwt, secret: string, nowMs: nat): (r: Response)
    ensures !Present(token) ==> r == Reply(401, NoTokenProvided)
    ensures Present(token) && jwt.verify(token.value, secret, nowMs).None? ==> r == Reply(401, InvalidToken)
    ensures r.status == 200 <==> Present(token) && jwt.verify(token.value, secret, nowMs).Some?
    ensures r.status == 200 ==> r.user == jwt.verify(token.value, secret, nowMs) && r.cookie == KeepCookie
  {
    if !Present(token) then
      Reply(401, NoTokenProvided)
    else
      match jwt.verify(token.value, secret, nowMs)
      case None => Reply(401, InvalidToken)
      case Some(decoded) => Response(200, ProtectedAccessed, KeepCookie, Some(decoded))
  }

  /** A token a login issued at `issuedMs` opens `/protected` exactly until
      the hour is over, and shows the user's own claims. */
  lemma ProtectedAcceptsIssuedToken(jwt: Jwt, secret: string, c: Claims, issuedMs: nat, nowMs: nat)
    requires Sound(jwt)
    ensures var r := Protected(Some(jwt.sign(c, secret, Seconds(issuedMs))), jwt, secret, nowMs);
      && (r.status == 200 <==> nowMs < TokenExpiryMs(issuedMs))
      && (r.status == 200 ==> r.user == Some(Decoded(c, Seconds(issuedMs), Seconds(issuedMs) + TokenLifetimeSeconds)))
      && (r.status != 200 ==> r == Reply(401, InvalidToken))
  {
    var iat := Seconds(issuedMs);
    assert jwt.sign(c, secret, iat) != "";
    var v := jwt.verify(jwt.sign(c, secret, iat), secret, nowMs);
    ExpiryInMilliseconds(issuedMs, nowMs);
  }

  /** The seconds comparison the token library makes is the milliseconds
      comparison against `TokenExpiryMs`. */
  lemma ExpiryInMilliseconds(issuedMs: nat, nowMs: nat)
    ensures Seconds(nowMs) < Seconds(issuedMs) + TokenLifetimeSeconds <==> nowMs < TokenExpiryMs(issuedMs)
  {
  }

  /** The route handlers that touch the `users` collection. The signing
      secret and the two libraries are fixed when the router is built. */
  class AuthRouter {
    var users: map<ObjectId, User>
    const jwt: Jwt
    const bcrypt: Bcrypt
    const secret: string

    ghost predicate Valid()
      reads this
    {
      UniqueUsernames(users)
    }

    constructor (jwt: Jwt, bcrypt: Bcrypt, secret: string)
      ensures Valid() && users == map[]
      ensures this.jwt == jwt && this.bcrypt == bcrypt && this.secret == secret
    {
      this.users := map[];
      this.jwt := jwt;
      this.bcrypt := bcrypt;
      this.secret := secret;
    }

    /** `POST /signup`. `newId` is the `_id` the driver generates for the
        insert and `salt` the randomness of `bcrypt.hash`; an `_id` already
        taken is the duplicate-key error the route answers with 500. */
    method Signup(body: Credentials, newId: ObjectId, salt: nat) returns (r: Response)
      requires Valid()
      modifies this
      ensures Valid()
      ensures !Present(body.username) || !Present(body.password) ==>
        r == Reply(400, RequiredFields) && users == old(users)
      ensures Present(body.username) && Present(body.password) && HasUser(old(users), body.username.value) ==>
        r == Reply(400, UsernameExists) && users == old(users)
      ensures Present(body.username) && Present(body.password) && !HasUser(old(users), body.username.value) ==>
        if newId in old(users) then
          r == Reply(500, InternalError) && users == old(users)
        else
          r == Reply(201, UserCreated)
          && users == old(users)[newId := User(body.username.value, bcrypt.hash(body.password.value, salt))]
    {
      if !Present(body.username) || !Present(body.password) {
        return Reply(400, RequiredFields);
      }
      var username, password := body.username.value, body.password.value;
      if HasUser(users, username) {
        return Reply(400, UsernameExists);
      }
      var hashed := bcrypt.hash(password, salt);
      if newId in users {
        return Reply(500, InternalError);
      }
      users := users[newId := User(username, hashed)];
      r := Reply(201, UserCreated);
    }

    /** `POST /login`. An unknown username and a wrong password give the very
        same answer; a match signs `{ userId, username }` at the current
        second and sets it as the `token` cookie for an hour. */
    method Login(body: Credentials, nowMs: nat) returns (r: Response)
      requires Valid()
      ensures !Present(body.username) || !Present(body.password) ==> r == Reply(400, RequiredFields)
      ensures Present(body.username) && Present(body.password) && !HasUser(users, body.username.value) ==>
        r == Reply(400, InvalidCredentials)
      ensures Present(body.username) && Present(body.password) ==>
        forall id :: id in users && users[id].username == body.username.value ==>
          if bcrypt.compare(body.password.value, users[id].password) then
            r == Response(200, LoginSuccessful,
                          SetToken(jwt.sign(LoginClaims(id, users[id]), secret, Seconds(nowMs)), CookieMaxAgeMs), None)
          else
            r == Reply(400, InvalidCredentials)
    {
      if !Present(body.username) || !Present(body.password) {
        return Reply(400, RequiredFields);
      }
      var username, password := body.username.value, body.password.value;
      if !HasUser(users, username) {
        return Reply(400, InvalidCredentials);
      }
      var id :| id in users && users[id].username == username;
      var user := users[id];
      if !bcrypt.compare(password, user.password) {
        return Reply(400, InvalidCredentials);
      }
      var token := jwt.sign(LoginClaims(id, user), secret, Seconds(nowMs));
      r := Response(200, LoginSuccessful, SetToken(token, CookieMaxAgeMs), None);
    }
  }

  /** Signing up and then logging in with the same password succeeds, and the
      cookie it sets carries a token that verifies to the new user's
      `{ userId, username }` until the hour is over, and not after. */
  method SignupThenLogin(router: AuthRouter, username: string, password: string,
                         newId: ObjectId, salt: nat, nowMs: nat, laterMs: nat)
    returns (signedUp: Response, loggedIn: Response)
    requires router.Valid() && HashSound(router.bcrypt) && Sound(router.jwt)
    requires username != "" && password != ""
    requires !HasUser(router.users, username) && newId !in router.users
    modifies router
    ensures router.Valid()
    ensures signedUp.status == 201 && loggedIn.status == 200 && loggedIn.cookie.SetToken?
    ensures var decoded := router.jwt.verify(loggedIn.cookie.token, router.secret, laterMs);
      if laterMs < TokenExpiryMs(nowMs) then
        decoded == Some(Decoded(Claims(Some(newId), Some(username)), Seconds(nowMs), Seconds(nowMs) + TokenLifetimeSeconds))
      else
        decoded == None
  {
    var credentials := Credentials(Some(username), Some(password));
    signedUp := router.Signup(credentials, newId, salt);
    assert router.users[newId] == User(username, router.bcrypt.hash(password, salt));
    assert router.bcrypt.compare(password, router.users[newId].password);
    loggedIn := router.Login(credentials, nowMs);
    ExpiryInMilliseconds(nowMs, laterMs);
  }
}

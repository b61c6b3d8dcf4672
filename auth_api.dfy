/**
 * The authentication endpoint: registration and login against a user table
 * kept in process memory. Password hashing and token signing are oracles;
 * comparing a password with a stored hash means hashing it and comparing.
 */
module AuthApi {
  import opened Types

  /** A registered account. */
  datatype UserRecord = UserRecord(email: string, password: string, members: seq<Member>)

  /** A request with its body already decoded. */
  datatype AuthRequest = AuthRequest(httpMethod: string, action: string, email: string, password: string)

  datatype AuthBody = TokenIssued(token: string, email: string) | AuthError(error: string)

  datatype AuthResponse = AuthResponse(statusCode: int, body: AuthBody)

  /** Accounts keyed by e-mail address. */
  type Users = map<string, UserRecord>

  const MethodNotAllowed: AuthResponse := AuthResponse(405, AuthError("Method not allowed"))
  const UserExists: AuthResponse := AuthResponse(400, AuthError("User already exists"))
  const UserNotFound: AuthResponse := AuthResponse(400, AuthError("User not found"))
  const InvalidPassword: AuthResponse := AuthResponse(400, AuthError("Invalid password"))
  const InvalidAction: AuthResponse := AuthResponse(400, AuthError("Invalid action"))

  /**
   * Property names every plain object inherits from `Object.prototype`:
   * looking one up in the user table yields a truthy value even though no
   * account was ever stored under it.
   */
  const InheritedNames: set<string> := {
    "constructor", "__proto__", "toString", "toLocaleString", "valueOf",
    "hasOwnProperty", "isPrototypeOf", "propertyIsEnumerable",
    "__defineGetter__", "__defineSetter__", "__lookupGetter__", "__lookupSetter__"
  }

  /** `users[email]` is truthy: an account is stored under `email`, or the name is inherited. */
  predicate Taken(users: Users, email: string) {
    email in users || email in InheritedNames
  }

  /** No account is stored under an inherited name. */
  predicate OwnKeysOnly(users: Users) {
    forall e :: e in users ==> e !in InheritedNames
  }

  /** `bcrypt.compare(password, stored)` for the hash oracle `hash`. */
  predicate PasswordMatches(hash: string -> string, password: string, stored: string) {
    hash(password) == stored
  }

  /**
   * The handler as a function of the user table and the request: the new
   * table and the response. `hash` stands for password hashing and `sign`
   * for issuing a token for an e-mail address.
   */
  function AuthStep(users: Users, req: AuthRequest, hash: string -> string, sign: string -> string)
    : (r: (Users, AuthResponse))
    ensures req.httpMethod != "POST" ==> r == (users, MethodNotAllowed)
    // only a registration changes the table, and only by adding the new address
    ensures req.action != "register" ==> r.0 == users
    ensures r.0 != users ==>
      && req.action == "register" && !Taken(users, req.email)
      && r.0 == users[req.email := UserRecord(req.email, hash(req.password), [])]
    // a token is only ever issued for the request's address
    ensures r.1.statusCode == 200 <==> r.1.body == TokenIssued(sign(req.email), req.email)
    ensures r.1.statusCode in {200, 400, 405}
  {
    if req.httpMethod != "POST" then (users, MethodNotAllowed)
    else if req.action == "register" then
      if Taken(users, req.email) then (users, UserExists)
      else
        var hashedPassword := hash(req.password);
        (users[req.email := UserRecord(req.email, hashedPassword, [])],
         AuthResponse(200, TokenIssued(sign(req.email), req.email)))
    else if req.action == "login" then
      if req.email !in users then (users, UserNotFound)
      else if !PasswordMatches(hash, req.password, users[req.email].password) then (users, InvalidPassword)
      else (users, AuthResponse(200, TokenIssued(sign(req.email), req.email)))
    else (users, InvalidAction)
  }

  /** Registering a taken address, or an inherited property name, is refused with 400 and changes nothing. */
  lemma RegisterExisting(users: Users, req: AuthRequest, hash: string -> string, sign: string -> string)
    requires req.httpMethod == "POST" && req.action == "register" && Taken(users, req.email)
    ensures AuthStep(users, req, hash, sign) == (users, UserExists)
  {
  }

  /** Registering a new address adds exactly that account, with the hashed password and no members. */
  lemma RegisterNew(users: Users, req: AuthRequest, hash: string -> string, sign: string -> string)
    requires req.httpMethod == "POST" && req.action == "register" && !Taken(users, req.email)
    ensures var (u, resp) := AuthStep(users, req, hash, sign);
      && u.Keys == users.Keys + {req.email}
      && u[req.email] == UserRecord(req.email, hash(req.password), [])
      && (forall e :: e in users ==> u[e] == users[e])
      && resp == AuthResponse(200, TokenIssued(sign(req.email), req.email))
  {
  }

  /** Login never changes the table; it fails for an unknown address or a wrong password. */
  lemma LoginOutcomes(users: Users, req: AuthRequest, hash: string -> string, sign: string -> string)
    requires req.httpMethod == "POST" && req.action == "login"
    ensures var (u, resp) := AuthStep(users, req, hash, sign);
      && u == users
      && (req.email !in users ==> resp == UserNotFound)
      && (req.email in users && hash(req.password) != users[req.email].password ==> resp == InvalidPassword)
      && (req.email in users && hash(req.password) == users[req.email].password ==>
            resp == AuthResponse(200, TokenIssued(sign(req.email), req.email)))
  {
  }

  /** An action other than register or login is refused with 400. */
  lemma UnknownAction(users: Users, req: AuthRequest, hash: string -> string, sign: string -> string)
    requires req.httpMethod == "POST" && req.action != "register" && req.action != "login"
    ensures AuthStep(users, req, hash, sign) == (users, InvalidAction)
  {
  }

  /** After registering, logging in with the same address and password succeeds; any password with another hash fails. */
  lemma RegisterThenLogin(users: Users, email: string, password: string, other: string,
                          hash: string -> string, sign: string -> string)
    requires !Taken(users, email)
    ensures var u := AuthStep(users, AuthRequest("POST", "register", email, password), hash, sign).0;
      && AuthStep(u, AuthRequest("POST", "login", email, password), hash, sign).1.statusCode == 200
      && (hash(other) != hash(password) ==>
            AuthStep(u, AuthRequest("POST", "login", email, other), hash, sign).1 == InvalidPassword)
  {
  }

  /** The table never gains an account under an inherited name, so a login for one is always "User not found". */
  lemma StepKeepsOwnKeysOnly(users: Users, req: AuthRequest, hash: string -> string, sign: string -> string)
    requires OwnKeysOnly(users)
    ensures OwnKeysOnly(AuthStep(users, req, hash, sign).0)
    ensures req.httpMethod == "POST" && req.action == "login" && req.email in InheritedNames ==>
      AuthStep(users, req, hash, sign).1 == UserNotFound
  {
  }

  /** The module-level user table and the handler that updates it in place. */
  class AuthHandler {
    /** `bcrypt.hash`, taken as a deterministic function of the password. */
    const hash: string -> string
    /** `jwt.sign({ email })` under the server's secret. */
    const sign: string -> string
    var users: Users

    /** Accounts are only ever stored under own property names. */
    predicate Valid()
      reads this
    {
      OwnKeysOnly(users)
    }

    constructor (hash: string -> string, sign: string -> string)
      ensures this.hash == hash && this.sign == sign && users == map[]
      ensures Valid()
    {
      this.hash := hash;
      this.sign := sign;
      users := map[];
    }

    /** Handles one request, adding an account to the table on a successful registration. */
    method Handle(req: AuthRequest) returns (resp: AuthResponse)
      requires Valid()
      modifies this`users
      ensures Valid()
      ensures (users, resp) == AuthStep(old(users), req, hash, sign)
    {
      StepKeepsOwnKeysOnly(users, req, hash, sign);
      if req.httpMethod != "POST" {
        return MethodNotAllowed;
      }

      if req.action == "register" {
        if req.email in users || req.email in InheritedNames {
          return UserExists;
        }
        var hashedPassword := hash(req.password);
        users := users[req.email := UserRecord(req.email, hashedPassword, [])];
        var token := sign(req.email);
        return AuthResponse(200, TokenIssued(token, req.email));
      }

      if req.action == "login" {
        if req.email !in users {
          return UserNotFound;
        }
        var user := users[req.email];
        var valid := PasswordMatches(hash, req.password, user.password);
        if !valid {
          return InvalidPassword;
        }
        var token := sign(req.email);
        return AuthResponse(200, TokenIssued(token, req.email));
      }

      return InvalidAction;
    }
  }
}

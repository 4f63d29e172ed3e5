/**
 * Registration and login (server/routes/user_routes.py): early-return validation chains over
 * the issuer and verifier collections. The JSON body is a map from keys to strings (`None`
 * when the body is not JSON); the password hash, the password check and the JWT are inputs.
 *
 * The route imports `get_verifier_by_email` from server/models/verifier_model.py, which does
 * not define it; the model reads it as the email lookup on the verifier collection that the
 * issuer counterpart performs.
 */
module UserRoutes {
  import opened Wrappers
  import opened AccountModel
  import opened UploadRules
  import opened Store

  type Payload = Option<map<string, string>>

  /** `data.get(key)`. */
  function Field(body: map<string, string>, key: string): Option<string> {
    if key in body then Some(body[key]) else None
  }

  /** `not data`: no JSON body, or an empty object. */
  predicate NoData(p: Payload) {
    p.None? || p.value == map[]
  }

  predicate ValidRole(role: string) {
    role == "issuer" || role == "verifier"
  }

  /** The collection a role reads and writes. */
  function Collection(role: string, issuers: seq<Account>, verifiers: seq<Account>): seq<Account> {
    if role == "issuer" then issuers else verifiers
  }

  datatype RegisterCheck =
    | RegisterRejected(code: nat, error: string)
    | RegisterValid(name: string, email: string, password: string, role: string, institution: string)

  /**
   * The checks of register_user, in order: a body, all four fields, a known role, then no
   * account with that email in the chosen role's collection only. All failures are 400.
   */
  function CheckRegistration(p: Payload, issuers: seq<Account>, verifiers: seq<Account>): (c: RegisterCheck)
    ensures NoData(p) ==> c == RegisterRejected(400, "No data provided")
    ensures !NoData(p) && !(Given(Field(p.value, "name")) && Given(Field(p.value, "email"))
                            && Given(Field(p.value, "password")) && Given(Field(p.value, "role"))) ==>
      c == RegisterRejected(400, "All fields (name, email, password, role) are required")
    ensures c.RegisterValid? <==>
      && !NoData(p)
      && Given(Field(p.value, "name")) && Given(Field(p.value, "email"))
      && Given(Field(p.value, "password")) && Given(Field(p.value, "role"))
      && ValidRole(p.value["role"])
      && FindAccountByEmail(Collection(p.value["role"], issuers, verifiers), p.value["email"]).None?
    ensures c.RegisterValid? ==>
      && c.name == p.value["name"] && c.email == p.value["email"] && c.password == p.value["password"]
      && c.role == p.value["role"]
      && c.institution == (if Given(Field(p.value, "institution")) then p.value["institution"] else "")
    ensures c.RegisterRejected? ==> c.code == 400
  {
    if NoData(p) then RegisterRejected(400, "No data provided")
    else
      var body := p.value;
      if !(Given(Field(body, "name")) && Given(Field(body, "email"))
           && Given(Field(body, "password")) && Given(Field(body, "role"))) then
        RegisterRejected(400, "All fields (name, email, password, role) are required")
      else if !ValidRole(body["role"]) then
        RegisterRejected(400, "Role must be either 'issuer' or 'verifier'")
      else if body["role"] == "issuer" && FindAccountByEmail(issuers, body["email"]).Some? then
        RegisterRejected(400, "Issuer with this email already exists")
      else if body["role"] == "verifier" && FindAccountByEmail(verifiers, body["email"]).Some? then
        RegisterRejected(400, "Verifier with this email already exists")
      else
        var institution := if Given(Field(body, "institution")) then body["institution"] else "";
        RegisterValid(body["name"], body["email"], body["password"], body["role"], institution)
  }

  datatype RegisterResponse =
    | RegisterError(code: nat, error: string)
    | Registered(message: string, id: string, role: string)

  /** `role.capitalize()` for the two roles that reach it. */
  function Capitalized(role: string): string {
    if role == "issuer" then "Issuer" else "Verifier"
  }

  /**
   * POST /register: a rejected request changes nothing; an accepted one inserts one account
   * into its role's collection and answers 201 with the new id and the role echoed back.
   */
  method RegisterUser(db: Mongo, p: Payload, passwordHash: string, newId: string) returns (resp: RegisterResponse)
    modifies db
    ensures CheckRegistration(p, old(db.issuers), old(db.verifiers)).RegisterRejected? ==>
      && resp == RegisterError(400, CheckRegistration(p, old(db.issuers), old(db.verifiers)).error)
      && unchanged(db)
    ensures CheckRegistration(p, old(db.issuers), old(db.verifiers)).RegisterValid? ==>
      var c := CheckRegistration(p, old(db.issuers), old(db.verifiers));
      && resp == Registered(Capitalized(c.role) + " registered successfully", newId, c.role)
      && (c.role == "issuer" ==>
            db.issuers == old(db.issuers) + [NewIssuer(newId, c.name, c.email, passwordHash, c.institution)]
            && db.verifiers == old(db.verifiers))
      && (c.role == "verifier" ==>
            db.verifiers == old(db.verifiers) + [NewVerifier(newId, c.name)] && db.issuers == old(db.issuers))
      && db.documents == old(db.documents) && db.institutes == old(db.institutes)
  {
    var c := CheckRegistration(p, db.issuers, db.verifiers);
    if c.RegisterRejected? {
      return RegisterError(400, c.error);
    }
    if c.role == "issuer" {
      db.InsertIssuer(NewIssuer(newId, c.name, c.email, passwordHash, c.institution));
    } else {
      db.InsertVerifier(NewVerifier(newId, c.name));
    }
    resp := Registered(Capitalized(c.role) + " registered successfully", newId, c.role);
  }

  /** Email lookup is unaffected by a registered verifier, whose record keeps no email. */
  lemma VerifierRecordInvisibleToEmailLookup(verifiers: seq<Account>, id: string, name: string, email: string)
    ensures FindAccountByEmail(verifiers + [NewVerifier(id, name)], email) == FindAccountByEmail(verifiers, email)
  {
    FirstIndexAppend(verifiers, NewVerifier(id, name), (a: Account) => a.email == Some(email));
  }

  /**
   * The verifier duplicate check never fires for verifiers registered through this route:
   * registering the same request again is accepted again.
   */
  lemma VerifierDuplicateCheckNeverFires(p: Payload, issuers: seq<Account>, verifiers: seq<Account>, id: string)
    requires CheckRegistration(p, issuers, verifiers).RegisterValid?
    requires CheckRegistration(p, issuers, verifiers).role == "verifier"
    ensures CheckRegistration(p, issuers, verifiers + [NewVerifier(id, p.value["name"])]).RegisterValid?
  {
    VerifierRecordInvisibleToEmailLookup(verifiers, id, p.value["name"], p.value["email"]);
  }

  /** The issuer duplicate check does fire: a registered issuer's email is rejected next time. */
  lemma IssuerDuplicateRejected(p: Payload, issuers: seq<Account>, verifiers: seq<Account>, id: string, hash: string)
    requires CheckRegistration(p, issuers, verifiers).RegisterValid?
    requires CheckRegistration(p, issuers, verifiers).role == "issuer"
    ensures var c := CheckRegistration(p, issuers, verifiers);
      CheckRegistration(p, issuers + [NewIssuer(id, c.name, c.email, hash, c.institution)], verifiers)
        == RegisterRejected(400, "Issuer with this email already exists")
  {
    var c := CheckRegistration(p, issuers, verifiers);
    FirstIndexAppend(issuers, NewIssuer(id, c.name, c.email, hash, c.institution), (a: Account) => a.email == Some(c.email));
  }

  /** One email can hold an issuer account and a verifier account: the check is per role. */
  lemma SameEmailBothRoles(p: Payload, issuers: seq<Account>, verifiers: seq<Account>, q: Payload)
    requires CheckRegistration(p, issuers, verifiers).RegisterValid?
    requires p.value["role"] == "issuer"
    requires q == Some(p.value["role" := "verifier"])
    requires FindAccountByEmail(verifiers, p.value["email"]).None?
    ensures CheckRegistration(q, issuers + [NewIssuer("", p.value["name"], p.value["email"], "", "")], verifiers).RegisterValid?
  {
    assert Field(q.value, "role") == Some("verifier");
    assert forall k :: k != "role" ==> Field(q.value, k) == Field(p.value, k);
    assert q.value != map[];
  }

  datatype LoginResponse =
    | LoginError(code: nat, error: string)
    | LoggedIn(message: string, accessToken: string, role: string, userId: string, name: string,
               email: string, institution: string)

  /** A login body with all three fields and a known role. */
  predicate LoginRequest(p: Payload) {
    !NoData(p) && Given(Field(p.value, "email")) && Given(Field(p.value, "password"))
    && Given(Field(p.value, "role")) && ValidRole(p.value["role"])
  }

  /** The account a well-formed login body names: the first with its email in its role's collection. */
  function StoredLogin(p: Payload, issuers: seq<Account>, verifiers: seq<Account>): Option<Account>
    requires LoginRequest(p)
  {
    FindAccountByEmail(Collection(p.value["role"], issuers, verifiers), p.value["email"])
  }

  /**
   * POST /login: 400 for no body, a missing field or an unknown role, 404 when the role's
   * collection has no such email, 500 when the record has no password (the route's key
   * lookup raises), 401 on a wrong password, else 200 with the requested role.
   * `passwordMatches(stored, given)` is the hash check, `token` the issued JWT.
   */
  function LoginUser(p: Payload, issuers: seq<Account>, verifiers: seq<Account>,
                     passwordMatches: (string, string) -> bool, token: string): (r: LoginResponse)
    ensures NoData(p) ==> r == LoginError(400, "No data provided")
    ensures !NoData(p) && !(Given(Field(p.value, "email")) && Given(Field(p.value, "password"))
                            && Given(Field(p.value, "role"))) ==>
      r == LoginError(400, "Email, password, and role are required")
    ensures !NoData(p) && Given(Field(p.value, "email")) && Given(Field(p.value, "password"))
            && Given(Field(p.value, "role")) && !ValidRole(p.value["role"]) ==>
      r == LoginError(400, "Role must be either 'issuer' or 'verifier'")
    ensures !NoData(p) && Given(Field(p.value, "email")) && Given(Field(p.value, "password"))
            && Given(Field(p.value, "role")) && ValidRole(p.value["role"])
            && FindAccountByEmail(Collection(p.value["role"], issuers, verifiers), p.value["email"]).None? ==>
      r == LoginError(404, "User not found")
    ensures r.LoggedIn? <==>
      && !NoData(p) && Given(Field(p.value, "email")) && Given(Field(p.value, "password"))
      && Given(Field(p.value, "role")) && ValidRole(p.value["role"])
      && var user := FindAccountByEmail(Collection(p.value["role"], issuers, verifiers), p.value["email"]);
         user.Some? && user.value.password.Some? && passwordMatches(user.value.password.value, p.value["password"])
    ensures LoginRequest(p) && StoredLogin(p, issuers, verifiers).Some?
            && StoredLogin(p, issuers, verifiers).value.password.None? ==>
      r == LoginError(500, "Internal server error occurred during login")
    ensures LoginRequest(p) && StoredLogin(p, issuers, verifiers).Some?
            && StoredLogin(p, issuers, verifiers).value.password.Some?
            && !passwordMatches(StoredLogin(p, issuers, verifiers).value.password.value, p.value["password"]) ==>
      r == LoginError(401, "Invalid password")
    ensures r.LoggedIn? ==> r.role == p.value["role"] && r.email == p.value["email"] && r.accessToken == token
    ensures r.LoginError? ==> r.code in {400, 401, 404, 500}
  {
    if NoData(p) then LoginError(400, "No data provided")
    else
      var body := p.value;
      if !(Given(Field(body, "email")) && Given(Field(body, "password")) && Given(Field(body, "role"))) then
        LoginError(400, "Email, password, and role are required")
      else if !ValidRole(body["role"]) then
        LoginError(400, "Role must be either 'issuer' or 'verifier'")
      else
        match FindAccountByEmail(Collection(body["role"], issuers, verifiers), body["email"])
        case None => LoginError(404, "User not found")
        case Some(user) =>
          if user.password.None? then LoginError(500, "Internal server error occurred during login")
          else if !passwordMatches(user.password.value, body["password"]) then LoginError(401, "Invalid password")
          else LoggedIn("Login successful", token, body["role"], user.id, user.name.GetOr(""), body["email"],
                        user.institution.GetOr(""))
  }

  /** A verifier registered through this route can never log in: the lookup by email finds nothing. */
  lemma RegisteredVerifiersCannotLogIn(p: Payload, issuers: seq<Account>, verifiers: seq<Account>,
                                       passwordMatches: (string, string) -> bool, token: string)
    requires forall a :: a in verifiers ==> a.email.None?
    requires !NoData(p) && Given(Field(p.value, "email")) && Given(Field(p.value, "password"))
    requires Field(p.value, "role") == Some("verifier")
    ensures LoginUser(p, issuers, verifiers, passwordMatches, token) == LoginError(404, "User not found")
  {
  }
}

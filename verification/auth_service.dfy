/**
 * The client session manager (client/src/services/AuthService.js): one in-memory user slot
 * and the 'currentUser' storage key. The server calls are parameters from request to reply;
 * a reply that throws carries the error's message ("" for none).
 */
module AuthService {
  import opened Wrappers
  import opened Text
  import opened BrowserStorage
  import opened AccountModel
  import UserRoutes

  const CurrentUserKey := "currentUser"

  /** The login request body: `{email, password, role: userType}`. */
  datatype LoginRequest = LoginRequest(email: Option<string>, password: Option<string>, userType: Option<string>)

  datatype LoginReply =
    | LoginThrew(message: string)
    | LoginReplied(user: Option<JsObject>, role: Option<string>, accessToken: Option<string>)

  datatype AuthResult = AuthOk(user: JsObject) | AuthFailed(error: string)

  /** `error.message || fallback`. */
  function ErrorText(message: string, fallback: string): (r: string)
    ensures message != "" ==> r == message
    ensures message == "" ==> r == fallback
  {
    if message != "" then message else fallback
  }

  /** The client record of a logged-in user: the server's user fields, its role as userType and its token. */
  function ClientUser(user: JsObject, role: Option<string>, token: Option<string>): (u: JsObject)
    ensures u.Keys <= {"id", "name", "email", "userType", "institution", "token"}
    ensures Get(u, "userType") == role && Get(u, "token") == token
    ensures Get(u, "id") == Get(user, "id") && Get(u, "name") == Get(user, "name")
    ensures Get(u, "email") == Get(user, "email") && Get(u, "institution") == Get(user, "institution")
  {
    var u := Put(map[], "id", Get(user, "id"));
    var u := Put(u, "name", Get(user, "name"));
    var u := Put(u, "email", Get(user, "email"));
    var u := Put(u, "userType", role);
    var u := Put(u, "institution", Get(user, "institution"));
    Put(u, "token", token)
  }

  /** The result login returns for a reply. */
  function LoginResult(reply: LoginReply): (r: AuthResult)
    ensures reply.LoginThrew? ==> r == AuthFailed(ErrorText(reply.message, "Login failed"))
    ensures reply.LoginReplied? && reply.user.None? ==> r == AuthFailed("Invalid login response")
    ensures r.AuthOk? <==> reply.LoginReplied? && reply.user.Some?
    ensures r.AuthOk? ==> r.user == ClientUser(reply.user.value, reply.role, reply.accessToken)
  {
    match reply
    case LoginThrew(message) => AuthFailed(ErrorText(message, "Login failed"))
    case LoginReplied(user, role, token) =>
      if user.Some? then AuthOk(ClientUser(user.value, role, token)) else AuthFailed("Invalid login response")
  }

  datatype RegisterReply = RegisterThrew(message: string) | RegisterReplied

  class Session {
    var currentUser: Option<JsObject>
    const storage: LocalStorage

    constructor (storage: LocalStorage)
      ensures currentUser.None? && this.storage == storage
    {
      currentUser := None;
      this.storage := storage;
    }

    /**
     * login: a reply with a user stores the client record in memory and under 'currentUser';
     * any other reply leaves both as they were.
     */
    method Login(email: Option<string>, password: Option<string>, userType: Option<string>,
                 api: LoginRequest -> LoginReply)
      returns (r: AuthResult)
      modifies this, storage
      ensures r == LoginResult(api(LoginRequest(email, password, userType)))
      ensures r.AuthOk? ==>
        currentUser == Some(r.user) && storage.items == old(storage.items)[CurrentUserKey := Json(JObject(r.user))]
      ensures r.AuthFailed? ==> currentUser == old(currentUser) && storage.items == old(storage.items)
    {
      var reply := api(LoginRequest(email, password, userType));
      r := LoginResult(reply);
      if r.AuthOk? {
        currentUser := Some(r.user);
        storage.SetItem(CurrentUserKey, Json(JObject(r.user)));
      }
    }

    /**
     * register: a registration that throws returns its message or 'Registration failed'
     * and logs nobody in; otherwise the result is the automatic login's, with userType
     * falling back to userRole.
     */
    method Register(userData: JsObject, registerApi: JsObject -> RegisterReply, api: LoginRequest -> LoginReply)
      returns (r: AuthResult)
      modifies this, storage
      ensures registerApi(userData).RegisterThrew? ==>
        && r == AuthFailed(ErrorText(registerApi(userData).message, "Registration failed"))
        && currentUser == old(currentUser) && storage.items == old(storage.items)
      ensures registerApi(userData).RegisterReplied? ==>
        var request := LoginRequest(Get(userData, "email"), Get(userData, "password"),
                                    Or(Get(userData, "userType"), Get(userData, "userRole")));
        && r == LoginResult(api(request))
        && (r.AuthOk? ==>
              currentUser == Some(r.user) && storage.items == old(storage.items)[CurrentUserKey := Json(JObject(r.user))])
        && (r.AuthFailed? ==> currentUser == old(currentUser) && storage.items == old(storage.items))
    {
      var registration := registerApi(userData);
      if registration.RegisterThrew? {
        return AuthFailed(ErrorText(registration.message, "Registration failed"));
      }
      var userType := Or(Get(userData, "userType"), Get(userData, "userRole"));
      r := Login(Get(userData, "email"), Get(userData, "password"), userType, api);
    }

    /**
     * getCurrentUser: the in-memory user when there is one, without reading storage;
     * otherwise the stored object, which is then kept in memory. Text that does not parse
     * is removed from storage.
     */
    method GetCurrentUser() returns (u: Option<JsObject>)
      modifies this, storage
      ensures old(currentUser).Some? ==> u == old(currentUser) && storage.items == old(storage.items)
      ensures old(currentUser).None? ==> u == StoredObject(old(storage.items), CurrentUserKey)
      ensures currentUser == u
      ensures storage.items ==
        if old(currentUser).None? && Corrupt(old(storage.items), CurrentUserKey)
        then old(storage.items) - {CurrentUserKey} else old(storage.items)
    {
      if currentUser.Some? {
        return currentUser;
      }
      if CurrentUserKey in storage.items && storage.items[CurrentUserKey] != EmptyText {
        var stored := storage.items[CurrentUserKey];
        if stored.Malformed? {
          storage.RemoveItem(CurrentUserKey);
        } else {
          currentUser := if stored.value.JObject? then Some(stored.value.fields) else None;
          return currentUser;
        }
      }
      return None;
    }

    /** logout: clears memory and the storage key. */
    method Logout()
      modifies this, storage
      ensures currentUser.None? && storage.items == old(storage.items) - {CurrentUserKey}
    {
      currentUser := None;
      storage.RemoveItem(CurrentUserKey);
    }

    /** isLoggedIn: whether getCurrentUser finds a user, with getCurrentUser's effects. */
    method IsLoggedIn() returns (b: bool)
      modifies this, storage
      ensures b <==> old(currentUser).Some? || StoredObject(old(storage.items), CurrentUserKey).Some?
      ensures currentUser.Some? <==> b
      ensures storage.items ==
        if old(currentUser).None? && Corrupt(old(storage.items), CurrentUserKey)
        then old(storage.items) - {CurrentUserKey} else old(storage.items)
    {
      var u := GetCurrentUser();
      b := u.Some?;
    }
  }

  /** After logout the storage holds no user, and a second logout changes nothing more. */
  lemma LogoutIdempotent(items: map<string, Item>)
    ensures StoredObject(items - {CurrentUserKey}, CurrentUserKey).None?
    ensures (items - {CurrentUserKey}) - {CurrentUserKey} == items - {CurrentUserKey}
    ensures !Corrupt(items - {CurrentUserKey}, CurrentUserKey)
  {
  }

  /** A record stored by login is read back as it was stored. */
  lemma StoredUserReadBack(items: map<string, Item>, user: JsObject)
    ensures StoredObject(items[CurrentUserKey := Json(JObject(user))], CurrentUserKey) == Some(user)
  {
  }

  /** The request body login sends; undefined fields are dropped. */
  function RequestBody(req: LoginRequest): map<string, string> {
    Put(Put(Put(map[], "email", req.email), "password", req.password), "role", req.userType)
  }

  /** The reply the client sees from the server's login; an HTTP error status becomes a throw. */
  function ServerReply(resp: UserRoutes.LoginResponse): (reply: LoginReply)
    ensures resp.LoginError? ==> reply.LoginThrew? && reply.message != ""
    ensures resp.LoggedIn? ==> reply.LoginReplied? && reply.user.Some? && reply.role == Some(resp.role)
  {
    match resp
    case LoginError(code, _) => LoginThrew("HTTP error! status: " + NatToString(code))
    case LoggedIn(_, token, role, id, name, email, institution) =>
      LoginReplied(Some(map["id" := id, "name" := name, "email" := email, "institution" := institution]),
                   Some(role), Some(token))
  }

  /**
   * Against the server's login, the client logs in exactly when the server accepts, and
   * the stored userType is the role the client asked for.
   */
  lemma {:induction false} ServerLoginRoundTrip(req: LoginRequest, issuers: seq<Account>, verifiers: seq<Account>,
                                                matches: (string, string) -> bool, token: string)
    requires req.userType.Some?
    ensures var resp := UserRoutes.LoginUser(Some(RequestBody(req)), issuers, verifiers, matches, token);
      && (LoginResult(ServerReply(resp)).AuthOk? <==> resp.LoggedIn?)
      && (resp.LoggedIn? ==> Get(LoginResult(ServerReply(resp)).user, "userType") == req.userType)
  {
    var body := RequestBody(req);
    assert "role" in body && body["role"] == req.userType.value;
  }
}

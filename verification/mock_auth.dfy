/**
 * The mock session manager (client/src/services/mockAuth.js): any non-empty credentials log
 * in, registration always succeeds, and the user lives in memory and under 'mockUser'.
 * The random id and the clock are parameters.
 */
module MockAuth {
  import opened Wrappers
  import opened Text
  import opened BrowserStorage

  const MockUserKey := "mockUser"

  datatype MockResult = MockOk(user: JsObject) | MockFailed(error: string)

  /** The user login builds: the email, the text before its first '@' as name, and the user type. */
  function MockUser(email: string, userType: Option<string>, id: string, loginTime: string): (u: JsObject)
    ensures Get(u, "email") == Some(email) && Get(u, "userType") == userType
    ensures "name" in u && u["name"] == BeforeFirst(email, '@') && '@' !in u["name"]
    ensures Get(u, "id") == Some(id) && Get(u, "loginTime") == Some(loginTime)
  {
    Put(map["id" := id, "email" := email, "name" := BeforeFirst(email, '@')], "userType", userType)["loginTime" := loginTime]
  }

  /** The user register builds: the generated id, overridden by the caller's fields, then registeredAt. */
  function RegisteredUser(userData: JsObject, id: string, registeredAt: string): (u: JsObject)
    ensures Get(u, "registeredAt") == Some(registeredAt)
    ensures forall k :: k in userData && k != "registeredAt" ==> Get(u, k) == Get(userData, k)
    ensures "id" !in userData ==> Get(u, "id") == Some(id)
    ensures u.Keys == userData.Keys + {"id", "registeredAt"}
  {
    (map["id" := id] + userData)["registeredAt" := registeredAt]
  }

  /** getCurrentUser's outcome: a user or none, or the parse error it lets escape. */
  datatype Lookup = Found(user: Option<JsObject>) | ParseError

  /** What getCurrentUser reads from storage when memory is empty. */
  function StoredLookup(items: map<string, Item>): (r: Lookup)
    ensures r == ParseError <==> Corrupt(items, MockUserKey)
    ensures r.Found? ==> r.user == StoredObject(items, MockUserKey)
  {
    if Corrupt(items, MockUserKey) then ParseError else Found(StoredObject(items, MockUserKey))
  }

  class MockSession {
    var currentUser: Option<JsObject>
    const storage: LocalStorage

    constructor (storage: LocalStorage)
      ensures currentUser.None? && this.storage == storage
    {
      currentUser := None;
      this.storage := storage;
    }

    /** login: succeeds iff email and password are both non-empty; a refusal changes nothing. */
    method Login(email: Option<string>, password: Option<string>, userType: Option<string>, id: string, now: string)
      returns (r: MockResult)
      modifies this, storage
      ensures r.MockOk? <==> Truthy(email) && Truthy(password)
      ensures r.MockOk? ==>
        && r.user == MockUser(email.value, userType, id, now)
        && currentUser == Some(r.user)
        && storage.items == old(storage.items)[MockUserKey := Json(JObject(r.user))]
      ensures r.MockFailed? ==>
        r.error == "Invalid credentials" && currentUser == old(currentUser) && storage.items == old(storage.items)
    {
      if Truthy(email) && Truthy(password) {
        var user := MockUser(email.value, userType, id, now);
        currentUser := Some(user);
        storage.SetItem(MockUserKey, Json(JObject(user)));
        return MockOk(user);
      }
      return MockFailed("Invalid credentials");
    }

    /** register: always succeeds and stores the new user in memory and storage. */
    method Register(userData: JsObject, id: string, now: string) returns (r: MockResult)
      modifies this, storage
      ensures r == MockOk(RegisteredUser(userData, id, now))
      ensures currentUser == Some(r.user) && storage.items == old(storage.items)[MockUserKey := Json(JObject(r.user))]
    {
      var user := RegisteredUser(userData, id, now);
      currentUser := Some(user);
      storage.SetItem(MockUserKey, Json(JObject(user)));
      r := MockOk(user);
    }

    /** logout: clears memory and the 'mockUser' key. */
    method Logout()
      modifies this, storage
      ensures currentUser.None? && storage.items == old(storage.items) - {MockUserKey}
    {
      currentUser := None;
      storage.RemoveItem(MockUserKey);
    }

    /**
     * getCurrentUser: memory first; otherwise the stored object, kept in memory. Unlike the
     * real service, text that does not parse is neither removed nor caught.
     */
    method GetCurrentUser() returns (r: Lookup)
      modifies this
      ensures old(currentUser).Some? ==> r == Found(old(currentUser)) && currentUser == old(currentUser)
      ensures old(currentUser).None? ==> r == StoredLookup(storage.items)
      ensures r.Found? ==> currentUser == r.user
      ensures r.ParseError? ==> currentUser == old(currentUser)
    {
      if currentUser.Some? {
        return Found(currentUser);
      }
      if MockUserKey in storage.items && storage.items[MockUserKey] != EmptyText {
        var stored := storage.items[MockUserKey];
        if stored.Malformed? {
          return ParseError;
        }
        currentUser := if stored.value.JObject? then Some(stored.value.fields) else None;
        return Found(currentUser);
      }
      return Found(None);
    }

    /** isAuthenticated: whether getCurrentUser finds a user; its parse error escapes. */
    method IsAuthenticated() returns (r: Option<bool>)
      modifies this
      ensures old(currentUser).Some? ==> r == Some(true)
      ensures old(currentUser).None? ==>
        r == if Corrupt(storage.items, MockUserKey) then None
             else Some(StoredObject(storage.items, MockUserKey).Some?)
    {
      var u := GetCurrentUser();
      r := if u.ParseError? then None else Some(u.user.Some?);
    }
  }

  /** A corrupt stored value makes getCurrentUser fail on every call: nothing removes it. */
  lemma CorruptValuePersists(items: map<string, Item>)
    requires Corrupt(items, MockUserKey)
    ensures StoredLookup(items) == ParseError
  {
  }

  /** Register's user keeps a caller-supplied id in place of the generated one. */
  lemma CallerIdWins(userData: JsObject, id: string, now: string)
    requires "id" in userData
    ensures Get(RegisteredUser(userData, id, now), "id") == Get(userData, "id")
  {
  }
}

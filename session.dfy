/**
 * The session store, AuthContext.jsx: the signed-in user kept in memory and in
 * the browser's local storage under the keys `token` and `user`, restored on
 * start-up.
 */
module Session {
  import opened Optional
  import opened Text
  import opened Entities

  /**
   * A stored value: plain text, or the JSON text of a user object.
   * `JSON.stringify(null)` is the text `null`; `JSON.stringify(undefined)` is not
   * text at all, and `setItem` stores it as the string "undefined".
   */
  datatype Stored = Plain(text: string) | Serialized(user: User)

  type Storage = map<string, Stored>

  const TokenSlot: string := "token"
  const UserSlot: string := "user"

  /** `JSON.stringify(user)` as `setItem` stores it. */
  function Stringify(u: UserValue): (s: Stored)
    ensures u.Defined? ==> s == Serialized(u.user)
    ensures u.Null? ==> s == Plain("null")
    ensures u.Undefined? ==> s == Plain("undefined")
  {
    match u
    case Defined(v) => Serialized(v)
    case Null => Plain("null")
    case Undefined => Plain("undefined")
  }

  /** `JSON.parse`: a serialized user comes back; the text `null` is null; other plain text is taken not to parse. */
  function Parse(s: Stored): (r: Option<Option<User>>)
    ensures s.Serialized? ==> r == Some(Some(s.user))
    ensures s.Plain? ==> (r.Some? <==> s.text == "null") && (r.Some? ==> r.value.None?)
  {
    match s
    case Serialized(u) => Some(Some(u))
    case Plain(t) => if t == "null" then Some(None) else None
  }

  /**
   * Storing a user and parsing it back gives the same user, storing `null` gives
   * back `null`, and storing `undefined` gives text that does not parse.
   */
  lemma ParseStringify(u: UserValue)
    ensures !u.Undefined? <==> Parse(Stringify(u)).Some?
    ensures !u.Undefined? ==> Parse(Stringify(u)).value == u.AsOption()
  {
  }

  /** `localStorage.getItem(key)` is truthy: present and not the empty string. */
  predicate Present(storage: Storage, key: string) {
    key in storage && (storage[key].Serialized? || storage[key].text != "")
  }

  /** The provider's state: local storage and the in-memory user. */
  datatype State = State(storage: Storage, user: Option<User>)

  /**
   * checkUserLoggedIn: with a token and a stored user, the stored user is parsed
   * into memory; if it does not parse, both keys are removed.
   */
  function Startup(s: State): (r: State)
    ensures !(Present(s.storage, TokenSlot) && Present(s.storage, UserSlot)) ==> r == s
    ensures r.storage == s.storage || r.storage == s.storage - {TokenSlot, UserSlot}
  {
    if Present(s.storage, TokenSlot) && Present(s.storage, UserSlot) then
      match Parse(s.storage[UserSlot])
      case Some(u) => s.(user := u)
      case None => State(s.storage - {TokenSlot, UserSlot}, s.user)
    else s
  }

  /** The token branch shared by login, googleLogin and verifyOtp. */
  function SignIn(s: State, token: string, u: UserValue): (r: State)
    ensures r.storage.Keys == s.storage.Keys + {TokenSlot, UserSlot}
    ensures r.storage[TokenSlot] == Plain(token) && r.storage[UserSlot] == Stringify(u)
    ensures forall k :: k in s.storage && k != TokenSlot && k != UserSlot ==> r.storage[k] == s.storage[k]
    ensures r.user == u.AsOption()
  {
    State(s.storage[TokenSlot := Plain(token)][UserSlot := Stringify(u)], u.AsOption())
  }

  /** logout: both keys go and nobody is signed in. */
  function SignOut(s: State): (r: State)
    ensures TokenSlot !in r.storage && UserSlot !in r.storage && r.user.None?
    ensures forall k :: k in s.storage && k != TokenSlot && k != UserSlot ==> k in r.storage && r.storage[k] == s.storage[k]
  {
    State(s.storage - {TokenSlot, UserSlot}, None)
  }

  /** updateUser: the in-memory and the stored user both become the argument. */
  function Update(s: State, u: UserValue): (r: State)
    ensures r.user == u.AsOption() && UserSlot in r.storage && r.storage[UserSlot] == Stringify(u)
    ensures forall k :: k in s.storage && k != UserSlot ==> k in r.storage && r.storage[k] == s.storage[k]
  {
    State(s.storage[UserSlot := Stringify(u)], u.AsOption())
  }

  /** A page load after signing in with a user and a non-empty token brings that user back and keeps storage as it was. */
  lemma ReloadAfterSignIn(s: State, token: string, u: User)
    requires token != ""
    ensures var signed := SignIn(s, token, Defined(u));
      Startup(State(signed.storage, None)) == State(signed.storage, Some(u))
  {
  }

  /** A token response without a `user` property stores "undefined": the next page load discards the session. */
  lemma ReloadAfterSignInWithoutUser(s: State, token: string)
    requires token != ""
    ensures var signed := SignIn(s, token, Undefined);
      Startup(State(signed.storage, None)) == State(signed.storage - {TokenSlot, UserSlot}, None)
  {
    assert Parse(Plain("undefined")).None?;
  }

  /**
   * A token response whose `user` is `null` stores "null", which parses: the next
   * page load keeps the token and both keys, with nobody in memory.
   */
  lemma ReloadAfterSignInWithNullUser(s: State, token: string)
    requires token != ""
    ensures var signed := SignIn(s, token, Null);
      Startup(State(signed.storage, None)) == State(signed.storage, None) &&
      TokenSlot in signed.storage && signed.storage[TokenSlot] == Plain(token)
  {
    assert Parse(Plain("null")) == Some(None);
  }

  /** After logout a page load stays signed out. */
  lemma ReloadAfterSignOut(s: State)
    ensures Startup(State(SignOut(s).storage, None)) == State(SignOut(s).storage, None)
  {
  }

  /** After updateUser, with a token kept, a page load brings back the updated user. */
  lemma ReloadAfterUpdate(s: State, u: User)
    requires Present(s.storage, TokenSlot)
    ensures Startup(State(Update(s, Defined(u)).storage, None)).user == Some(u)
  {
  }

  /**
   * After updateUser with `null` or `undefined`, with a token kept, a page load is
   * signed out; `null` leaves both keys in storage, `undefined` removes them.
   */
  lemma ReloadAfterUpdateToNobody(s: State, u: UserValue)
    requires Present(s.storage, TokenSlot) && !u.Defined?
    ensures var stored := Update(s, u).storage;
      Startup(State(stored, None)) ==
        if u.Null? then State(stored, None) else State(stored - {TokenSlot, UserSlot}, None)
  {
    assert Parse(Plain("null")) == Some(None);
    assert Parse(Plain("undefined")).None?;
  }

  /** The maximal interpretation of `res.data` for the sign-in calls. */
  datatype AuthResponse = AuthResponse(message: Option<string>, token: Option<string>, user: UserValue)

  datatype LoginResult = RequiresOtp(message: string) | Success(data: AuthResponse) | Threw

  class AuthProvider {
    var storage: Storage
    var user: Option<User>
    var loading: bool

    function View(): State
      reads this
    {
      State(storage, user)
    }

    constructor (storage: Storage)
      ensures this.storage == storage && user.None? && loading
    {
      this.storage := storage;
      user := None;
      loading := true;
    }

    method CheckUserLoggedIn()
      modifies this
      ensures View() == Startup(old(View()))
      ensures !loading
    {
      if Present(storage, TokenSlot) && Present(storage, UserSlot) {
        match Parse(storage[UserSlot]) {
          case Some(u) => user := u;
          case None => storage := storage - {TokenSlot, UserSlot};
        }
      }
      loading := false;
    }

    /** The common `if (res.data.token)` step. */
    method StoreIfToken(data: AuthResponse)
      modifies this`storage, this`user
      ensures View() == if Truthy(data.token) then SignIn(old(View()), data.token.value, data.user) else old(View())
    {
      if Truthy(data.token) {
        storage := storage[TokenSlot := Plain(data.token.value)][UserSlot := Stringify(data.user)];
        user := data.user.AsOption();
      }
    }

    /**
     * login: a failed request or a response without a message throws. A message
     * mentioning OTP asks for the code and stores nothing, even with a token.
     */
    method Login(res: Reply<AuthResponse>) returns (result: LoginResult)
      modifies this`storage, this`user
      ensures res.Fail? || res.data.message.None? ==> result == Threw && View() == old(View())
      ensures res.Ok? && res.data.message.Some? && Contains(res.data.message.value, "OTP") ==>
        result == RequiresOtp(res.data.message.value) && View() == old(View())
      ensures res.Ok? && res.data.message.Some? && !Contains(res.data.message.value, "OTP") ==>
        result == Success(res.data) &&
        View() == if Truthy(res.data.token) then SignIn(old(View()), res.data.token.value, res.data.user) else old(View())
    {
      if res.Fail? || res.data.message.None? {
        return Threw;
      }
      if Contains(res.data.message.value, "OTP") {
        return RequiresOtp(res.data.message.value);
      }
      StoreIfToken(res.data);
      result := Success(res.data);
    }

    /** googleLogin: the token rule without the OTP check; a failed request is rethrown. */
    method GoogleLogin(res: Reply<AuthResponse>) returns (result: LoginResult)
      modifies this`storage, this`user
      ensures res.Fail? ==> result == Threw && View() == old(View())
      ensures res.Ok? ==> result == Success(res.data)
      ensures res.Ok? ==>
        View() == if Truthy(res.data.token) then SignIn(old(View()), res.data.token.value, res.data.user) else old(View())
    {
      if res.Fail? {
        return Threw;
      }
      StoreIfToken(res.data);
      result := Success(res.data);
    }

    /** verifyOtp: the token rule; the response itself is returned. */
    method VerifyOtp(res: Reply<AuthResponse>) returns (result: Option<AuthResponse>)
      modifies this`storage, this`user
      ensures res.Fail? ==> result.None? && View() == old(View())
      ensures res.Ok? ==> result == Some(res.data)
      ensures res.Ok? ==>
        View() == if Truthy(res.data.token) then SignIn(old(View()), res.data.token.value, res.data.user) else old(View())
    {
      if res.Fail? {
        return None;
      }
      StoreIfToken(res.data);
      result := Some(res.data);
    }

    method Logout()
      modifies this`storage, this`user
      ensures View() == SignOut(old(View()))
    {
      storage := storage - {TokenSlot, UserSlot};
      user := None;
    }

    method UpdateUser(u: UserValue)
      modifies this`storage, this`user
      ensures View() == Update(old(View()), u)
    {
      user := u.AsOption();
      storage := storage[UserSlot := Stringify(u)];
    }

    /** fetchUserData: the fetched user replaces the session's; a failure returns null and changes nothing. */
    method FetchUserData(res: Reply<User>) returns (r: Option<User>)
      modifies this`storage, this`user
      ensures res.Ok? ==> r == Some(res.data) && View() == Update(old(View()), Defined(res.data))
      ensures res.Fail? ==> r.None? && View() == old(View())
    {
      if res.Fail? {
        return None;
      }
      user := Some(res.data);
      storage := storage[UserSlot := Stringify(Defined(res.data))];
      r := Some(res.data);
    }
  }
}

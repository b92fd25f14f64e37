/** The session store of the browser client
    (frontend/src/context/AuthContext.jsx): the `user`, `token` and `loading`
    state of `AuthProvider`, the restore on mount, `login`, `signup`,
    `logout` and `isAuthenticated`. Each handler runs as one step; the
    replies it awaits are inputs and `navigate` calls are recorded in
    order. */
module Auth {
  import opened Wrappers
  import opened Js
  import opened Api

  const PlaceholderEmail := "user@example.com"
  const DashboardPath := "/dashboard"
  const LoginPath := "/login"

  /** `{ email }` */
  function UserObject(email: string): Value
  {
    Obj(map["email" := Str(email)])
  }

  /** A login reply without `access_token` still succeeds: `login` stores
      `String(undefined)`, so the session is not authenticated while the
      gate of the gated requests is open with the text `undefined`. */
  lemma LoginWithoutAccessToken(items: map<string, string>, props: map<string, Value>)
    requires "access_token" !in props
    ensures var token := Property(Obj(props), "access_token");
      && !Truthy(token)
      && ToJsString(token) == "undefined"
      && HasToken(items[TokenKey := ToJsString(token)])
  {
  }

  class AuthProvider {
    const store: LocalStorage
    const baseUrl: string
    var user: Value
    var token: Value
    var loading: bool
    /** The paths passed to `navigate`, oldest first. */
    var navigations: seq<string>

    /** A truthy `token` is the one in storage. */
    predicate Valid()
      reads this, store
    {
      Truthy(token) ==> TokenKey in store.items && store.items[TokenKey] == ToJsString(token)
    }

    /** `isAuthenticated`. An authenticated session has a stored token, and
        it passes the gate of the gated requests unless the token is an
        array, whose string form may be empty. */
    function IsAuthenticated(): (r: bool)
      reads this, store
      requires Valid()
      ensures r ==> TokenKey in store.items
      ensures r && !token.Arr? ==> HasToken(store.items)
      ensures r <==> Truthy(token)
    {
      Truthy(token)
    }

    /** The initial state: `token` is whatever storage holds (`null` if
        nothing), no user, loading. */
    constructor (store: LocalStorage, baseUrl: string)
      ensures this.store == store && this.baseUrl == baseUrl
      ensures token == (if TokenKey in store.items then Str(store.items[TokenKey]) else Null)
      ensures user == Null && loading && navigations == []
      ensures Valid()
    {
      this.store := store;
      this.baseUrl := baseUrl;
      var stored := store.GetItem(TokenKey);
      token := if stored.Some? then Str(stored.value) else Null;
      user := Null;
      loading := true;
      navigations := [];
    }

    /** The effect run on mount: a truthy stored token is trusted without
        validation and the placeholder user is set. */
    method Mount()
      requires Valid()
      modifies this
      ensures HasToken(store.items) ==> token == Str(store.items[TokenKey]) && user == UserObject(PlaceholderEmail)
      ensures !HasToken(store.items) ==> token == old(token) && user == old(user)
      ensures !loading && navigations == old(navigations)
      ensures Valid()
    {
      var storedToken := store.GetItem(TokenKey);
      if storedToken.Some? && storedToken.value != "" {
        token := Str(storedToken.value);
        user := UserObject(PlaceholderEmail);
      }
      loading := false;
    }

    /** `login`: on success the token of the reply goes to storage and to
        `token` whether or not it is truthy, the user becomes `{ email }` and
        the dashboard is shown; on failure the error is re-thrown and nothing
        but `loading` changes. `loading` ends false either way. */
    method Login(email: string, password: string, reply: Reply) returns (sent: HttpRequest, result: Outcome)
      requires Valid()
      modifies this, store
      ensures sent == HttpRequest(baseUrl + "/auth/login", POST, map["Content-Type" := FormType],
                                  UrlEncoded([("username", email), ("password", password)]))
      ensures LoginOutcome(reply).Threw? ==>
        && result == LoginOutcome(reply)
        && token == old(token) && user == old(user)
        && store.items == old(store.items) && navigations == old(navigations)
      ensures LoginOutcome(reply).Returned? ==>
        && result == Returned(Bool(true))
        && token == Property(LoginOutcome(reply).value, "access_token")
        && user == UserObject(email)
        && store.items == old(store.items)[TokenKey := ToJsString(token)]
        && navigations == old(navigations) + [DashboardPath]
      ensures !loading && Valid()
    {
      loading := true;
      var response;
      sent, response := Api.Login(store, baseUrl, email, password, reply);
      if response.Threw? {
        loading := false;
        return sent, response;
      }
      var newToken := Property(response.value, "access_token");
      store.SetItem(TokenKey, ToJsString(newToken));
      token := newToken;
      user := UserObject(email);
      navigations := navigations + [DashboardPath];
      result := Returned(Bool(true));
      loading := false;
    }

    /** `signup`: the signup request, then `login` with the same
        credentials; a failure of either is re-thrown. */
    method Signup(email: string, password: string, signupReply: Reply, loginReply: Reply)
      returns (sent: seq<HttpRequest>, result: Outcome)
      requires Valid()
      modifies this, store
      ensures |sent| >= 1 && sent[0].url == baseUrl + "/auth/signup" && sent[0].verb == POST
      ensures |sent| >= 1 && sent[0].headers == map["Content-Type" := JsonType]
        && sent[0].body == JsonText(Obj(map["email" := Str(email), "password" := Str(password)]))
      ensures Settle(signupReply, RequestFallback).Threw? ==>
        && |sent| == 1 && result == Settle(signupReply, RequestFallback)
        && token == old(token) && user == old(user)
        && store.items == old(store.items) && navigations == old(navigations)
      ensures Settle(signupReply, RequestFallback).Returned? ==>
        && |sent| == 2
        && sent[1] == HttpRequest(baseUrl + "/auth/login", POST, map["Content-Type" := FormType],
                                  UrlEncoded([("username", email), ("password", password)]))
      ensures Settle(signupReply, RequestFallback).Returned? && LoginOutcome(loginReply).Threw? ==>
        && |sent| == 2 && result == LoginOutcome(loginReply)
        && token == old(token) && user == old(user)
        && store.items == old(store.items) && navigations == old(navigations)
      ensures Settle(signupReply, RequestFallback).Returned? && LoginOutcome(loginReply).Returned? ==>
        && result == Returned(Bool(true))
        && token == Property(LoginOutcome(loginReply).value, "access_token")
        && user == UserObject(email)
        && store.items == old(store.items)[TokenKey := ToJsString(token)]
        && navigations == old(navigations) + [DashboardPath]
      ensures !loading && Valid()
    {
      loading := true;
      var signupSent, signupOutcome := Invoke(store, baseUrl, Api.Signup(email, password), signupReply);
      sent := [signupSent.value];
      if signupOutcome.Threw? {
        loading := false;
        return sent, signupOutcome;
      }
      var loginSent, loginOutcome := Login(email, password, loginReply);
      sent := sent + [loginSent];
      if loginOutcome.Threw? {
        loading := false;
        return sent, loginOutcome;
      }
      result := Returned(Bool(true));
      loading := false;
    }

    /** `logout`: the token leaves storage and state, and the login page is
        shown. */
    method Logout()
      modifies this, store
      ensures store.items == old(store.items) - {TokenKey}
      ensures token == Null && user == Null && loading == old(loading)
      ensures navigations == old(navigations) + [LoginPath]
      ensures Valid() && !IsAuthenticated()
    {
      store.RemoveItem(TokenKey);
      token := Null;
      user := Null;
      navigations := navigations + [LoginPath];
    }
  }
}

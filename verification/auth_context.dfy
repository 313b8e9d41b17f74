/** The authentication provider: the session kept in the browser's local
    storage, the Authorization header of the shared HTTP client, and the
    `user`/`loading` state handed to the rest of the application. */
module AuthContext {
  import opened Http
  import opened Domain

  const TokenKey := "token"
  const UserKey := "user"

  /** What the login and register endpoints send back. */
  datatype AuthData = AuthData(token: string, user: User)

  /** The value of the Authorization header for a token. */
  function Bearer(token: string): (h: string)
    ensures |h| == |token| + 7 && h[..7] == "Bearer " && h[7..] == token
  {
    "Bearer " + token
  }

  /** The string stored under the `user` key, standing in for
      `JSON.stringify(user)` of the fields this model keeps. */
  function UserJson(u: User): string
  {
    "{\"id\":\"" + u.id + "\",\"name\":\"" + u.name + "\",\"email\":\"" + u.email + "\",\"role\":\"" + u.role + "\"}"
  }

  /** The header the invariant demands for a given store. */
  function ExpectedHeader(store: map<string, string>): (h: Option<string>)
    ensures h.Some? <==> TokenKey in store
    ensures h.Some? ==> h.value == Bearer(store[TokenKey])
  {
    if TokenKey in store then Some(Bearer(store[TokenKey])) else None
  }

  class Session {
    /** `localStorage`. */
    var store: map<string, string>
    /** `axiosInstance.defaults.headers.common['Authorization']`. */
    var authorization: Option<string>
    var user: Option<User>
    var loading: bool

    /** A header is present exactly when a token is stored, and then it is
        "Bearer " followed by that token. */
    ghost predicate Valid()
      reads this
    {
      authorization == ExpectedHeader(store)
    }

    /** The provider renders its children only once loading is over. */
    predicate RendersChildren()
      reads this
    {
      !loading
    }

    /** Mounting the provider: fresh state (no user, loading) over the
        browser's existing storage, then the startup effect. A stored token
        that is truthy sets the header and fetches the current user with
        `me`; otherwise loading simply ends. An empty stored token is falsy,
        so it stays stored without a header: the invariant then fails, and
        only then. */
    constructor Mount(stored: map<string, string>, me: Response<User>)
      ensures RendersChildren()
      ensures Valid() <==> !(TokenKey in stored && stored[TokenKey] == "")
      ensures TokenKey in stored && stored[TokenKey] != "" ==>
        if me.Ok? then store == stored && user == Some(me.data) && authorization == Some(Bearer(stored[TokenKey]))
        else store == stored - {TokenKey} && user == None && authorization == None
      ensures !(TokenKey in stored && stored[TokenKey] != "") ==>
        store == stored && user == None && authorization == None
    {
      store := stored;
      authorization := None;
      user := None;
      loading := true;
      new;
      if TokenKey in store && store[TokenKey] != "" {
        authorization := Some(Bearer(store[TokenKey]));
        FetchUser(me);
      } else {
        loading := false;
      }
    }

    /** `fetchUser`: on success the user is set; on failure the token and
        the header are dropped, while the stored `user` entry and the `user`
        state stay as they were. Loading ends either way. */
    method FetchUser(me: Response<User>)
      modifies this
      ensures !loading
      ensures me.Ok? ==> user == Some(me.data) && store == old(store) && authorization == old(authorization)
      ensures me.Fail? ==> user == old(user) && store == old(store) - {TokenKey} && authorization == None
      ensures old(Valid()) ==> Valid()
    {
      if me.Ok? {
        user := Some(me.data);
      } else {
        store := store - {TokenKey};
        authorization := None;
      }
      loading := false;
    }

    /** The four steps `login` and `register` share once their request has
        resolved: store the token and the user, set the header, set `user`. */
    method Establish(data: AuthData)
      modifies this
      ensures store == old(store)[TokenKey := data.token][UserKey := UserJson(data.user)]
      ensures authorization == Some(Bearer(data.token))
      ensures user == Some(data.user) && loading == old(loading)
      ensures Valid()
    {
      store := store[TokenKey := data.token];
      store := store[UserKey := UserJson(data.user)];
      authorization := Some(Bearer(data.token));
      user := Some(data.user);
    }

    /** `login`: a failing request throws before anything is touched. */
    method Login(response: Response<AuthData>) returns (outcome: Completion)
      modifies this
      ensures response.Fail? ==> outcome == Rejected(response.message) && unchanged(this)
      ensures response.Ok? ==> outcome == Resolved
      ensures response.Ok? ==> store == old(store)[TokenKey := response.data.token][UserKey := UserJson(response.data.user)]
      ensures response.Ok? ==> authorization == Some(Bearer(response.data.token))
      ensures response.Ok? ==> user == Some(response.data.user) && loading == old(loading)
      ensures old(Valid()) || response.Ok? ==> Valid()
    {
      if response.Fail? {
        return Rejected(response.message);
      }
      Establish(response.data);
      outcome := Resolved;
    }

    /** `register`: the same effects as `login`, against the register
        endpoint. */
    method Register(response: Response<AuthData>) returns (outcome: Completion)
      modifies this
      ensures response.Fail? ==> outcome == Rejected(response.message) && unchanged(this)
      ensures response.Ok? ==> outcome == Resolved
      ensures response.Ok? ==> store == old(store)[TokenKey := response.data.token][UserKey := UserJson(response.data.user)]
      ensures response.Ok? ==> authorization == Some(Bearer(response.data.token))
      ensures response.Ok? ==> user == Some(response.data.user) && loading == old(loading)
      ensures old(Valid()) || response.Ok? ==> Valid()
    {
      if response.Fail? {
        return Rejected(response.message);
      }
      Establish(response.data);
      outcome := Resolved;
    }

    /** `logout`: both keys removed, header deleted, no user. */
    method Logout()
      modifies this
      ensures store == old(store) - {TokenKey, UserKey}
      ensures authorization == None && user == None && loading == old(loading)
      ensures Valid()
    {
      store := store - {TokenKey};
      store := store - {UserKey};
      authorization := None;
      user := None;
    }
  }
}

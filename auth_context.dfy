/** The session: who is signed in, restored from storage on startup, set by
    login (also after registering) and cleared by logout. */
module AuthContext {
  import opened Types
  import opened Http
  import opened ApiClient
  import opened StoredUser

  const UserKey := "user"

  /** A stored entry that JavaScript treats as true: present and non-empty. */
  predicate Truthy(v: Option<string>) {
    v.Some? && v.value != ""
  }

  function Lookup(items: map<string, string>, key: string): Option<string> {
    if key in items then Some(items[key]) else None
  }

  /** The session state the startup effect leaves behind. */
  datatype Startup = Startup(user: Option<User>, isLoading: bool)

  /** The startup effect exactly as written: when both entries are truthy
      the stored user is parsed, and a parse error is thrown out of the
      effect before loading is marked finished. */
  function RestoreAsWritten(items: map<string, string>): Startup {
    var token, userData := Lookup(items, TokenKey), Lookup(items, UserKey);
    if Truthy(token) && Truthy(userData) then
      match ParseUser(userData.value)
      case Some(u) => Startup(Some(u), false)
      case None => Startup(None, true)
    else Startup(None, false)
  }

  /** The startup effect with the parse error caught: an unreadable entry
      leaves the user signed out, and loading always finishes. */
  function Restored(items: map<string, string>): (s: Startup)
    ensures !s.isLoading
    ensures s.user.Some? ==> Truthy(Lookup(items, TokenKey)) && Truthy(Lookup(items, UserKey))
                             && ParseUser(items[UserKey]) == s.user
  {
    var token, userData := Lookup(items, TokenKey), Lookup(items, UserKey);
    if Truthy(token) && Truthy(userData) then Startup(ParseUser(userData.value), false)
    else Startup(None, false)
  }

  /** As written, a stored user entry that does not parse makes the parse
      error escape the startup effect before loading is cleared, so loading
      never ends; the entry stays in storage, so every later start fails the
      same way. */
  lemma RestoreAsWrittenHangs()
    ensures RestoreAsWritten(map[TokenKey := "abc", UserKey := "{"]).isLoading
    ensures !Restored(map[TokenKey := "abc", UserKey := "{"]).isLoading
  {
    var items := map[TokenKey := "abc", UserKey := "{"];
    assert Lookup(items, TokenKey) == Some("abc");
    assert Lookup(items, UserKey) == Some("{");
  }

  /** Everywhere else the two agree. */
  lemma RestoreAsWrittenAgrees(items: map<string, string>)
    requires !(Truthy(Lookup(items, TokenKey)) && Truthy(Lookup(items, UserKey))
               && ParseUser(items[UserKey]).None?)
    ensures RestoreAsWritten(items) == Restored(items)
  {
  }

  /** The user a login signs in: the identity fields of the response,
      without the token. */
  function UserOf(a: AuthResponse): User {
    User(a.userId, a.firstName, a.lastName, a.email)
  }

  /** What a login leaves in storage is restored on the next start, unless
      the token is empty. */
  lemma SessionSurvivesReload(items: map<string, string>, a: AuthResponse)
    ensures Restored(items[TokenKey := a.token][UserKey := UserJson(UserOf(a))]).user
            == if a.token != "" then Some(UserOf(a)) else None
  {
    var after := items[TokenKey := a.token][UserKey := UserJson(UserOf(a))];
    assert Lookup(after, TokenKey) == Some(a.token);
    assert Lookup(after, UserKey) == Some(UserJson(UserOf(a)));
    ParseUserJson(UserOf(a));
  }

  class AuthProvider {
    var user: Option<User>
    var isLoading: bool
    const api: ApiService

    constructor(api: ApiService)
      ensures this.api == api && user == None && isLoading
    {
      this.api := api;
      user := None;
      isLoading := true;
    }

    /** `isAuthenticated`: `!!user`, true exactly when a user is signed in. */
    predicate IsAuthenticated()
      reads this
      ensures IsAuthenticated() <==> user != None
    {
      user.Some?
    }

    /** The startup effect (with the parse error caught), run once on a
        freshly mounted provider. */
    method Restore()
      requires user == None && isLoading
      modifies this
      ensures Startup(user, isLoading) == Restored(api.storage.items)
    {
      var token := api.storage.GetItem(TokenKey);
      var userData := api.storage.GetItem(UserKey);
      assert token == Lookup(api.storage.items, TokenKey);
      assert userData == Lookup(api.storage.items, UserKey);
      if Truthy(token) && Truthy(userData) {
        user := ParseUser(userData.value);
      }
      isLoading := false;
    }

    /** `login`: the API client stores the token; the session then holds
        the user's identity and stores it under `'user'`. A failed login
        changes nothing. */
    method Login(email: string, password: string, network: seq<Outcome>) returns (done: Promise<()>)
      modifies this, api, api.storage
      ensures var x := LoginExchange(email, password, network);
              && (x.reply.Resolved? ==>
                    && user == Some(UserOf(x.reply.value)) && IsAuthenticated()
                    && api.token == Some(x.reply.value.token)
                    && api.storage.items
                       == old(api.storage.items)[TokenKey := x.reply.value.token][UserKey := UserJson(UserOf(x.reply.value))]
                    && done == Resolved(()))
              && (!x.reply.Resolved? ==>
                    && user == old(user) && api.token == old(api.token)
                    && api.storage.items == old(api.storage.items)
                    && done == (if x.reply.Pending? then Pending else Rejected(x.reply.message)))
      ensures isLoading == old(isLoading)
    {
      var x := api.Login(email, password, network);
      match x.reply {
        case Resolved(a) =>
          var u := UserOf(a);
          user := Some(u);
          api.storage.SetItem(UserKey, UserJson(u));
          done := Resolved(());
        case Rejected(message) =>
          done := Rejected(message);
        case Pending =>
          done := Pending;
      }
    }

    /** `register`: the registration request first (outcome `network[0]`),
        then a login with the same email and password (the outcomes after
        it). A failed registration skips the login and changes nothing. */
    method Register(firstName: string, lastName: string, email: string, password: string,
                    network: seq<Outcome>) returns (done: Promise<()>)
      modifies this, api, api.storage
      ensures var reg := RegisterExchange(firstName, lastName, email, password, network).reply;
              var x := LoginExchange(email, password, if network == [] then [] else network[1..]);
              && (!reg.Resolved? ==>
                    && user == old(user) && api.token == old(api.token)
                    && api.storage.items == old(api.storage.items)
                    && done == (if reg.Pending? then Pending else Rejected(reg.message)))
              && (reg.Resolved? && x.reply.Resolved? ==>
                    && user == Some(UserOf(x.reply.value)) && api.token == Some(x.reply.value.token)
                    && api.storage.items
                       == old(api.storage.items)[TokenKey := x.reply.value.token][UserKey := UserJson(UserOf(x.reply.value))]
                    && done == Resolved(()))
              && (reg.Resolved? && !x.reply.Resolved? ==>
                    && user == old(user) && api.token == old(api.token)
                    && api.storage.items == old(api.storage.items)
                    && done == (if x.reply.Pending? then Pending else Rejected(x.reply.message)))
      ensures isLoading == old(isLoading)
    {
      var reg := RegisterExchange(firstName, lastName, email, password, network);
      match reg.reply {
        case Resolved(_) =>
          done := Login(email, password, network[1..]);
        case Rejected(message) =>
          done := Rejected(message);
        case Pending =>
          done := Pending;
      }
    }

    /** `logout`: the token is cleared from the client and from storage, the
        stored user is removed, and nobody is signed in. */
    method Logout()
      modifies this, api, api.storage
      ensures user == None && !IsAuthenticated() && api.token == None
      ensures api.storage.items == old(api.storage.items) - {TokenKey, UserKey}
      ensures "Authorization" !in api.GetHeaders(true)
      ensures isLoading == old(isLoading)
    {
      api.ClearToken();
      api.storage.RemoveItem(UserKey);
      user := None;
    }
  }
}

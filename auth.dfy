/** The authentication session: restoring it from browser storage, logging
    in, signing up and logging out, as a state machine over the stored keys
    `token`, `userId` and `user`. */
module Auth {
  import opened Common

  /** The signed-in user; `state` is stored only by signup. */
  datatype User = User(id: Option<string>, name: string, email: string, state: Option<string>)

  /** A stored value: plain text, or the user record that `JSON.stringify`
      wrote and `JSON.parse` reads back. */
  datatype Stored = Str(text: string) | UserJson(user: User)

  const TokenKey := "token"
  const UserIdKey := "userId"
  const UserKey := "user"

  /** What restoring finds in a store: the token and the user, both or neither. */
  datatype Restored = SignedIn(token: string, user: User) | SignedOut

  /** The store as the session writes it: text under `token`, a user record
      under `user`. */
  predicate WellFormed(store: map<string, Stored>) {
    && (TokenKey in store ==> store[TokenKey].Str?)
    && (UserKey in store ==> store[UserKey].UserJson?)
  }

  /** A session is restored only when a non-empty token and a user are both stored. */
  function RestoredFrom(store: map<string, Stored>): (r: Restored)
    requires WellFormed(store)
    ensures r.SignedIn? <==> TokenKey in store && store[TokenKey].text != "" && UserKey in store
    ensures r.SignedIn? ==> store[TokenKey] == Str(r.token) && store[UserKey] == UserJson(r.user)
  {
    if TokenKey in store && store[TokenKey].text != "" && UserKey in store
    then SignedIn(store[TokenKey].text, store[UserKey].user)
    else SignedOut
  }

  /** The login and signup endpoints' reply. */
  datatype AuthReply = AuthReply(token: string, userId: Option<string>, id: Option<string>, name: Option<string>)

  predicate Truthy(s: Option<string>) {
    s.Some? && s.value != ""
  }

  /** `data.userId || data.id`. */
  function ReplyId(data: AuthReply): (id: Option<string>)
    ensures Truthy(data.userId) ==> id == data.userId
    ensures !Truthy(data.userId) ==> id == data.id
  {
    if Truthy(data.userId) then data.userId else data.id
  }

  /** `data.userId || data.id || email`: the e-mail when the reply has no id. */
  function StoredUserId(data: AuthReply, email: string): (s: string)
    ensures Truthy(data.userId) ==> s == data.userId.value
    ensures !Truthy(data.userId) && Truthy(data.id) ==> s == data.id.value
    ensures !Truthy(data.userId) && !Truthy(data.id) ==> s == email
  {
    if Truthy(ReplyId(data)) then ReplyId(data).value else email
  }

  /** The user after login: the reply's id, its name or else the e-mail. */
  function LoginUser(data: AuthReply, email: string): (u: User)
    ensures u.id == ReplyId(data) && u.email == email && u.state == None
    ensures Truthy(data.name) ==> u.name == data.name.value
    ensures !Truthy(data.name) ==> u.name == email
  {
    User(ReplyId(data), if Truthy(data.name) then data.name.value else email, email, None)
  }

  /** The store after a successful login or signup storing `stored`. */
  function SignedInStore(store: map<string, Stored>, data: AuthReply, email: string, stored: User): (s: map<string, Stored>)
    ensures WellFormed(s) && TokenKey in s && UserIdKey in s && UserKey in s
    ensures s[TokenKey] == Str(data.token) && s[UserIdKey] == Str(StoredUserId(data, email))
    ensures s[UserKey] == UserJson(stored)
    ensures forall k :: k != TokenKey && k != UserIdKey && k != UserKey ==>
              (k in s <==> k in store) && (k in store ==> s[k] == store[k])
  {
    store[TokenKey := Str(data.token)][UserIdKey := Str(StoredUserId(data, email))][UserKey := UserJson(stored)]
  }

  /** The store after logout: the three keys removed, nothing else touched. */
  function SignedOutStore(store: map<string, Stored>): (s: map<string, Stored>)
    ensures TokenKey !in s && UserIdKey !in s && UserKey !in s
    ensures forall k :: k != TokenKey && k != UserIdKey && k != UserKey ==>
              (k in s <==> k in store) && (k in store ==> s[k] == store[k])
  {
    store - {TokenKey, UserIdKey, UserKey}
  }

  /** A login with a non-empty token survives a reload: restoring finds the
      same token and user. */
  lemma LoginSurvivesReload(store: map<string, Stored>, data: AuthReply, email: string)
    requires data.token != ""
    ensures RestoredFrom(SignedInStore(store, data, email, LoginUser(data, email)))
              == SignedIn(data.token, LoginUser(data, email))
  {
  }

  /** After a reload a signed-up user comes back with the state the signup
      stored, which the session held in memory did not have. */
  lemma SignupReloadAddsState(store: map<string, Stored>, data: AuthReply, name: string, email: string, state: string)
    requires data.token != ""
    ensures RestoredFrom(SignedInStore(store, data, email, User(ReplyId(data), name, email, Some(state))))
              == SignedIn(data.token, User(ReplyId(data), name, email, Some(state)))
    ensures User(ReplyId(data), name, email, Some(state)) != User(ReplyId(data), name, email, None)
  {
  }

  /** Logging out survives a reload. */
  lemma LogoutSurvivesReload(store: map<string, Stored>)
    ensures WellFormed(SignedOutStore(store))
    ensures RestoredFrom(SignedOutStore(store)) == SignedOut
  {
  }

  class AuthSession {
    var store: map<string, Stored>
    var user: Option<User>
    var token: Option<string>
    var isLoading: bool

    /** A new session over the browser's store: nobody signed in yet, loading. */
    constructor (initial: map<string, Stored>)
      ensures store == initial && user == None && token == None && isLoading
    {
      store, user, token, isLoading := initial, None, None, true;
    }

    /** On mount: takes the stored token and user when both are there, then
        stops loading; the store is only read. */
    method Restore()
      requires WellFormed(store)
      modifies this
      ensures store == old(store) && !isLoading
      ensures RestoredFrom(store).SignedIn? ==>
                token == Some(RestoredFrom(store).token) && user == Some(RestoredFrom(store).user)
      ensures RestoredFrom(store).SignedOut? ==> token == old(token) && user == old(user)
    {
      var savedToken := if TokenKey in store then store[TokenKey].text else "";
      if savedToken != "" && UserKey in store {
        token := Some(savedToken);
        user := Some(store[UserKey].user);
      }
      isLoading := false;
    }

    /** Logs in. A failed request throws before anything changes; otherwise
        the reply's token, the user id (falling back to the e-mail) and the
        user are stored, and the session holds the same token and user. */
    method Login(email: string, reply: Option<AuthReply>) returns (threw: bool)
      modifies this
      ensures threw <==> reply.None?
      ensures reply.None? ==> store == old(store) && token == old(token) && user == old(user)
      ensures reply.Some? ==> store == SignedInStore(old(store), reply.value, email, LoginUser(reply.value, email))
      ensures reply.Some? ==> token == Some(reply.value.token) && user == Some(LoginUser(reply.value, email))
      ensures isLoading == old(isLoading)
    {
      if reply.None? {
        return true;
      }
      var data := reply.value;
      var u := LoginUser(data, email);
      store := store[TokenKey := Str(data.token)];
      store := store[UserIdKey := Str(StoredUserId(data, email))];
      store := store[UserKey := UserJson(u)];
      token := Some(data.token);
      user := Some(u);
      threw := false;
    }

    /** Signs up. As login, but the user keeps the name typed into the form,
        and the stored record also carries the state. */
    method Signup(name: string, email: string, state: string, reply: Option<AuthReply>) returns (threw: bool)
      modifies this
      ensures threw <==> reply.None?
      ensures reply.None? ==> store == old(store) && token == old(token) && user == old(user)
      ensures reply.Some? ==>
                store == SignedInStore(old(store), reply.value, email, User(ReplyId(reply.value), name, email, Some(state)))
      ensures reply.Some? ==> token == Some(reply.value.token)
                              && user == Some(User(ReplyId(reply.value), name, email, None))
      ensures isLoading == old(isLoading)
    {
      if reply.None? {
        return true;
      }
      var data := reply.value;
      store := store[TokenKey := Str(data.token)];
      store := store[UserIdKey := Str(StoredUserId(data, email))];
      store := store[UserKey := UserJson(User(ReplyId(data), name, email, Some(state)))];
      token := Some(data.token);
      user := Some(User(ReplyId(data), name, email, None));
      threw := false;
    }

    /** Logs out: removes exactly the three keys and forgets token and user. */
    method Logout()
      modifies this
      ensures store == SignedOutStore(old(store))
      ensures token == None && user == None && isLoading == old(isLoading)
    {
      store := store - {TokenKey};
      store := store - {UserIdKey};
      store := store - {UserKey};
      token := None;
      user := None;
    }
  }

  /** What `useAuth` gives: the context, or the error thrown outside a provider. */
  datatype AuthAccess<C> = Context(ctx: C) | Thrown(message: string)

  const OutsideProvider := "useAuth must be inside AuthProvider"

  function UseAuth<C>(provided: Option<C>): (r: AuthAccess<C>)
    ensures provided.Some? ==> r == Context(provided.value)
    ensures provided.None? ==> r == Thrown(OutsideProvider)
  {
    if provided.Some? then Context(provided.value) else Thrown(OutsideProvider)
  }
}

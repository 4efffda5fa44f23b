/**
 * The session provider: the in-memory `user`, the browser's key/value store
 * with the entries "user" and "token", and the router location it navigates.
 * The login request's outcome is a parameter; decoding the token's subject
 * claim is a function the provider is given.
 */
module Auth {
  import opened Outcomes
  import opened Sessions
  import SessionCodec
  import AccessPolicy

  const UserKey: string := "user"
  const TokenKey: string := "token"

  /** Where a successful login navigates. */
  const LandingPath: string := "/empresas"

  /** The error reading a malformed "user" entry throws. */
  const MalformedUserMessage: string := "SyntaxError"

  /** The login endpoint's reply. */
  datatype LoginReply = LoginReply(token: string, role: string)

  /** The arguments of one login request. */
  datatype Credentials = Credentials(email: string, password: string)

  /**
   * The session restored at start-up: the "user" entry read back when it is
   * present and non-empty, otherwise no session. No network call, no expiry check.
   * Err stands for the exception reading a malformed entry throws.
   */
  function Restore(storage: map<string, string>): (r: Result<Option<Session>>)
    ensures UserKey !in storage || storage[UserKey] == "" ==> r == Ok(None)
    ensures r.Err? <==> UserKey in storage && storage[UserKey] != "" && SessionCodec.Parse(storage[UserKey]).None?
  {
    if UserKey !in storage || storage[UserKey] == "" then Ok(None)
    else
      match SessionCodec.Parse(storage[UserKey])
      case Some(s) => Ok(Some(s))
      case None => Err(MalformedUserMessage)
  }

  /** The session a successful login builds: the role comes from the reply, not from the token. */
  function SessionOf(reply: LoginReply, sub: string): (s: Session)
    ensures s.token == reply.token && s.role == reply.role && s.email == sub
  {
    Session(reply.token, reply.role, sub)
  }

  /** The store after a successful login writes both entries. */
  function StoreAfterLogin(storage: map<string, string>, s: Session): (st: map<string, string>)
    ensures st.Keys == storage.Keys + {UserKey, TokenKey}
    ensures st[UserKey] == SessionCodec.Stringify(s) && st[TokenKey] == s.token
    ensures forall k | k in storage && k != UserKey && k != TokenKey :: st[k] == storage[k]
  {
    storage[UserKey := SessionCodec.Stringify(s)][TokenKey := s.token]
  }

  /** Restoring right after a login gives back the session the login built. */
  lemma RestoreAfterLogin(storage: map<string, string>, s: Session)
    ensures Restore(StoreAfterLogin(storage, s)) == Ok(Some(s))
  {
    SessionCodec.ParseStringify(s);
  }

  /** Restoring after either logout gives no session. */
  lemma RestoreAfterLogout(storage: map<string, string>)
    ensures Restore(storage - {UserKey}) == Ok(None)
  {
  }

  class AuthProvider {
    /** The token decoder: the token's `sub` claim, or the message of the error decoding throws. */
    const jwtSub: string -> Result<string>

    var user: Option<Session>
    var storage: map<string, string>
    var location: string

    /** The login requests issued, in order. */
    ghost var requests: seq<Credentials>

    /** Mounting restores the session from the store. A malformed entry makes mounting throw. */
    constructor (storage0: map<string, string>, location0: string, jwtSub: string -> Result<string>)
      requires Restore(storage0).Ok?
      ensures this.jwtSub == jwtSub
      ensures user == Restore(storage0).value
      ensures storage == storage0 && location == location0 && requests == []
    {
      this.jwtSub := jwtSub;
      user := Restore(storage0).value;
      storage := storage0;
      location := location0;
      requests := [];
    }

    /**
     * Requests a login, decodes the token, then publishes and stores the session
     * and navigates to the companies page. Returns the error that propagates, if any;
     * on an error nothing but the request log changes.
     */
    method Login(email: string, password: string, reply: Result<LoginReply>) returns (error: Option<string>)
      modifies this
      ensures requests == old(requests) + [Credentials(email, password)]
      ensures error.None? <==> reply.Ok? && jwtSub(reply.value.token).Ok?
      ensures reply.Err? ==> error == Some(reply.message)
      ensures reply.Ok? && jwtSub(reply.value.token).Err? ==> error == Some(jwtSub(reply.value.token).message)
      ensures error.Some? ==> user == old(user) && storage == old(storage) && location == old(location)
      ensures error.None? ==>
        var s := SessionOf(reply.value, jwtSub(reply.value.token).value);
        && user == Some(s)
        && storage == StoreAfterLogin(old(storage), s)
        && location == LandingPath
    {
      requests := requests + [Credentials(email, password)];
      if reply.Err? {
        return Some(reply.message);
      }
      var data := reply.value;
      var sub := jwtSub(data.token);
      if sub.Err? {
        return Some(sub.message);
      }
      var userData := SessionOf(data, sub.value);
      user := Some(userData);
      storage := storage[UserKey := SessionCodec.Stringify(userData)];
      storage := storage[TokenKey := userData.token];
      location := LandingPath;
      error := None;
    }

    /** Clears the session and the "user" entry and returns to the login page; the "token" entry stays. */
    method Logout()
      modifies this
      ensures user == None
      ensures storage == old(storage) - {UserKey}
      ensures TokenKey in old(storage) ==> TokenKey in storage && storage[TokenKey] == old(storage)[TokenKey]
      ensures location == AccessPolicy.LoginPath
      ensures requests == old(requests)
    {
      user := None;
      storage := storage - {UserKey};
      location := AccessPolicy.LoginPath;
    }

    /**
     * The layout's exit button: removes the "user" entry and returns to the login
     * page, but leaves the in-memory session in place.
     */
    method LayoutLogout()
      modifies this
      ensures user == old(user)
      ensures storage == old(storage) - {UserKey}
      ensures location == AccessPolicy.LoginPath
      ensures requests == old(requests)
    {
      storage := storage - {UserKey};
      location := AccessPolicy.LoginPath;
    }
  }

  /** A login followed by a page reload: the provider mounted afresh holds the same session. */
  method ReloadAfterLogin(auth: AuthProvider, email: string, password: string, reply: Result<LoginReply>)
    returns (reloaded: AuthProvider)
    modifies auth
    ensures reply.Ok? && auth.jwtSub(reply.value.token).Ok? ==> reloaded.user == auth.user
  {
    var error := auth.Login(email, password, reply);
    if error.None? {
      RestoreAfterLogin(old(auth.storage), auth.user.value);
      reloaded := new AuthProvider(auth.storage, auth.location, auth.jwtSub);
    } else {
      reloaded := new AuthProvider(map[], auth.location, auth.jwtSub);
    }
  }
}

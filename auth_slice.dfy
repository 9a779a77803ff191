/** The client's session state: the signed-in user, the token, and the flags of
    the login and register forms. */
module AuthSlice {
  import opened Wrappers

  /** The user object the login reply carries. */
  datatype SessionUser = SessionUser(id: nat, name: string, email: string, role: string)

  /** The login reply: `{ token, user }`. */
  datatype LoginPayload = LoginPayload(user: SessionUser, token: string)

  /** A snapshot of the state, as the route guards select it. */
  datatype AuthView = AuthView(user: Option<SessionUser>, token: Option<string>, loading: bool, error: Option<string>)

  class AuthState {
    var user: Option<SessionUser>
    var token: Option<string>
    var loading: bool
    var error: Option<string>

    /** The initial state: user and token as previously stored in the browser
        (given here), not loading, no error. */
    constructor (storedUser: Option<SessionUser>, storedToken: Option<string>)
      ensures user == storedUser && token == storedToken && !loading && error == None
    {
      user, token, loading, error := storedUser, storedToken, false, None;
    }

    function View(): AuthView
      reads this
    {
      AuthView(user, token, loading, error)
    }

    /** logout: user and token cleared; `loading` and `error` untouched. */
    method Logout()
      modifies this
      ensures user == None && token == None
      ensures loading == old(loading) && error == old(error)
    {
      user, token := None, None;
    }

    /** login, pending: loading, and the former error cleared. */
    method LoginPending()
      modifies this
      ensures loading && error == None
      ensures user == old(user) && token == old(token)
    {
      loading, error := true, None;
    }

    /** login, fulfilled: the session comes from the payload. */
    method LoginFulfilled(payload: LoginPayload)
      modifies this
      ensures !loading && user == Some(payload.user) && token == Some(payload.token)
      ensures error == old(error)
    {
      loading := false;
      user := Some(payload.user);
      token := Some(payload.token);
    }

    /** login, rejected: the error is recorded, the session kept. */
    method LoginRejected(payload: string)
      modifies this
      ensures !loading && error == Some(payload)
      ensures user == old(user) && token == old(token)
    {
      loading := false;
      error := Some(payload);
    }

    /** register, pending. */
    method RegisterPending()
      modifies this
      ensures loading && error == None
      ensures user == old(user) && token == old(token)
    {
      loading, error := true, None;
    }

    /** register, fulfilled: only `loading` is cleared; registering signs nobody in. */
    method RegisterFulfilled()
      modifies this
      ensures !loading
      ensures user == old(user) && token == old(token) && error == old(error)
    {
      loading := false;
    }

    /** register, rejected. */
    method RegisterRejected(payload: string)
      modifies this
      ensures !loading && error == Some(payload)
      ensures user == old(user) && token == old(token)
    {
      loading := false;
      error := Some(payload);
    }
  }
}

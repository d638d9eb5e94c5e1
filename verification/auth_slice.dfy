/**
 * The `auth` store slice (src/store/authSlice.js): whether a user is
 * logged in, and the user id and token of the session.
 */
module AuthSlice {
  import opened JsRuntime

  /** The `login` action's payload; either field may be missing. */
  datatype LoginPayload = LoginPayload(userId: Option<string>, token: Option<string>)

  class AuthState {
    var isLoggedIn: bool
    var userId: Option<string>
    var token: Option<string>

    /** The logged-out state, which is also the initial one. */
    predicate LoggedOut()
      reads this
    {
      !isLoggedIn && userId == None && token == None
    }

    constructor ()
      ensures LoggedOut()
    {
      isLoggedIn, userId, token := false, None, None;
    }

    /** `login`: overwrites any earlier credentials with the payload's. */
    method Login(payload: LoginPayload)
      modifies this
      ensures isLoggedIn && userId == payload.userId && token == payload.token
    {
      isLoggedIn := true;
      userId := payload.userId;
      token := payload.token;
    }

    /** `logout`: back to the initial state, from any state. */
    method Logout()
      modifies this
      ensures LoggedOut()
    {
      isLoggedIn := false;
      userId := None;
      token := None;
    }
  }

  /** Login followed by logout leaves the initial state, and a second logout changes nothing. */
  method LoginLogoutLogout(st: AuthState, payload: LoginPayload)
    modifies st
    ensures st.LoggedOut()
  {
    st.Login(payload);
    st.Logout();
    st.Logout();
  }
}

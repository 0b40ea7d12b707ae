/**
 * The client session store (frontend/src/store/slices/authSlice.ts): `user`, `token`,
 * `loading` and `error`, together with the browser's single persisted `"token"` entry,
 * which the login/register thunks write, the logout thunk removes and a failed
 * current-user lookup removes.
 */
module AuthSlice {
  import opened Wrappers
  import Thunk

  datatype Role = Admin | Member

  datatype User = User(
    id: string,
    email: string,
    fullName: string,
    role: Role,
    createdAt: string,
    updatedAt: string)

  /** The body of a successful `/auth/login` or `/auth/register` reply. */
  datatype AuthResponse = AuthResponse(user: User, token: string)

  /** The async operations with a rejected case. */
  datatype Operation = Login | Register | GetCurrentUser

  function DefaultError(op: Operation): (m: string)
    ensures m != ""
  {
    match op
    case Login => "Error al iniciar sesión"
    case Register => "Error al registrar usuario"
    case GetCurrentUser => "Error al obtener usuario actual"
  }

  /**
   * Every action type the auth reducer reacts to: the two plain reducers and the
   * lifecycle cases of the thunks. Redux hands any other type back with the state as it was.
   */
  const HandledActionTypes: set<string> := {
    "auth/clearError", "auth/resetState",
    "auth/login/pending", "auth/login/fulfilled", "auth/login/rejected",
    "auth/register/pending", "auth/register/fulfilled", "auth/register/rejected",
    "auth/logout/fulfilled",
    "auth/getCurrentUser/pending", "auth/getCurrentUser/fulfilled", "auth/getCurrentUser/rejected"
  }

  /** The handled types whose case reads neither a payload nor an error from the action. */
  const BareActionTypes: set<string> := {
    "auth/clearError", "auth/resetState",
    "auth/login/pending", "auth/register/pending", "auth/getCurrentUser/pending",
    "auth/logout/fulfilled"
  }

  class AuthStore {
    var user: Option<User>
    var token: Option<string>
    var loading: bool
    var error: Option<string>
    /** The browser's `localStorage` entry `"token"`. */
    var storedToken: Option<string>

    /** The state's token is the persisted one. */
    predicate InSync()
      reads this
    {
      token == storedToken
    }

    /** `initialState`: the token is read from storage at start-up. */
    constructor (persisted: Option<string>)
      ensures user == None && token == persisted && !loading && error == None
      ensures storedToken == persisted && InSync()
    {
      user := None;
      token := persisted;
      loading := false;
      error := None;
      storedToken := persisted;
    }

    method ClearError()
      modifies this
      ensures error == None
      ensures user == old(user) && token == old(token) && loading == old(loading)
      ensures storedToken == old(storedToken)
      ensures old(InSync()) ==> InSync()
    {
      error := None;
    }

    /**
     * `resetState`: drops user, token and error but leaves storage alone, so the
     * state token can disagree with the stored one afterwards.
     */
    method ResetState()
      modifies this
      ensures user == None && token == None && error == None
      ensures loading == old(loading) && storedToken == old(storedToken)
      ensures InSync() <==> old(storedToken) == None
    {
      user := None;
      token := None;
      error := None;
    }

    /** The pending case of login, register and getCurrentUser (logout has none). */
    method Pending()
      modifies this
      ensures loading && error == None
      ensures user == old(user) && token == old(token) && storedToken == old(storedToken)
      ensures old(InSync()) ==> InSync()
    {
      loading := true;
      error := None;
    }

    /**
     * A successful login or register: the thunk stores the reply's token, then the
     * fulfilled case copies user and token into the state.
     */
    method SessionFulfilled(response: AuthResponse)
      modifies this
      ensures storedToken == Some(response.token)
      ensures !loading && user == Some(response.user) && token == Some(response.token)
      ensures error == old(error)
      ensures InSync()
    {
      storedToken := Some(response.token);
      loading := false;
      user := Some(response.user);
      token := Some(response.token);
    }

    /** `login` thunk and `login.fulfilled`. */
    method LoginFulfilled(response: AuthResponse)
      modifies this
      ensures storedToken == Some(response.token)
      ensures !loading && user == Some(response.user) && token == Some(response.token)
      ensures error == old(error)
      ensures InSync()
    {
      SessionFulfilled(response);
    }

    /** `register` thunk and `register.fulfilled`. */
    method RegisterFulfilled(response: AuthResponse)
      modifies this
      ensures storedToken == Some(response.token)
      ensures !loading && user == Some(response.user) && token == Some(response.token)
      ensures error == old(error)
      ensures InSync()
    {
      SessionFulfilled(response);
    }

    /** `logout.fulfilled` on its own: the state forgets the session; storage is not touched. */
    method LogoutFulfilled()
      modifies this
      ensures user == None && token == None && error == None
      ensures loading == old(loading) && storedToken == old(storedToken)
    {
      user := None;
      token := None;
      error := None;
    }

    /**
     * The `logout` thunk (no network call: it only removes the stored token) followed
     * by its fulfilled case.
     */
    method Logout()
      modifies this
      ensures storedToken == None
      ensures user == None && token == None && error == None
      ensures loading == old(loading)
      ensures InSync()
    {
      storedToken := None;
      LogoutFulfilled();
    }

    /** `getCurrentUser.fulfilled`: only the user is replaced. */
    method GetCurrentUserFulfilled(payload: User)
      modifies this
      ensures !loading && user == Some(payload)
      ensures token == old(token) && storedToken == old(storedToken) && error == old(error)
      ensures old(InSync()) ==> InSync()
    {
      loading := false;
      user := Some(payload);
    }

    /**
     * The rejected cases. A failed login or register leaves the session and storage as
     * they were; a failed current-user lookup also ends the session, in state and storage.
     */
    method Rejected(op: Operation, thrown: Option<string>)
      modifies this
      ensures !loading && error == Some(Thunk.RejectionMessage(thrown, DefaultError(op)))
      ensures op == GetCurrentUser ==> user == None && token == None && storedToken == None
      ensures op != GetCurrentUser ==>
        user == old(user) && token == old(token) && storedToken == old(storedToken)
      ensures old(InSync()) ==> InSync()
    {
      loading := false;
      error := Some(Thunk.RejectionMessage(thrown, DefaultError(op)));
      if op == GetCurrentUser {
        user := None;
        token := None;
        storedToken := None;
      }
    }

    /**
     * The reducer's answer to a bare `{type}` action. A type the reducer does not match
     * leaves the state as it was. (Types whose case reads a payload or an error are
     * dispatched only by their thunks, with those attached.)
     */
    method Dispatch(actionType: string)
      requires actionType in BareActionTypes || actionType !in HandledActionTypes
      modifies this
      ensures actionType !in HandledActionTypes ==>
        user == old(user) && token == old(token) && loading == old(loading)
        && error == old(error) && storedToken == old(storedToken)
      ensures actionType == "auth/logout/fulfilled" ==> user == None && token == None
      ensures storedToken == old(storedToken)
    {
      if actionType == "auth/clearError" {
        ClearError();
      } else if actionType == "auth/resetState" {
        ResetState();
      } else if actionType in {"auth/login/pending", "auth/register/pending", "auth/getCurrentUser/pending"} {
        Pending();
      } else if actionType == "auth/logout/fulfilled" {
        LogoutFulfilled();
      }
    }
  }
}

/** The reducer store of store/index.tsx, a stand-in for a Redux auth
    slice: the login input (token, ids, role, name) and an `uid` flag
    telling whether someone is signed in. */
module AuthStore {

  datatype LoginInput = LoginInput(token: string, userID: string, user_id: string, loginAs: string, userName: string)
  datatype AuthFlag = AuthFlag(uid: bool)
  datatype LoginSlice = LoginSlice(input: LoginInput, auth: AuthFlag)
  datatype State = State(login: LoginSlice)

  /** `LOGIN` with its payload, `LOGOUT`, or any other action type, which the
      reducer's default branch receives. */
  datatype Action = LoginAct(payload: LoginInput) | LogoutAct | OtherAct(kind: string)

  const EmptyInput := LoginInput("", "", "", "", "")

  /** `localStorage.getItem(key) || ""`. */
  function Item(storage: map<string, string>, key: string): string
  {
    if key in storage then storage[key] else ""
  }

  /** `initialState`, read from browser storage when the module loads. */
  function InitialState(storage: map<string, string>): State
  {
    State(LoginSlice(
      LoginInput(Item(storage, "token"), Item(storage, "userID"), Item(storage, "user_id"),
                 Item(storage, "loginAs"), Item(storage, "userName")),
      AuthFlag(Item(storage, "token") != "")))
  }

  function Reducer(state: State, action: Action): State
  {
    match action
    case LoginAct(payload) => state.(login := LoginSlice(payload, AuthFlag(true)))
    case LogoutAct => state.(login := LoginSlice(EmptyInput, AuthFlag(false)))
    case OtherAct(_) => state
  }

  /** `authActions.login`. */
  function AuthLogin(payload: LoginInput): Action
  {
    LoginAct(payload)
  }

  /** `authActions.logout`. */
  function AuthLogout(): Action
  {
    LogoutAct
  }

  /** Someone is signed in exactly when a token is held. */
  predicate TokenMatchesFlag(state: State)
  {
    state.login.auth.uid <==> state.login.input.token != ""
  }

  /** The store starts signed in exactly when storage holds a non-empty
      token; each of the five fields is read back from its own storage key,
      and a missing key reads as the empty string. */
  lemma InitialStateSpec(storage: map<string, string>)
    ensures var input := InitialState(storage).login.input;
      && ("token" in storage ==> input.token == storage["token"])
      && ("token" !in storage ==> input.token == "")
      && ("userID" in storage ==> input.userID == storage["userID"])
      && ("userID" !in storage ==> input.userID == "")
      && ("user_id" in storage ==> input.user_id == storage["user_id"])
      && ("user_id" !in storage ==> input.user_id == "")
      && ("loginAs" in storage ==> input.loginAs == storage["loginAs"])
      && ("loginAs" !in storage ==> input.loginAs == "")
      && ("userName" in storage ==> input.userName == storage["userName"])
      && ("userName" !in storage ==> input.userName == "")
    ensures TokenMatchesFlag(InitialState(storage))
    ensures InitialState(storage).login.auth.uid <==> "token" in storage && storage["token"] != ""
    ensures InitialState(map[]).login.input == EmptyInput
    ensures !InitialState(map[]).login.auth.uid
  {
  }

  /** Logging in stores the payload and sets the flag; logging out from any
      state yields the state of empty storage and is idempotent; any other
      action leaves the state alone. */
  lemma ReducerSpec(state: State, payload: LoginInput, other: string)
    ensures Reducer(state, AuthLogin(payload)).login.input == payload
    ensures Reducer(state, AuthLogin(payload)).login.auth.uid
    ensures Reducer(state, AuthLogout()) == InitialState(map[])
    ensures Reducer(Reducer(state, AuthLogout()), AuthLogout()) == Reducer(state, AuthLogout())
    ensures Reducer(Reducer(state, AuthLogin(payload)), AuthLogout()) == Reducer(state, AuthLogout())
    ensures Reducer(state, OtherAct(other)) == state
  {
  }

  /** The flag keeps tracking the token across every action, provided a
      login payload carries a non-empty token: `LOGIN` sets the flag
      whatever the payload's token is. */
  lemma ReducerKeepsTokenFlag(state: State, action: Action)
    requires TokenMatchesFlag(state)
    requires action.LoginAct? ==> action.payload.token != ""
    ensures TokenMatchesFlag(Reducer(state, action))
  {
  }
}

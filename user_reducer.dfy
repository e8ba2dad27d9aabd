/** The signed-in user's slice of the store (src/store/reducers/user.js): a
    reducer over SET_USER, FOUND_USER and UNSET_USER.  The token decoder is a
    parameter; the persistence and logout calls become returned effects. */
module UserReducer {
  import opened Common

  datatype AccessToken = AccessToken(exp: int, tkn: string)

  /** `{ user: {uid, wallet}, tokens: {acsTkn} }`, the part the actions replace. */
  datatype UserState = UserState(uid: Option<string>, wallet: Option<string>, acsTkn: Option<AccessToken>)

  /** The whole slice: the user part plus whatever other top-level fields the
      state holds (kept by the spread in the set actions). */
  datatype State = State(userState: UserState, others: map<string, string>)

  const InitUserState := UserState(None, None, None)
  const InitState := State(InitUserState, map[])

  /** `action.data` of SET_USER: the raw access token is still encoded. */
  datatype SetUserData = SetUserData(uid: Option<string>, wallet: Option<string>, acsTkn: string)

  datatype Action =
    | SetUser(setData: SetUserData)
    | FoundUser(found: UserState)   // `action.data`: the persisted record, its token possibly null
    | UnsetUser
    | Other(actionType: string)

  /** The calls the reducer makes besides returning a state. */
  datatype Effect = Persist(saved: UserState) | Logout | NoEffect

  /** The reducer's result, or `Threw` where it throws: SET_USER with a token
      the decoder rejects, or FOUND_USER whose record has a null access token
      (reading `acsTkn.exp` of null). */
  datatype Outcome = Reduced(state: State, effect: Effect) | Threw

  /** `moment(jwt_decode(tkn).exp * 1000)` as epoch milliseconds, or None
      where the decoder throws. */
  function ExpiryMillis(decodeExp: string -> Option<int>, tkn: string): (ms: Option<int>)
    ensures ms.Some? <==> decodeExp(tkn).Some?
    ensures ms.Some? ==> ms.value == decodeExp(tkn).value * 1000
  {
    match decodeExp(tkn)
    case Some(exp) => Some(exp * 1000)
    case None => None
  }

  /** `handleData(state = initState, action)`. */
  function Reduce(state: Option<State>, action: Action, decodeExp: string -> Option<int>): (o: Outcome)
    ensures o.Threw? <==>
      || (action.SetUser? && decodeExp(action.setData.acsTkn).None?)
      || (action.FoundUser? && action.found.acsTkn.None?)
    ensures action.Other? ==> o == Reduced(if state.Some? then state.value else InitState, NoEffect)
    ensures action.UnsetUser? ==> o == Reduced(InitState, Logout)
    ensures o.Reduced? && (action.SetUser? || action.FoundUser?) ==>
      && o.state.others == (if state.Some? then state.value.others else map[])
      && o.effect == Persist(o.state.userState)
    ensures o.Reduced? && action.FoundUser? ==> o.state.userState == action.found
    ensures o.Reduced? && action.SetUser? ==>
      && o.state.userState.uid == action.setData.uid
      && o.state.userState.wallet == action.setData.wallet
      && o.state.userState.acsTkn == Some(AccessToken(decodeExp(action.setData.acsTkn).value * 1000, action.setData.acsTkn))
  {
    var s := if state.Some? then state.value else InitState;
    match action
    case SetUser(d) =>
      (match ExpiryMillis(decodeExp, d.acsTkn)
       case None => Threw
       case Some(ms) =>
         var u := UserState(d.uid, d.wallet, Some(AccessToken(ms, d.acsTkn)));
         Reduced(s.(userState := u), Persist(u)))
    case FoundUser(u) =>
      if u.acsTkn.None? then Threw else Reduced(s.(userState := u), Persist(u))
    case UnsetUser => Reduced(InitState, Logout)
    case Other(_) => Reduced(s, NoEffect)
  }

  /** The record SET_USER persists, dispatched again as FOUND_USER (the
      "found in storage" path), rebuilds the same user state on any store. */
  lemma FoundRestoresSet(s1: Option<State>, s2: Option<State>, d: SetUserData, decodeExp: string -> Option<int>)
    requires decodeExp(d.acsTkn).Some?
    ensures Reduce(s1, SetUser(d), decodeExp).Reduced?
    ensures var saved := Reduce(s1, SetUser(d), decodeExp).effect.saved;
      Reduce(s2, FoundUser(saved), decodeExp) == Reduce(s2, SetUser(d), decodeExp)
  {
  }

  /** Signing out forgets everything, whatever came before. */
  lemma UnsetForgetsUser(state: Option<State>, a: Action, decodeExp: string -> Option<int>)
    requires Reduce(state, a, decodeExp).Reduced?
    ensures var s := Reduce(state, a, decodeExp).state;
      var u := Reduce(Some(s), UnsetUser, decodeExp).state.userState;
      u.uid.None? && u.wallet.None? && u.acsTkn.None?
  {
  }

  /** Applying the same FOUND_USER twice is the same as applying it once;
      a record without a token throws on every store. */
  lemma FoundUserIdempotent(state: Option<State>, u: UserState, decodeExp: string -> Option<int>)
    ensures var o := Reduce(state, FoundUser(u), decodeExp);
      && (o.Threw? <==> u.acsTkn.None?)
      && (o.Reduced? ==> Reduce(Some(o.state), FoundUser(u), decodeExp) == o)
  {
  }
}

/** The authentication slice of the store: whether the server session is logged in. */
module FlaskDuck {
  import opened Wrappers

  datatype FlaskState = FlaskState(loggedIn: bool)

  datatype FlaskAction =
    | AuthenticateFlask(girderToken: string)
    | AuthenticateFlaskSucceeded
    | AuthenticateFlaskFailed(error: string)

  function DefaultState(): (s: FlaskState)
    ensures !s.loggedIn
  {
    FlaskState(false)
  }

  /** `isLoggedIn` */
  function IsLoggedIn(state: FlaskState): (r: bool)
    ensures r <==> state == FlaskState(true)
  {
    state.loggedIn
  }

  /** The slice's reducer; a login request leaves the state alone. */
  function Reduce(state: FlaskState, action: FlaskAction): (next: FlaskState)
    ensures action.AuthenticateFlaskSucceeded? ==> IsLoggedIn(next)
    ensures action.AuthenticateFlaskFailed? ==> !IsLoggedIn(next)
    ensures action.AuthenticateFlask? ==> next == state
  {
    match action
    case AuthenticateFlaskSucceeded => state.(loggedIn := true)
    case AuthenticateFlaskFailed(_) => state.(loggedIn := false)
    case AuthenticateFlask(_) => state
  }

  /** A run of actions from `state`, in dispatch order. */
  function ReduceAll(state: FlaskState, actions: seq<FlaskAction>): FlaskState {
    if actions == [] then state else Reduce(ReduceAll(state, actions[..|actions| - 1]), actions[|actions| - 1])
  }

  /** Dispatching an action twice is the same as dispatching it once. */
  lemma ReduceIdempotent(state: FlaskState, action: FlaskAction)
    ensures Reduce(Reduce(state, action), action) == Reduce(state, action)
  {
  }

  /** Whether the last authentication outcome in `actions` was a success; `None` when there is none. */
  function LastOutcome(actions: seq<FlaskAction>): Option<bool> {
    if actions == [] then None
    else
      match actions[|actions| - 1]
      case AuthenticateFlaskSucceeded => Some(true)
      case AuthenticateFlaskFailed(_) => Some(false)
      case AuthenticateFlask(_) => LastOutcome(actions[..|actions| - 1])
  }

  /**
   * After a run of actions the session is logged in exactly as the last
   * authentication outcome in the run says; with no outcome in the run, the
   * state is as before.
   */
  lemma {:induction false} LastOutcomeWins(state: FlaskState, actions: seq<FlaskAction>)
    ensures LastOutcome(actions).None? ==> ReduceAll(state, actions) == state
    ensures LastOutcome(actions).Some? ==> IsLoggedIn(ReduceAll(state, actions)) == LastOutcome(actions).value
  {
    if actions != [] {
      LastOutcomeWins(state, actions[..|actions| - 1]);
    }
  }
}

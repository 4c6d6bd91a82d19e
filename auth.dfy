/**
 * The client session store (`useAuth`, frontend/src/lib/auth.ts).
 *
 * The store has two fields, `user` and `isInitialized`, and four actions.
 * The "who am I" request that `initialize` awaits is replaced by its outcome,
 * passed in as an argument, and each action runs as one atomic step.
 * `AuthState` and `Step` give the state machine as values. The class
 * `AuthStore` holds the two fields, and each of its methods is proved to
 * perform the corresponding `Step`.
 */
module Auth {
  import opened Wrappers

  /** The user object the client keeps (`id` and `token` are optional). */
  datatype User = User(id: Option<string>, email: string, name: string, token: Option<string>)

  /** What the awaited `fetch` of the current user produced. */
  datatype FetchOutcome =
    | OkResponse(body: User)   // status 2xx; the parsed JSON body
    | ErrorResponse            // any other status; the store throws 'Unauthorized' itself
    | Threw                    // the request or the JSON parsing threw

  /** The store's state: `user` is `null` as `None`. */
  datatype AuthState = AuthState(user: Option<User>, isInitialized: bool)

  /** The state the store is created with. */
  const Initial := AuthState(None, false)

  /** The store's actions, with the outcome `initialize` awaits as an argument. */
  datatype Action =
    | SetUser(newUser: Option<User>)
    | Login(loggedIn: User)
    | Initialize(outcome: FetchOutcome)
    | Logout

  /** The state after one action. */
  function Step(s: AuthState, a: Action): (r: AuthState)
    // no action clears the flag
    ensures s.isInitialized ==> r.isInitialized
    // initialize always ends initialized; it keeps a user exactly on an ok response, and that user is the body
    ensures a.Initialize? ==> r.isInitialized
    ensures a.Initialize? ==> (r.user.Some? <==> a.outcome.OkResponse?)
    ensures a.Initialize? && a.outcome.OkResponse? ==> r.user == Some(a.outcome.body)
    // the other three actions only assign the user
    ensures !a.Initialize? ==> r.isInitialized == s.isInitialized
    ensures a.SetUser? ==> r.user == a.newUser
    ensures a.Login? ==> r.user == Some(a.loggedIn)
    ensures a.Logout? ==> r.user.None?
  {
    match a
    case SetUser(u) => s.(user := u)
    case Login(u) => s.(user := Some(u))
    case Initialize(OkResponse(body)) => AuthState(Some(body), true)
    case Initialize(_) => AuthState(None, true)
    case Logout => s.(user := None)
  }

  /** The state after a sequence of actions, applied in order. */
  function Run(s: AuthState, actions: seq<Action>): AuthState
    decreases |actions|
  {
    if actions == [] then s else Run(Step(s, actions[0]), actions[1..])
  }

  /** Running two sequences one after the other is running their concatenation. */
  lemma {:induction false} RunConcat(s: AuthState, xs: seq<Action>, ys: seq<Action>)
    ensures Run(s, xs + ys) == Run(Run(s, xs), ys)
    decreases |xs|
  {
    if xs == [] {
      assert xs + ys == ys;
    } else {
      assert (xs + ys)[1..] == xs[1..] + ys;
      RunConcat(Step(s, xs[0]), xs[1..], ys);
    }
  }

  /** `isInitialized` is monotone: once true, no sequence of actions makes it false. */
  lemma {:induction false} RunKeepsInitialized(s: AuthState, actions: seq<Action>)
    requires s.isInitialized
    ensures Run(s, actions).isInitialized
    decreases |actions|
  {
    if actions != [] {
      RunKeepsInitialized(Step(s, actions[0]), actions[1..]);
    }
  }

  /** Once an `initialize` has completed, whatever came before or after, the store is initialized. */
  lemma InitializedAfterInitialize(s: AuthState, before: seq<Action>, outcome: FetchOutcome, after: seq<Action>)
    ensures Run(s, before + [Initialize(outcome)] + after).isInitialized
  {
    RunConcat(s, before + [Initialize(outcome)], after);
    RunConcat(s, before, [Initialize(outcome)]);
    RunKeepsInitialized(Run(s, before + [Initialize(outcome)]), after);
  }

  /** Without an `initialize`, the store never leaves its initial, uninitialized state's flag. */
  lemma {:induction false} NoInitializeStaysUninitialized(actions: seq<Action>, s: AuthState)
    requires !s.isInitialized
    requires forall i :: 0 <= i < |actions| ==> !actions[i].Initialize?
    ensures !Run(s, actions).isInitialized
    decreases |actions|
  {
    if actions != [] {
      NoInitializeStaysUninitialized(actions[1..], Step(s, actions[0]));
    }
  }

  /** The store object: the two fields the actions assign. */
  class AuthStore {
    var user: Option<User>
    var isInitialized: bool

    /** The fields as one state value. */
    function State(): AuthState
      reads this
    {
      AuthState(user, isInitialized)
    }

    /** A new store has no user and is not initialized. */
    constructor ()
      ensures State() == Initial
    {
      user := None;
      isInitialized := false;
    }

    method SetUser(u: Option<User>)
      modifies this
      ensures State() == Step(old(State()), Action.SetUser(u))
      ensures isInitialized == old(isInitialized)
    {
      user := u;
    }

    method Login(u: User)
      modifies this
      ensures State() == Step(old(State()), Action.Login(u))
      ensures isInitialized == old(isInitialized)
    {
      user := Some(u);
    }

    /**
     * Awaits the "who am I" request (its outcome is the argument). An ok
     * response stores the body; a non-ok response throws 'Unauthorized',
     * which the catch handles like any other failure by storing no user.
     * Both paths set the flag.
     */
    method Initialize(outcome: FetchOutcome)
      modifies this
      ensures State() == Step(old(State()), Action.Initialize(outcome))
      ensures isInitialized
    {
      match outcome {
        case OkResponse(body) =>
          user, isInitialized := Some(body), true;
        case _ =>
          // a non-ok status throws 'Unauthorized'; the catch stores no user
          user, isInitialized := None, true;
      }
    }

    method Logout()
      modifies this
      ensures State() == Step(old(State()), Action.Logout)
      ensures user.None? && isInitialized == old(isInitialized)
    {
      user := None;
    }
  }
}

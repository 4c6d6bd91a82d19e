/**
 * The route guard (`PrivateRoute`, frontend/src/components/PrivateRoute.tsx).
 *
 * What the guard renders is a pure choice over the session state. Its effect
 * hook asks the session store to initialize while the store is not yet
 * initialized. A visit is modelled as three steps: the first render, then the
 * effect, then the render after the store has settled. The outcome of the
 * request that `initialize` awaits is an argument.
 */
module PrivateRoute {
  import opened Auth

  /** What the guard shows. */
  datatype View =
    | Loading           // the "Loading..." placeholder
    | RedirectToLogin   // <Navigate to="/login" replace />
    | Children          // the protected page

  /** The render decision. */
  function Render(s: AuthState): (v: View)
    ensures v == Loading <==> !s.isInitialized
    ensures v == RedirectToLogin <==> s.isInitialized && s.user.None?
    ensures v == Children <==> s.isInitialized && s.user.Some?
  {
    if !s.isInitialized then Loading
    else if s.user.None? then RedirectToLogin
    else Children
  }

  /** The effect's condition for requesting `initialize`. */
  predicate RequestsInitialize(s: AuthState)
  {
    !s.isInitialized
  }

  /** After any `initialize` has completed, no later sequence of actions brings back the loading view. */
  lemma NeverLoadingAfterInitialize(s: AuthState, before: seq<Action>, outcome: FetchOutcome, after: seq<Action>)
    ensures Render(Run(s, before + [Initialize(outcome)] + after)) != Loading
  {
    InitializedAfterInitialize(s, before, outcome, after);
  }

  /** From the store's initial state, the guard keeps showing the loading view until some `initialize` completes. */
  lemma LoadingUntilInitialize(actions: seq<Action>)
    requires forall i :: 0 <= i < |actions| ==> !actions[i].Initialize?
    ensures Render(Run(Initial, actions)) == Loading
    ensures RequestsInitialize(Run(Initial, actions))
  {
    NoInitializeStaysUninitialized(actions, Initial);
  }

  /**
   * One visit to a guarded route: the first render, the effect (which runs
   * `initialize` only when the store is not initialized), and the render
   * after that. The settled view is never the loading view; it is the
   * protected page exactly when the store then holds a user.
   */
  method Visit(auth: AuthStore, outcome: FetchOutcome) returns (first: View, settled: View)
    modifies auth
    ensures first == Render(old(auth.State()))
    ensures old(auth.isInitialized) ==> auth.State() == old(auth.State())
    ensures !old(auth.isInitialized) ==> auth.State() == Step(old(auth.State()), Initialize(outcome))
    ensures settled != Loading
    ensures settled == Children <==> auth.user.Some?
  {
    first := Render(auth.State());
    if RequestsInitialize(auth.State()) {
      auth.Initialize(outcome);
    }
    settled := Render(auth.State());
  }
}

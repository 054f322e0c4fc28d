/**
 * The root component's session listener: the account state starts as
 * `currentUser()`, a sign-in event replaces it with the event's detail, a
 * sign-out event clears it, and unmounting removes exactly the two
 * callbacks that were added. The state is what the account context
 * provides to every component below the root.
 */
module AppRoot {
  import opened Js
  import opened Dom
  import opened Api

  /** The listener that copies a sign-in event's detail into `c`. */
  function OnSignIn(c: StateCell, handler: nat): Listener {
    Listener(SignInType, handler, SetToDetail, c)
  }

  /** The listener that clears `c` on sign-out. */
  function OnSignOut(c: StateCell, handler: nat): Listener {
    Listener(SignOutType, handler, SetToNull, c)
  }

  /** Exactly the two callbacks of one mounted root write the slot `c`. */
  ghost predicate WatchedBy(ls: seq<Listener>, c: StateCell, onSignIn: nat, onSignOut: nat) {
    && OnSignIn(c, onSignIn) in ls
    && OnSignOut(c, onSignOut) in ls
    && forall l :: l in ls && l.cell == c ==> l == OnSignIn(c, onSignIn) || l == OnSignOut(c, onSignOut)
  }

  /**
   * When every listener of `e`'s type on `c` would store the same value `x`,
   * and there is one, the slot ends up holding `x`.
   */
  lemma {:induction false} HeardAgreed(ls: seq<Listener>, e: AuthEvent, c: StateCell, v: Json, x: Json)
    requires exists l :: l in ls && l.cell == c && l.eventType == e.Type()
    requires forall l :: l in ls && l.cell == c && l.eventType == e.Type() ==> Apply(l.effect, e) == x
    ensures Heard(ls, e, c, v) == x
  {
    var last := ls[|ls| - 1];
    if !(last.eventType == e.Type() && last.cell == c) {
      var init := ls[..|ls| - 1];
      assert ls == init + [last];
      var l :| l in ls && l.cell == c && l.eventType == e.Type();
      assert l in init;
      HeardAgreed(init, e, c, v, x);
    }
  }

  /** A slot no listener writes keeps its value whatever is dispatched. */
  lemma {:induction false} HeardUnwatched(ls: seq<Listener>, e: AuthEvent, c: StateCell, v: Json)
    requires forall l :: l in ls ==> l.cell != c
    ensures Heard(ls, e, c, v) == v
  {
    if ls != [] {
      var init := ls[..|ls| - 1];
      assert forall l :: l in init ==> l in ls;
      HeardUnwatched(init, e, c, v);
    }
  }

  /** While the root listens, sign-in stores the event's detail and sign-out stores null. */
  lemma AccountFollowsEvents(ls: seq<Listener>, c: StateCell, onSignIn: nat, onSignOut: nat, e: AuthEvent, v: Json)
    requires WatchedBy(ls, c, onSignIn, onSignOut)
    ensures e.SignIn? ==> Heard(ls, e, c, v) == e.detail
    ensures e.SignOut? ==> Heard(ls, e, c, v) == JNull
  {
    if e.SignIn? {
      HeardAgreed(ls, e, c, v, e.detail);
    } else {
      HeardAgreed(ls, e, c, v, JNull);
    }
  }

  /**
   * Removing the two callbacks that were appended, neither of which was
   * registered before, gives back exactly the listeners there were.
   */
  lemma {:induction false} CleanupUndoesSubscribe(ls: seq<Listener>, c: StateCell, onSignIn: nat, onSignOut: nat)
    requires !Registered(ls, SignInType, onSignIn) && !Registered(ls, SignOutType, onSignOut)
    ensures Without(Without(ls + [OnSignIn(c, onSignIn), OnSignOut(c, onSignOut)], SignInType, onSignIn),
                    SignOutType, onSignOut) == ls
  {
    var added := [OnSignIn(c, onSignIn), OnSignOut(c, onSignOut)];
    WithoutDistributes(ls, added, SignInType, onSignIn);
    WithoutNothingRegistered(ls, SignInType, onSignIn);
    assert Without(added, SignInType, onSignIn) == [OnSignOut(c, onSignOut)];
    WithoutDistributes(ls, [OnSignOut(c, onSignOut)], SignOutType, onSignOut);
    WithoutNothingRegistered(ls, SignOutType, onSignOut);
    assert Without([OnSignOut(c, onSignOut)], SignOutType, onSignOut) == [];
  }

  /** Once the root's two callbacks are removed, no event changes its account state. */
  lemma CleanupSilences(ls: seq<Listener>, c: StateCell, onSignIn: nat, onSignOut: nat, e: AuthEvent, v: Json)
    requires WatchedBy(ls, c, onSignIn, onSignOut)
    ensures Heard(Without(Without(ls, SignInType, onSignIn), SignOutType, onSignOut), e, c, v) == v
  {
    var rest := Without(Without(ls, SignInType, onSignIn), SignOutType, onSignOut);
    assert forall l :: l in rest ==> l.cell != c by {
      forall l | l in rest ensures l.cell != c {
        assert l in Without(ls, SignInType, onSignIn);
      }
    }
    HeardUnwatched(rest, e, c, v);
  }

  /** One mounted root: its account state and the identities of its two callbacks. */
  class App {
    const account: StateCell
    var onSignIn: nat
    var onSignOut: nat
    var subscribed: bool

    constructor (initial: Json)
      ensures fresh(account) && account.value == initial
      ensures !subscribed
    {
      account := new StateCell(initial);
      subscribed := false;
    }

    /** The root's callbacks are registered and nothing else writes its state. */
    ghost predicate Listening(env: Browser)
      reads this, env
    {
      subscribed && WatchedBy(env.listeners, account, onSignIn, onSignOut)
    }

    /** `useEffect`'s body: two new callbacks, added for the two event types. */
    method Subscribe(env: Browser)
      requires env.Valid() && !subscribed && account !in env.Cells()
      modifies this, env
      ensures env.Valid() && Listening(env)
      ensures env.listeners == old(env.listeners) + [OnSignIn(account, onSignIn), OnSignOut(account, onSignOut)]
      ensures !Registered(old(env.listeners), SignInType, onSignIn) && !Registered(old(env.listeners), SignOutType, onSignOut)
      ensures env.storage == old(env.storage) && env.events == old(env.events)
    {
      var handleIn := env.NewHandler();
      var handleOut := env.NewHandler();
      env.AddEventListener(SignInType, handleIn, SetToDetail, account);
      assert !Registered(env.listeners, SignOutType, handleOut);
      env.AddEventListener(SignOutType, handleOut, SetToNull, account);
      onSignIn, onSignOut, subscribed := handleIn, handleOut, true;
      assert forall l :: l in old(env.listeners) ==> l.cell in old(env.Cells());
    }

    /**
     * Every later render of the root: `currentUser()` is evaluated again as
     * the state's initial value and then discarded, so the context keeps
     * providing the account state, unless the user slot no longer parses,
     * in which case the render throws.
     */
    method Render(env: Browser) returns (r: Outcome<Json>)
      ensures r.Rejected? <==> CurrentUser(env.storage, env.json).Rejected?
      ensures r.Rejected? ==> r.reason == SyntaxError
      ensures r.Resolved? ==> r.value == account.value
    {
      var initial := CurrentUser(env.storage, env.json);
      if initial.Rejected? {
        return Rejected(initial.reason);
      }
      r := Resolved(account.value);
    }

    /** The cleanup `useEffect` returns: removes the two callbacks it added. */
    method Cleanup(env: Browser)
      requires env.Valid() && subscribed
      modifies this, env
      ensures env.Valid() && !subscribed
      ensures onSignIn == old(onSignIn) && onSignOut == old(onSignOut)
      ensures env.listeners == Without(Without(old(env.listeners), SignInType, old(onSignIn)), SignOutType, old(onSignOut))
      ensures env.storage == old(env.storage) && env.events == old(env.events) && env.nextHandler == old(env.nextHandler)
    {
      env.RemoveEventListener(SignInType, onSignIn);
      env.RemoveEventListener(SignOutType, onSignOut);
      subscribed := false;
    }
  }

  /**
   * One effect run and its cleanup, as React performs them around a mount
   * and unmount: the document's listeners end as they were, and the
   * storage and event log are untouched.
   */
  method SubscribeThenCleanup(app: App, env: Browser)
    requires env.Valid() && !app.subscribed && app.account !in env.Cells()
    modifies app, env
    ensures env.Valid() && !app.subscribed
    ensures env.listeners == old(env.listeners)
    ensures env.storage == old(env.storage) && env.events == old(env.events)
  {
    app.Subscribe(env);
    CleanupUndoesSubscribe(old(env.listeners), app.account, app.onSignIn, app.onSignOut);
    app.Cleanup(env);
  }

  /**
   * Rendering the root: the account state starts as `currentUser()`; a user
   * slot that does not parse makes the render throw.
   */
  method Mount(env: Browser) returns (r: Outcome<App>)
    ensures r.Rejected? <==> CurrentUser(env.storage, env.json).Rejected?
    ensures r.Rejected? ==> r.reason == SyntaxError
    ensures r.Resolved? ==>
      && fresh(r.value) && fresh(r.value.account)
      && r.value.account.value == CurrentUser(env.storage, env.json).value
      && !r.value.subscribed && r.value.account !in env.Cells()
  {
    var user := CurrentUser(env.storage, env.json);
    if user.Rejected? {
      return Rejected(user.reason);
    }
    var app := new App(user.value);
    r := Resolved(app);
  }
}

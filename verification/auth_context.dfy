/**
 * The authentication context that wraps the app: the signed-in user, that
 * user's profile document and a loading flag, updated by the auth listener and
 * by `refreshProfile`. Each `getUserProfile` call is an outcome supplied by the
 * caller (the document, null, or a thrown error); the class reads it from a
 * `UserStore`.
 */
module AuthContext {
  import opened Wrappers
  import opened Firestore

  datatype User = User(uid: string)

  /** What the context provides: `user`, `profile` and `isLoading`. */
  datatype AuthView = AuthView(user: Option<User>, profile: Option<Doc>, isLoading: bool)

  /** Before the listener first fires: no user, no profile, loading. */
  const Initial: AuthView := AuthView(None, None, true)

  /** The outcome of one `getUserProfile` call. */
  datatype Lookup = Fetched(doc: Option<Doc>) | Threw

  /** A profile only ever accompanies a user, and while loading there is neither. */
  predicate Coherent(v: AuthView) {
    && (v.profile.Some? ==> v.user.Some?)
    && (v.isLoading ==> v.user.None? && v.profile.None?)
  }

  /**
   * The auth listener: the user is stored; with a user the profile is the
   * fetched one, and a thrown lookup leaves none; loading is over either way.
   */
  function AfterAuthEvent(v: AuthView, fbUser: Option<User>, lookup: Lookup): (w: AuthView)
    ensures w.user == fbUser && !w.isLoading
    ensures w.profile.Some? <==> fbUser.Some? && lookup.Fetched? && lookup.doc.Some?
    ensures w.profile.Some? ==> w.profile == lookup.doc
    ensures Coherent(w)
  {
    if fbUser.Some? then
      AuthView(fbUser, if lookup.Fetched? then lookup.doc else None, false)
    else
      AuthView(None, None, false)
  }

  /** A refresh's new view and whether its promise rejected. */
  datatype Refreshed = Refreshed(view: AuthView, rejected: bool)

  /**
   * `refreshProfile`: without a user nothing happens; otherwise the fetched
   * profile replaces the old one, and a thrown lookup (not caught here) rejects
   * and changes nothing.
   */
  function AfterRefresh(v: AuthView, lookup: Lookup): (r: Refreshed)
    ensures r.rejected <==> v.user.Some? && lookup.Threw?
    ensures r.view.user == v.user && r.view.isLoading == v.isLoading
    ensures v.user.Some? && lookup.Fetched? ==> r.view.profile == lookup.doc
    ensures v.user.None? || lookup.Threw? ==> r.view == v
  {
    if v.user.None? then Refreshed(v, false)
    else if lookup.Threw? then Refreshed(v, true)
    else Refreshed(v.(profile := lookup.doc), false)
  }

  lemma RefreshCoherent(v: AuthView, lookup: Lookup)
    requires Coherent(v)
    ensures Coherent(AfterRefresh(v, lookup).view)
  {
  }

  /** The events the context reacts to, with the lookup each one's fetch produced. */
  datatype Event = AuthFired(fbUser: Option<User>, lookup: Lookup) | RefreshCalled(lookup: Lookup)

  function Apply(v: AuthView, e: Event): AuthView {
    match e
    case AuthFired(u, l) => AfterAuthEvent(v, u, l)
    case RefreshCalled(l) => AfterRefresh(v, l).view
  }

  function Run(v: AuthView, events: seq<Event>): AuthView
    decreases |events|
  {
    if events == [] then v else Run(Apply(v, events[0]), events[1..])
  }

  predicate AuthHasFired(events: seq<Event>) {
    exists i :: 0 <= i < |events| && events[i].AuthFired?
  }

  /**
   * From the initial view, every reachable view is coherent, and loading is
   * over exactly when the auth listener has fired at least once.
   */
  lemma {:induction false} RunFromInitial(events: seq<Event>)
    ensures Coherent(Run(Initial, events))
    ensures Run(Initial, events).isLoading <==> !AuthHasFired(events)
  {
    RunCoherent(Initial, events);
    LoadingUntilAuth(Initial, events);
  }

  lemma {:induction false} RunCoherent(v: AuthView, events: seq<Event>)
    requires Coherent(v)
    ensures Coherent(Run(v, events))
    decreases |events|
  {
    if events != [] {
      if events[0].RefreshCalled? {
        RefreshCoherent(v, events[0].lookup);
      }
      RunCoherent(Apply(v, events[0]), events[1..]);
    }
  }

  lemma {:induction false} LoadingUntilAuth(v: AuthView, events: seq<Event>)
    ensures Run(v, events).isLoading <==> v.isLoading && !AuthHasFired(events)
    decreases |events|
  {
    if events != [] {
      LoadingUntilAuth(Apply(v, events[0]), events[1..]);
      if AuthHasFired(events[1..]) {
        var i :| 0 <= i < |events[1..]| && events[1..][i].AuthFired?;
        assert events[i + 1].AuthFired?;
      }
      if AuthHasFired(events) && !events[0].AuthFired? {
        var i :| 0 <= i < |events| && events[i].AuthFired?;
        assert events[1..][i - 1].AuthFired?;
      }
    }
  }

  /**
   * Registration signs up first, so the listener's fetch finds no profile for the
   * new uid; once the profile is saved, `refreshProfile` picks up exactly the
   * saved document.
   */
  lemma RefreshAfterRegistration(v: AuthView, u: User, users: map<string, Doc>, data: Doc)
    requires u.uid !in users
    ensures var signedIn := AfterAuthEvent(v, Some(u), Fetched(ProfileOf(users, u.uid)));
      var saved := SavedProfiles(users, u.uid, data);
      && signedIn.profile == None
      && AfterRefresh(signedIn, Fetched(ProfileOf(saved, u.uid))).view.profile == Some(data + CreationFields(u.uid))
  {
  }

  /** The context's state, reassigned by the listener and by `refreshProfile`. */
  class AuthSession {
    var user: Option<User>
    var profile: Option<Doc>
    var isLoading: bool

    function View(): AuthView
      reads this
    {
      AuthView(user, profile, isLoading)
    }

    constructor ()
      ensures View() == Initial
    {
      user := None;
      profile := None;
      isLoading := true;
    }

    /**
     * One firing of the auth listener. With a user, the profile is read from
     * `store` unless the read throws (`fetchFails`).
     */
    method OnAuthChange(fbUser: Option<User>, store: UserStore, fetchFails: bool)
      modifies this
      ensures var lookup := if fetchFails || fbUser.None? then Threw else Fetched(store.GetUserProfile(fbUser.value.uid));
        View() == AfterAuthEvent(old(View()), fbUser, lookup)
      ensures profile.Some? ==> user.Some? && user.value.uid in store.users && profile.value == store.users[user.value.uid]
    {
      user := fbUser;
      if fbUser.Some? {
        if fetchFails {
          profile := None;
        } else {
          profile := store.GetUserProfile(fbUser.value.uid);
        }
      } else {
        profile := None;
      }
      isLoading := false;
    }

    /** `refreshProfile`: re-reads the signed-in user's profile; `rejected` reports a thrown read. */
    method RefreshProfile(store: UserStore, fetchFails: bool) returns (rejected: bool)
      modifies this
      ensures var lookup := if fetchFails || old(user).None? then Threw else Fetched(store.GetUserProfile(old(user).value.uid));
        Refreshed(View(), rejected) == AfterRefresh(old(View()), lookup)
      ensures old(user).Some? && !fetchFails ==> profile == store.GetUserProfile(user.value.uid)
    {
      rejected := false;
      if user.Some? {
        if fetchFails {
          rejected := true;
        } else {
          profile := store.GetUserProfile(user.value.uid);
        }
      }
    }
  }
}

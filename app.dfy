// The application root (src/App.js): the logged-in user and the open till held as
// state, restored from storage at startup and written back on login and logout.

module AppSession {
  import opened Js
  import opened Domain
  import opened LocalStorage

  class App {
    var currentUser: Option<User>
    var currentSession: Option<Session>
    const store: LocalStore

    /** Both pieces of state start out null. */
    constructor(store: LocalStore)
      ensures this.store == store
      ensures currentUser == None && currentSession == None
    {
      this.store := store;
      currentUser := None;
      currentSession := None;
    }

    /** The startup effect: each of user and session is taken from storage only when present there. */
    method Startup()
      modifies this`currentUser, this`currentSession
      ensures var (user, session) := RestoredFrom(store.items);
        && currentUser == (if user.Some? then user else old(currentUser))
        && currentSession == (if session.Some? then session else old(currentSession))
    {
      var user, session := store.RestoreSession();
      if user.Some? {
        currentUser := user;
      }
      if session.Some? {
        currentSession := session;
      }
    }

    /** handleLogin: sets the user and persists it beside the current session. */
    method HandleLogin(user: User)
      modifies this`currentUser, store
      ensures currentUser == Some(user)
      ensures store.items == WithUserAndSession(old(store.items), Some(user), currentSession)
    {
      currentUser := Some(user);
      store.StoreSession(Some(user), currentSession);
    }

    /** handleLogout: clears user and session in state and in storage. */
    method HandleLogout()
      modifies this`currentUser, this`currentSession, store
      ensures currentUser == None && currentSession == None
      ensures store.items == WithUserAndSession(old(store.items), None, None)
      ensures RestoredFrom(store.items) == (None, None)
    {
      currentUser := None;
      currentSession := None;
      store.StoreSession(None, None);
      StoreThenRestore(old(store.items), None, None);
    }
  }
}

// The login form (src/pages/LoginPage.js): a first-match credential lookup over
// the fetched user list, then the user is handed to the application and stored
// with no till.

module Login {
  import opened Js
  import opened Domain
  import opened LocalStorage
  import opened AppSession

  predicate Matches(u: User, username: string, password: string)
  {
    u.username == username && u.password == password
  }

  /** Array.prototype.findIndex for the credential test: the first matching user, or -1. */
  function FirstMatch(users: seq<User>, username: string, password: string): (i: int)
    ensures -1 <= i < |users|
    ensures i >= 0 ==> Matches(users[i], username, password)
    ensures i >= 0 ==> forall j :: 0 <= j < i ==> !Matches(users[j], username, password)
    ensures i == -1 <==> forall j :: 0 <= j < |users| ==> !Matches(users[j], username, password)
  {
    if users == [] then -1
    else if Matches(users[0], username, password) then 0
    else
      var k := FirstMatch(users[1..], username, password);
      if k == -1 then -1 else k + 1
  }

  /**
   * handleSubmit: on a match the application's login handler runs and then the
   * user is stored with a null session; otherwise nothing changes.
   */
  method HandleSubmit(app: App, allUsers: seq<User>, username: string, password: string) returns (loggedIn: bool)
    modifies app`currentUser, app.store
    ensures var i := FirstMatch(allUsers, username, password);
      && (loggedIn <==> i >= 0)
      && (loggedIn ==> app.currentUser == Some(allUsers[i]))
      && (loggedIn ==> app.store.items == WithUserAndSession(old(app.store.items), Some(allUsers[i]), None))
    ensures !loggedIn ==> app.currentUser == old(app.currentUser) && app.store.items == old(app.store.items)
  {
    var i := FirstMatch(allUsers, username, password);
    if i < 0 {
      return false;
    }
    var user := allUsers[i];
    app.HandleLogin(user);
    app.store.StoreSession(Some(user), None);
    StoreTwice(old(app.store.items), Some(user), app.currentSession, Some(user), None);
    loggedIn := true;
  }
}

// The navigation bar (src/components/Navbar.js): the logout guard for a cashier
// with an open till, and the role-dependent menu.

module Navbar {
  import opened Js
  import opened Domain
  import opened LocalStorage
  import opened AppSession

  predicate HasRole(user: Option<User>, role: string)
  {
    user.Some? && user.value.role == role
  }

  /** A cashier whose till is still open may not log out. */
  predicate LogoutBlocked(user: Option<User>, session: Option<Session>)
  {
    HasRole(user, "cashier") && session.Some?
  }

  /** handleLogout: refused while blocked; otherwise the application logs out and storage is cleared. */
  method HandleLogout(app: App) returns (loggedOut: bool)
    modifies app`currentUser, app`currentSession, app.store
    ensures loggedOut <==> !LogoutBlocked(old(app.currentUser), old(app.currentSession))
    ensures !loggedOut ==> && app.currentUser == old(app.currentUser)
                           && app.currentSession == old(app.currentSession)
                           && app.store.items == old(app.store.items)
    ensures loggedOut ==> && app.currentUser == None && app.currentSession == None
                          && app.store.items == WithUserAndSession(old(app.store.items), None, None)
  {
    if LogoutBlocked(app.currentUser, app.currentSession) {
      return false;
    }
    app.HandleLogout();
    app.store.StoreSession(None, None);
    StoreTwice(old(app.store.items), None, None, None, None);
    loggedOut := true;
  }

  datatype MenuEntry = UsersLink | CategoriesLink | BrandsLink | ProductsLink | ReportsLink
                     | TillLink | SalesLink | CameraButton

  const AdminEntries: seq<MenuEntry> := [UsersLink, CategoriesLink, BrandsLink, ProductsLink, ReportsLink]
  const CashierEntries: seq<MenuEntry> := [TillLink, SalesLink, CameraButton]

  /** The menu: admin entries for role admin only, cashier entries for role cashier only. */
  function MenuEntries(user: Option<User>): (r: seq<MenuEntry>)
    ensures forall e :: e in AdminEntries ==> (e in r <==> HasRole(user, "admin"))
    ensures forall e :: e in CashierEntries ==> (e in r <==> HasRole(user, "cashier"))
    ensures !HasRole(user, "admin") && !HasRole(user, "cashier") ==> r == []
  {
    (if HasRole(user, "admin") then AdminEntries else [])
    + (if HasRole(user, "cashier") then CashierEntries else [])
  }
}

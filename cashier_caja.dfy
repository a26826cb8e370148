// The till page (src/pages/CashierCajaPage.js): opening a till from a typed
// initial amount and closing it, each persisted together with the current user.

module CashierCaja {
  import opened Js
  import opened Domain
  import opened LocalStorage
  import opened AppSession

  datatype OpenOutcome =
    | InvalidAmount         // parseFloat gave NaN: an alert, nothing else
    | NoCurrentUser         // `currentUser.id` throws before any state change
    | Opened(session: Session)

  /**
   * openCaja. `nowMillis` and `nowIso` are the clock readings (Date.now() and the
   * ISO start time).
   */
  method OpenCaja(app: App, initialAmount: string, nowMillis: nat, nowIso: string) returns (outcome: OpenOutcome)
    modifies app`currentSession, app.store
    ensures ParseFloat(initialAmount).None? ==> outcome == InvalidAmount
    ensures ParseFloat(initialAmount).Some? && app.currentUser.None? ==> outcome == NoCurrentUser
    ensures ParseFloat(initialAmount).Some? && app.currentUser.Some? ==>
      outcome == Opened(Session(IntToString(nowMillis), app.currentUser.value.id, nowIso, ParseFloat(initialAmount).value))
    ensures outcome.Opened? ==>
      && app.currentSession == Some(outcome.session)
      && app.store.items == WithUserAndSession(old(app.store.items), app.currentUser, Some(outcome.session))
    ensures !outcome.Opened? ==>
      app.currentSession == old(app.currentSession) && app.store.items == old(app.store.items)
  {
    var amt := ParseFloat(initialAmount);
    if amt.None? {
      return InvalidAmount;
    }
    if app.currentUser.None? {
      return NoCurrentUser;
    }
    var session := Session(IntToString(nowMillis), app.currentUser.value.id, nowIso, amt.value);
    app.currentSession := Some(session);
    app.store.StoreSession(app.currentUser, Some(session));
    outcome := Opened(session);
  }

  /** closeCaja: no session in state, and the user stored without one. */
  method CloseCaja(app: App)
    modifies app`currentSession, app.store
    ensures app.currentSession == None
    ensures app.store.items == WithUserAndSession(old(app.store.items), app.currentUser, None)
  {
    app.currentSession := None;
    app.store.StoreSession(app.currentUser, None);
  }

  datatype TillView = OpenForm | CloseButton(session: Session)

  /** The page shows the opening form exactly when no till is open, the close button exactly when one is. */
  function TillControls(session: Option<Session>): (v: TillView)
    ensures v.OpenForm? <==> session.None?
    ensures v.CloseButton? ==> Some(v.session) == session
  {
    if session.None? then OpenForm else CloseButton(session.value)
  }
}

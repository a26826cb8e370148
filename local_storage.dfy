// The browser key-value store as the services layer uses it (src/services/api.js):
// the logged-in user and the open till under two fixed keys, and the prefetched
// catalog lists under their own keys. JSON encoding and decoding are taken as the
// identity, so a key holds the value itself.

module LocalStorage {
  import opened Js
  import opened Domain

  /** What a key can hold. */
  datatype Stored =
    | StoredUser(user: User)
    | StoredSession(session: Session)
    | StoredCategories(categories: seq<Category>)
    | StoredBrands(brands: seq<Brand>)
    | StoredProducts(products: seq<Product>)

  const UserKey: string := "currentUser"
  const SessionKey: string := "currentSession"
  const CategoriesKey: string := "prefetch_categories"
  const BrandsKey: string := "prefetch_brands"
  const ProductsKey: string := "prefetch_products"

  /** `value.length` as prefetchData reads it: a list's length; an object has none (never > 0). */
  function ListLength(v: Stored): nat
  {
    match v
    case StoredCategories(cs) => |cs|
    case StoredBrands(bs) => |bs|
    case StoredProducts(ps) => |ps|
    case _ => 0
  }

  /** The store after storeSessionToLocalStorage(user, session): set or remove each of the two keys. */
  function WithUserAndSession(m: map<string, Stored>, user: Option<User>, session: Option<Session>): (r: map<string, Stored>)
    ensures UserKey in r <==> user.Some?
    ensures user.Some? ==> r[UserKey] == StoredUser(user.value)
    ensures SessionKey in r <==> session.Some?
    ensures session.Some? ==> r[SessionKey] == StoredSession(session.value)
    ensures forall k :: k != UserKey && k != SessionKey ==> (k in r <==> k in m)
    ensures forall k :: k in m && k != UserKey && k != SessionKey ==> r[k] == m[k]
  {
    var withUser := if user.Some? then m[UserKey := StoredUser(user.value)] else m - {UserKey};
    if session.Some? then withUser[SessionKey := StoredSession(session.value)] else withUser - {SessionKey}
  }

  /**
   * What restoreSessionFromLocalStorage reads: the user and the session when their
   * keys hold one (a key holding some other kind of value reads as absent).
   */
  function RestoredFrom(m: map<string, Stored>): (r: (Option<User>, Option<Session>))
    ensures r.0.Some? <==> UserKey in m && m[UserKey].StoredUser?
    ensures r.0.Some? ==> m[UserKey] == StoredUser(r.0.value)
    ensures r.1.Some? <==> SessionKey in m && m[SessionKey].StoredSession?
    ensures r.1.Some? ==> m[SessionKey] == StoredSession(r.1.value)
  {
    var user := if UserKey in m && m[UserKey].StoredUser? then Some(m[UserKey].user) else None;
    var session := if SessionKey in m && m[SessionKey].StoredSession? then Some(m[SessionKey].session) else None;
    (user, session)
  }

  /** Storing a user and a session, null or not, and restoring gives them back. */
  lemma StoreThenRestore(m: map<string, Stored>, user: Option<User>, session: Option<Session>)
    ensures RestoredFrom(WithUserAndSession(m, user, session)) == (user, session)
  {
  }

  /** Storing twice in a row is the same as storing the second pair only. */
  lemma StoreTwice(m: map<string, Stored>, u1: Option<User>, s1: Option<Session>, u2: Option<User>, s2: Option<Session>)
    ensures WithUserAndSession(WithUserAndSession(m, u1, s1), u2, s2) == WithUserAndSession(m, u2, s2)
  {
  }

  /** prefetchData's test: the key holds a non-empty list. */
  predicate CacheHit(m: map<string, Stored>, key: string)
  {
    key in m && ListLength(m[key]) > 0
  }

  /** The store after prefetchData(key, …) whose loader would answer `response`. */
  function AfterPrefetch(m: map<string, Stored>, key: string, response: Stored): map<string, Stored>
  {
    if CacheHit(m, key) then m else m[key := response]
  }

  /** A prefetch that stored a non-empty list makes the next prefetch of that key a hit on the same list. */
  lemma PrefetchStoresHit(m: map<string, Stored>, key: string, data: Stored)
    requires ListLength(data) > 0
    ensures CacheHit(m[key := data], key) && m[key := data][key] == data
  {
  }

  class LocalStore {
    var items: map<string, Stored>

    constructor(initial: map<string, Stored>)
      ensures items == initial
    {
      items := initial;
    }

    /** storeSessionToLocalStorage: only the user and session keys change. */
    method StoreSession(user: Option<User>, session: Option<Session>)
      modifies this
      ensures items == WithUserAndSession(old(items), user, session)
    {
      if user.Some? {
        items := items[UserKey := StoredUser(user.value)];
      } else {
        items := items - {UserKey};
      }
      if session.Some? {
        items := items[SessionKey := StoredSession(session.value)];
      } else {
        items := items - {SessionKey};
      }
    }

    /** restoreSessionFromLocalStorage: reads both keys, changes nothing. */
    method RestoreSession() returns (user: Option<User>, session: Option<Session>)
      ensures (user, session) == RestoredFrom(items)
    {
      user, session := None, None;
      if UserKey in items && items[UserKey].StoredUser? {
        user := Some(items[UserKey].user);
      }
      if SessionKey in items && items[SessionKey].StoredSession? {
        session := Some(items[SessionKey].session);
      }
    }

    /** storeDataInCache. */
    method StoreDataInCache(key: string, data: Stored)
      modifies this
      ensures items == old(items)[key := data]
    {
      items := items[key := data];
    }

    /** getDataFromCache: null for an absent key, else the stored value. */
    method GetDataFromCache(key: string) returns (r: Option<Stored>)
      ensures r.None? <==> key !in items
      ensures r.Some? ==> r.value == items[key]
    {
      if key !in items {
        return None;
      }
      r := Some(items[key]);
    }

    /**
     * prefetchData: a cached non-empty list is returned without calling the
     * loader; otherwise the loader runs once with `limit` and its result is
     * stored under the key and returned.
     */
    method PrefetchData(key: string, fetchFunc: int -> Stored, limit: int) returns (data: Stored, fetched: bool)
      modifies this
      ensures fetched <==> !CacheHit(old(items), key)
      ensures !fetched ==> data == old(items)[key] && items == old(items)
      ensures fetched ==> data == fetchFunc(limit) && items == old(items)[key := data]
      ensures items == AfterPrefetch(old(items), key, fetchFunc(limit))
    {
      var existing := GetDataFromCache(key);
      if existing.Some? && ListLength(existing.value) > 0 {
        return existing.value, false;
      }
      data := fetchFunc(limit);
      StoreDataInCache(key, data);
      fetched := true;
    }
  }
}

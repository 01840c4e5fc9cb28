/** The authentication store (frontend/src/store/authStore.js): the
    `hasVisited`, `isDemo` and `user` fields and the transitions that set
    them, two of which also write to `localStorage`. A page reload is a new
    store built over the same storage. */
module AuthStore {
  import opened Wrappers
  import opened Js
  import opened WebStorage

  const VisitedKey := "regenlens-visited"
  const DemoKey := "regenlens-demo"

  /** `b.toString()` for a boolean. */
  function BoolText(b: bool): (s: string)
    ensures s == "true" <==> b
  {
    if b then "true" else "false"
  }

  /** What a fresh store reads from storage: visited iff the stored flag is
      exactly the string "true". */
  predicate StoredVisited(items: map<string, string>) {
    VisitedKey in items && items[VisitedKey] == "true"
  }

  class Store {
    const storage: LocalStorage
    var hasVisited: bool
    var isDemo: bool
    var user: Value

    /** The store's creation: the visited flag comes from storage, demo mode
        and the user do not. Storage is only read. */
    constructor(storage: LocalStorage)
      ensures this.storage == storage
      ensures hasVisited <==> storage.GetItem(VisitedKey) == Some("true")
      ensures !isDemo && user == Null
    {
      this.storage := storage;
      hasVisited := storage.GetItem(VisitedKey) == Some("true");
      isDemo := false;
      user := Null;
    }

    /** `setUser`: only the user changes. */
    method SetUser(newUser: Value)
      modifies this
      ensures user == newUser
      ensures hasVisited == old(hasVisited) && isDemo == old(isDemo)
      ensures unchanged(storage)
    {
      user := newUser;
    }

    /** `setDemoMode`: the flag, and its text in storage under the demo key. */
    method SetDemoMode(demo: bool)
      modifies this, storage
      ensures isDemo == demo
      ensures hasVisited == old(hasVisited) && user == old(user)
      ensures storage.items == old(storage.items)[DemoKey := BoolText(demo)]
    {
      isDemo := demo;
      storage.SetItem(DemoKey, BoolText(demo));
    }

    /** `markAsVisited`: the flag, and "true" in storage. A second call
        changes nothing. */
    method MarkAsVisited()
      modifies this, storage
      ensures hasVisited
      ensures isDemo == old(isDemo) && user == old(user)
      ensures storage.items == old(storage.items)[VisitedKey := "true"]
      ensures StoredVisited(storage.items)
      ensures old(hasVisited) && old(StoredVisited(storage.items)) ==>
                storage.items == old(storage.items) && hasVisited == old(hasVisited)
    {
      hasVisited := true;
      storage.SetItem(VisitedKey, "true");
    }

    /** `clearUser`: the user becomes `null`; nothing else changes. */
    method ClearUser()
      modifies this
      ensures user == Null && !Truthy(user)
      ensures hasVisited == old(hasVisited) && isDemo == old(isDemo)
      ensures unchanged(storage)
    {
      user := Null;
    }
  }

  /** A session that marks the visit, turns demo mode on or off and signs a
      user in, followed by a reload: the reloaded store remembers the visit
      but not the demo mode or the user, although the demo flag was written. */
  method SessionThenReload(storage: LocalStorage, demo: bool, signedIn: Value)
    returns (reloaded: Store)
    modifies storage
    ensures reloaded.hasVisited
    ensures !reloaded.isDemo && reloaded.user == Null
    ensures storage.GetItem(DemoKey) == Some(BoolText(demo))
  {
    var session := new Store(storage);
    session.SetUser(signedIn);
    session.MarkAsVisited();
    session.SetDemoMode(demo);
    reloaded := new Store(storage);
  }
}

/**
 * The authentication slice of the client store, with the browser storage slot
 * `userData` it writes on login and clears on logout, and reads back when the
 * application starts.
 */
module Auth {
  import opened Wrappers
  import opened Routes

  /** A signed-in user as the store keeps it; fields other than `role` stand for the payload. */
  datatype User = User(uid: string, name: string, email: string, role: Option<Role>)

  /**
   * The browser's `localStorage` entry `userData`, which outlives any one
   * store. A stored user reads back as the same user.
   */
  class Storage {
    var userData: Option<User>

    constructor (userData: Option<User>)
      ensures this.userData == userData
    {
      this.userData := userData;
    }
  }

  /** `AuthState`; `hasWindow` is whether the code runs in a browser. */
  class AuthState {
    var isLoggedIn: bool
    var userData: Option<User>
    const storage: Storage
    const hasWindow: bool

    /** The flag says exactly whether a user is held. */
    ghost predicate Valid()
      reads this
    {
      isLoggedIn == userData.Some?
    }

    /** `initialState`. */
    constructor (storage: Storage, hasWindow: bool)
      ensures Valid()
      ensures !isLoggedIn && userData == None
      ensures this.storage == storage && this.hasWindow == hasWindow
    {
      isLoggedIn := false;
      userData := None;
      this.storage := storage;
      this.hasWindow := hasWindow;
    }

    /** `login`: holds the user and, in a browser, stores it. */
    method Login(user: User)
      modifies this, storage
      ensures Valid()
      ensures isLoggedIn && userData == Some(user)
      ensures storage.userData == if hasWindow then Some(user) else old(storage.userData)
    {
      isLoggedIn := true;
      userData := Some(user);
      if hasWindow {
        storage.userData := Some(user);
      }
    }

    /** `logout`: forgets the user and, in a browser, clears the storage slot. */
    method Logout()
      modifies this, storage
      ensures Valid()
      ensures !isLoggedIn && userData == None
      ensures storage.userData == if hasWindow then None else old(storage.userData)
    {
      isLoggedIn := false;
      userData := None;
      if hasWindow {
        storage.userData := None;
      }
    }

    /** `initializeAuth`: in a browser with a stored user, restores it; otherwise nothing changes. */
    method InitializeAuth()
      requires Valid()
      modifies this
      ensures Valid()
      ensures hasWindow && storage.userData.Some? ==> isLoggedIn && userData == storage.userData
      ensures !(hasWindow && storage.userData.Some?) ==>
                isLoggedIn == old(isLoggedIn) && userData == old(userData)
    {
      if hasWindow {
        var stored := storage.userData;
        if stored.Some? {
          userData := stored;
          isLoggedIn := true;
        }
      }
    }
  }

  /** Logging in, reloading the page and initialising restores the same user. */
  method RestoreAfterReload(user: User, stored: Option<User>) returns (restored: Option<User>, isLoggedIn: bool)
    ensures restored == Some(user) && isLoggedIn
  {
    var storage := new Storage(stored);
    var before := new AuthState(storage, true);
    before.Login(user);
    var after := new AuthState(storage, true);
    after.InitializeAuth();
    restored, isLoggedIn := after.userData, after.isLoggedIn;
  }

  /** Logging out, reloading the page and initialising leaves nobody signed in. */
  method NoRestoreAfterLogout(user: User, stored: Option<User>) returns (restored: Option<User>, isLoggedIn: bool)
    ensures restored == None && !isLoggedIn
  {
    var storage := new Storage(stored);
    var before := new AuthState(storage, true);
    before.Login(user);
    before.Logout();
    var after := new AuthState(storage, true);
    after.InitializeAuth();
    restored, isLoggedIn := after.userData, after.isLoggedIn;
  }

  /**
   * Outside a browser a login writes nothing to storage, which keeps what it
   * held before, and initialising a fresh state restores nobody.
   */
  method ServerSideLoginNotPersisted(user: User, stored: Option<User>)
    returns (storedAfter: Option<User>, restored: Option<User>, isLoggedIn: bool)
    ensures storedAfter == stored
    ensures restored == None && !isLoggedIn
  {
    var storage := new Storage(stored);
    var before := new AuthState(storage, false);
    before.Login(user);
    storedAfter := storage.userData;
    var after := new AuthState(storage, false);
    after.InitializeAuth();
    restored, isLoggedIn := after.userData, after.isLoggedIn;
  }
}

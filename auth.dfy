/**
 * The authentication hook (src/hooks/auth.ts): a flag `isAuthenticated` and
 * the record kept under the storage key "user_auth".
 *
 * `btoa` is an abstract `encode` parameter that may fail (it throws on
 * characters outside Latin-1); a write that the storage refuses is a `false`
 * `accepted` argument. Both failures are caught inside `storeUserData`.
 */
module Auth {
  import opened Wrappers

  const AuthStorageKey := "user_auth"

  /** The stored record: the email, the encoded password, and the name (absent on login). */
  datatype AuthRecord = AuthRecord(email: string, password: string, name: Option<string>)

  /** What the storage holds under the auth key: nothing, the hook's record, or text written by someone else. */
  datatype AuthSlot = NoEntry | Stored(entry: AuthRecord) | Foreign(text: string)

  datatype AuthState = AuthState(slot: AuthSlot, authenticated: bool)

  /** `!!localStorage.getItem(AUTH_STORAGE_KEY)`: any non-empty text counts, whatever it holds. */
  function InitiallyAuthenticated(slot: AuthSlot): (b: bool)
    ensures b <==> slot.Stored? || (slot.Foreign? && slot.text != "")
  {
    match slot
    case NoEntry => false
    case Stored(_) => true
    case Foreign(text) => text != ""
  }

  /** `storeUserData`: encode the password and store the record; on any failure, sign out in memory only. */
  function StoreStep(s: AuthState, email: string, password: string, name: Option<string>,
                         encode: string -> Option<string>, accepted: bool): (t: AuthState)
    ensures t.authenticated <==> encode(password).Some? && accepted
    ensures t.authenticated ==> t.slot == Stored(AuthRecord(email, encode(password).value, name))
    ensures !t.authenticated ==> t.slot == s.slot
  {
    match encode(password)
    case Some(encoded) =>
      if accepted then AuthState(Stored(AuthRecord(email, encoded, name)), true)
      else AuthState(s.slot, false)
    case None => AuthState(s.slot, false)
  }

  /** `login`: store the credentials without a name, then mark the user signed in regardless. */
  function LoginStep(s: AuthState, email: string, password: string,
                 encode: string -> Option<string>, accepted: bool): AuthState
  {
    StoreStep(s, email, password, None, encode, accepted).(authenticated := true)
  }

  /** `register`: store the credentials with the name; the flag is whatever storing left. */
  function RegisterStep(s: AuthState, name: string, email: string, password: string,
                    encode: string -> Option<string>, accepted: bool): AuthState
  {
    StoreStep(s, email, password, Some(name), encode, accepted)
  }

  /** `logout`: remove the record and mark the user signed out. */
  function LogoutStep(s: AuthState): (t: AuthState)
    ensures t.slot == NoEntry && !t.authenticated
  {
    AuthState(NoEntry, false)
  }

  /** Login ends signed in even when the record could not be stored, and never stores a name. */
  lemma LoginRule(s: AuthState, email: string, password: string, encode: string -> Option<string>, accepted: bool)
    ensures var t := LoginStep(s, email, password, encode, accepted);
      && t.authenticated
      && (encode(password).Some? && accepted ==> t.slot == Stored(AuthRecord(email, encode(password).value, None)))
      && (encode(password).None? || !accepted ==> t.slot == s.slot)
  {
  }

  /** Register ends signed in exactly when the record was stored, and then the record carries the name. */
  lemma RegisterRule(s: AuthState, name: string, email: string, password: string,
                     encode: string -> Option<string>, accepted: bool)
    ensures var t := RegisterStep(s, name, email, password, encode, accepted);
      && (t.authenticated <==> encode(password).Some? && accepted)
      && (t.authenticated ==> t.slot.Stored? && t.slot.entry.name == Some(name) && t.slot.entry.email == email)
  {
  }

  /** After a stored login or registration, a fresh hook (a reload) starts signed in; after logout it does not. */
  lemma ReloadAgrees(s: AuthState, name: string, email: string, password: string,
                     encode: string -> Option<string>, accepted: bool)
    ensures var t := RegisterStep(s, name, email, password, encode, accepted);
      t.authenticated ==> InitiallyAuthenticated(t.slot)
    ensures var t := LoginStep(s, email, password, encode, accepted);
      encode(password).Some? && accepted ==> InitiallyAuthenticated(t.slot)
    ensures !InitiallyAuthenticated(LogoutStep(s).slot)
  {
  }

  /** A login whose record could not be stored leaves the flag and the storage disagreeing after a reload. */
  lemma UnstoredLoginIsLostOnReload(email: string, password: string, encode: string -> Option<string>)
    requires encode(password).None?
    ensures var t := LoginStep(AuthState(NoEntry, false), email, password, encode, true);
      t.authenticated && !InitiallyAuthenticated(t.slot)
  {
  }

  /** The hook as a component holds it: the flag and the storage entry, changed in place. */
  class AuthHook {
    var slot: AuthSlot
    var isAuthenticated: bool

    constructor (stored: AuthSlot)
      ensures slot == stored && isAuthenticated == InitiallyAuthenticated(stored)
    {
      slot := stored;
      isAuthenticated := InitiallyAuthenticated(stored);
    }

    function State(): AuthState
      reads this
    {
      AuthState(slot, isAuthenticated)
    }

    method StoreUserData(email: string, password: string, name: Option<string>,
                         encode: string -> Option<string>, accepted: bool)
      modifies this
      ensures State() == StoreStep(old(State()), email, password, name, encode, accepted)
    {
      match encode(password) {
        case Some(encoded) =>
          if accepted {
            slot := Stored(AuthRecord(email, encoded, name));
            isAuthenticated := true;
          } else {
            isAuthenticated := false;
          }
        case None =>
          isAuthenticated := false;
      }
    }

    method Login(email: string, password: string, encode: string -> Option<string>, accepted: bool)
      returns (ok: bool)
      modifies this
      ensures ok
      ensures State() == LoginStep(old(State()), email, password, encode, accepted)
    {
      StoreUserData(email, password, None, encode, accepted);
      isAuthenticated := true;
      ok := true;
    }

    method Register(name: string, email: string, password: string, encode: string -> Option<string>, accepted: bool)
      returns (ok: bool)
      modifies this
      ensures ok
      ensures State() == RegisterStep(old(State()), name, email, password, encode, accepted)
    {
      StoreUserData(email, password, Some(name), encode, accepted);
      ok := true;
    }

    method Logout()
      modifies this
      ensures State() == LogoutStep(old(State()))
    {
      slot := NoEntry;
      isAuthenticated := false;
    }
  }
}

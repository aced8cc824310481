/**
 * The session of contexts/AuthContext.tsx: a guest (no user) or a signed-in
 * user, the busy flag of the sign-in calls, and the login prompt that
 * protected actions open for guests.
 *
 * Persistent storage is the `stored` field; whether a storage call succeeds
 * is a parameter. The simulated network delay is left out, and so are the
 * values `Date.now()` and `encodeURIComponent` produce, which come in as
 * parameters.
 */
module Auth {
  import opened Wrappers
  import opened Utils
  import opened MockData

  /** The session user keeps the five identity fields of a profile. */
  type User = UserProfile

  const AUTH_STORAGE_KEY: string := "@windsor_auth_user"

  /** The prompt shown when a protected action gives no message of its own. */
  const DEFAULT_PROMPT: string := "กรุณาเข้าสู่ระบบเพื่อดำเนินการต่อ"

  const AVATAR_PREFIX: string := "https://ui-avatars.com/api/?name="
  const AVATAR_SUFFIX: string := "&background=137fec&color=fff"

  /** The mock sign-in answers with the sample user, under the email typed in,
      or the sample user's email when none was typed. */
  function LoggedInUser(email: string): (u: User)
    ensures u.email != ""
    ensures email != "" ==> u.email == email
    ensures u.uid == MockUser.uid && u.displayName == MockUser.displayName
    ensures u.phoneNumber == MockUser.phoneNumber && u.avatarUrl == MockUser.avatarUrl
  {
    UserProfile(MockUser.uid, if email != "" then email else MockUser.email,
      MockUser.displayName, MockUser.phoneNumber, MockUser.avatarUrl)
  }

  /** The generated avatar address carries the encoded name between a fixed
      prefix and a fixed suffix, so the name can be read back from it. */
  function AvatarUrl(encodedName: string): (s: string)
    ensures |s| == |AVATAR_PREFIX| + |encodedName| + |AVATAR_SUFFIX|
    ensures s[..|AVATAR_PREFIX|] == AVATAR_PREFIX
    ensures s[|AVATAR_PREFIX|..|s| - |AVATAR_SUFFIX|] == encodedName
    ensures s[|s| - |AVATAR_SUFFIX|..] == AVATAR_SUFFIX
  {
    AVATAR_PREFIX + encodedName + AVATAR_SUFFIX
  }

  /** A registered user's id is "user-" followed by the registration time in
      milliseconds. */
  function RegisteredUid(now: int): (uid: string)
    ensures |uid| > 5 && uid[..5] == "user-"
  {
    "user-" + IntToString(now)
  }

  /** Registrations at different times get different ids. */
  lemma RegisteredUidsDistinct(t1: int, t2: int)
    requires t1 != t2
    ensures RegisteredUid(t1) != RegisteredUid(t2)
  {
    if RegisteredUid(t1) == RegisteredUid(t2) {
      assert IntToString(t1) == RegisteredUid(t1)[5..];
      assert IntToString(t2) == RegisteredUid(t2)[5..];
      IntToStringInjective(t1, t2);
    }
  }

  /** The user `register` creates: the given email and name, no phone
      number, an id from the clock and a generated avatar. */
  function RegisteredUser(now: int, email: string, name: string, encodedName: string): (u: User)
    ensures u.email == email && u.displayName == name && u.phoneNumber == ""
    ensures u.uid == RegisteredUid(now) && u.uid[..5] == "user-"
    ensures u.avatarUrl == AvatarUrl(encodedName)
  {
    UserProfile(RegisteredUid(now), email, name, "", AvatarUrl(encodedName))
  }

  /** The message the login prompt shows: the caller's, unless it is absent or empty. */
  function PromptMessage(message: Option<string>): (r: string)
    ensures r != ""
    ensures message.Some? && message.value != "" ==> r == message.value
    ensures message.None? || message.value == "" ==> r == DEFAULT_PROMPT
  {
    if message.Some? && message.value != "" then message.value else DEFAULT_PROMPT
  }

  class AuthProvider {
    /** None is a guest. */
    var user: Option<User>
    var isLoading: bool
    var showLoginModal: bool
    var loginModalMessage: string
    /** The user saved under AUTH_STORAGE_KEY, if any. */
    var stored: Option<User>
    /** Every value isLoading has been set to, in order. */
    ghost var loadingHistory: seq<bool>

    constructor (saved: Option<User>)
      ensures user.None? && !isLoading && !showLoginModal && loginModalMessage == ""
      ensures stored == saved && loadingHistory == []
    {
      user := None;
      isLoading := false;
      showLoginModal := false;
      loginModalMessage := "";
      stored := saved;
      loadingHistory := [];
    }

    predicate IsAuthenticated()
      reads this
    {
      user.Some?
    }

    /** The load effect: a saved user, when it can be read, becomes the session. */
    method LoadUser(readOk: bool)
      modifies this
      ensures user == if readOk && old(stored).Some? then old(stored) else old(user)
      ensures isLoading == old(isLoading) && showLoginModal == old(showLoginModal)
      ensures loginModalMessage == old(loginModalMessage) && stored == old(stored)
      ensures loadingHistory == old(loadingHistory)
    {
      if readOk && stored.Some? {
        user := stored;
      }
    }

    method SetShowLoginModal(show: bool)
      modifies this`showLoginModal
      ensures showLoginModal == show
    {
      showLoginModal := show;
    }

    method SetIsLoading(b: bool)
      modifies this`isLoading, this`loadingHistory
      ensures isLoading == b && loadingHistory == old(loadingHistory) + [b]
    {
      isLoading := b;
      loadingHistory := loadingHistory + [b];
    }

    /** Mock sign-in. The user is set before it is saved, so when the save
        fails the session is signed in all the same, the prompt stays open,
        and the call answers false. The busy flag is raised on entry and
        lowered on every exit. */
    method Login(email: string, password: string, saveOk: bool) returns (ok: bool)
      modifies this
      ensures ok == saveOk
      ensures user == Some(LoggedInUser(email)) && IsAuthenticated()
      ensures stored == if saveOk then user else old(stored)
      ensures showLoginModal == if saveOk then false else old(showLoginModal)
      ensures loginModalMessage == old(loginModalMessage)
      ensures !isLoading && loadingHistory == old(loadingHistory) + [true, false]
    {
      SetIsLoading(true);
      var loggedIn := LoggedInUser(email);
      user := Some(loggedIn);
      if saveOk {
        stored := Some(loggedIn);
        SetShowLoginModal(false);
        ok := true;
      } else {
        ok := false;
      }
      SetIsLoading(false);
    }

    /** Mock registration: a new user with the given email and name, no phone
        number, an id from the clock and a generated avatar; otherwise the
        same sequence as Login. */
    method Register(email: string, password: string, name: string, now: int, encodedName: string, saveOk: bool)
      returns (ok: bool)
      modifies this
      ensures ok == saveOk
      ensures user == Some(RegisteredUser(now, email, name, encodedName)) && IsAuthenticated()
      ensures stored == if saveOk then user else old(stored)
      ensures showLoginModal == if saveOk then false else old(showLoginModal)
      ensures loginModalMessage == old(loginModalMessage)
      ensures !isLoading && loadingHistory == old(loadingHistory) + [true, false]
    {
      SetIsLoading(true);
      var newUser := RegisteredUser(now, email, name, encodedName);
      user := Some(newUser);
      if saveOk {
        stored := Some(newUser);
        SetShowLoginModal(false);
        ok := true;
      } else {
        ok := false;
      }
      SetIsLoading(false);
    }

    /** The session becomes a guest at once; the saved user is removed only
        when the removal succeeds. A failed removal rejects the returned
        promise, which is `ok == false` here: the session is a guest all the same. */
    method Logout(removeOk: bool) returns (ok: bool)
      modifies this
      ensures ok == removeOk
      ensures user.None? && !IsAuthenticated()
      ensures stored == if removeOk then None else old(stored)
      ensures isLoading == old(isLoading) && showLoginModal == old(showLoginModal)
      ensures loginModalMessage == old(loginModalMessage) && loadingHistory == old(loadingHistory)
    {
      user := None;
      if removeOk {
        stored := None;
      }
      ok := removeOk;
    }

    /** A protected action's gate: a signed-in session passes and nothing
        changes; a guest is refused and the login prompt opens with the
        given message or the default one. */
    method RequireAuth(message: Option<string>) returns (ok: bool)
      modifies this
      ensures ok == old(IsAuthenticated())
      ensures ok ==> showLoginModal == old(showLoginModal) && loginModalMessage == old(loginModalMessage)
      ensures !ok ==> showLoginModal && loginModalMessage == PromptMessage(message)
      ensures user == old(user) && isLoading == old(isLoading) && stored == old(stored)
      ensures loadingHistory == old(loadingHistory)
    {
      if IsAuthenticated() {
        return true;
      }
      loginModalMessage := PromptMessage(message);
      SetShowLoginModal(true);
      return false;
    }
  }
}

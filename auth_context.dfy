/** The client's session (frontend/src/context/AuthContext.tsx): the signed-in user, a
    loading flag and an onboarding flag, mirrored into the browser's localStorage.
    Sign-in and sign-up are simulated on the client: no request is made and no token is kept. */
module AuthContext {
  import opened Shared

  datatype User = User(id: string, name: string, email: string, role: Role)

  /** localStorage: string keys to string values. */
  type Storage = map<string, string>

  const UserKey := "user"
  const OnboardingKey := "onboardingComplete"

  /** `JSON.stringify` and `JSON.parse` of a user, taken as parameters. */
  type Serializer = User -> string
  type Parser = string -> User

  /** The state an `AuthProvider` shows to its consumers and keeps in storage. */
  datatype Session = Session(user: Option<User>, isLoading: bool, onboardingComplete: bool, storage: Storage)

  /** The state when the provider mounts (AuthContext.tsx:36-38), over what the browser kept. */
  function Mounted(storage: Storage): Session {
    Session(None, true, false, storage)
  }

  /** A stored value JavaScript treats as present: `getItem` returned a non-empty string. */
  predicate Stored(storage: Storage, key: string) {
    key in storage && storage[key] != ""
  }

  /** The mount effect (AuthContext.tsx:41-55): reload the user, raise the onboarding flag
      when "true" is stored (never lower it), stop loading. */
  function Restored(s: Session, parse: Parser): Session {
    s.(user := if Stored(s.storage, UserKey) then Some(parse(s.storage[UserKey])) else s.user,
       onboardingComplete := s.onboardingComplete || (OnboardingKey in s.storage && s.storage[OnboardingKey] == "true"),
       isLoading := false)
  }

  /** `email.split('@')[0]`: the name a signed-in user gets (AuthContext.tsx:66). */
  function NameFromEmail(email: string): (name: string)
    ensures StartsWith(email, name)
    ensures '@' !in name
    ensures |name| < |email| ==> email[|name|] == '@'
    ensures '@' !in email ==> name == email
  {
    var name := Before(email, '@');
    assert forall k :: 0 <= k < |name| ==> name[k] != '@';
    name
  }

  /** The state once a sign-in or sign-up has resolved with `u`
      (AuthContext.tsx:71-73 and 95-97). */
  function SignedIn(s: Session, u: User, stringify: Serializer): Session {
    s.(user := Some(u), storage := s.storage[UserKey := stringify(u)], isLoading := false)
  }

  /** Where a completed sign-in goes (AuthContext.tsx:76-80). */
  function LoginTarget(onboardingComplete: bool): (p: Path)
    ensures p == ToOnboarding <==> !onboardingComplete
    ensures p == ToDashboard <==> onboardingComplete
  {
    if onboardingComplete then ToDashboard else ToOnboarding
  }

  /** logout (AuthContext.tsx:103-107): the user and its stored copy go; the onboarding flag stays. */
  function SignedOut(s: Session): Session {
    s.(user := None, storage := s.storage - {UserKey})
  }

  /** completeOnboarding (AuthContext.tsx:109-112). */
  function Onboarded(s: Session): Session {
    s.(onboardingComplete := true, storage := s.storage[OnboardingKey := "true"])
  }

  /** isAuthenticated (AuthContext.tsx:118). */
  function IsAuthenticated(s: Session): (b: bool)
    ensures b <==> s.user != None
  {
    s.user.Some?
  }

  /** A page reload right after signing in brings the same user back, as long as
      parsing undoes stringifying; the onboarding flag comes back as stored. */
  lemma ReloadRestoresUser(s: Session, u: User, stringify: Serializer, parse: Parser)
    requires parse(stringify(u)) == u
    requires stringify(u) != ""
    ensures Restored(Mounted(SignedIn(s, u, stringify).storage), parse).user == Some(u)
    ensures !Restored(Mounted(SignedIn(s, u, stringify).storage), parse).isLoading
  {
  }

  /** A page reload after completing onboarding keeps the user out of onboarding. */
  lemma ReloadRemembersOnboarding(s: Session, parse: Parser)
    ensures Restored(Mounted(Onboarded(s).storage), parse).onboardingComplete
  {
  }

  /** Signing out after signing in leaves storage as it was before, except that no user is kept. */
  lemma SignOutUndoesSignIn(s: Session, u: User, stringify: Serializer)
    ensures SignedOut(SignedIn(s, u, stringify)).storage == s.storage - {UserKey}
    ensures SignedOut(SignedIn(s, u, stringify)).user == None
    ensures SignedOut(SignedIn(s, u, stringify)).onboardingComplete == s.onboardingComplete
  {
  }

  /** Completing onboarding twice is the same as completing it once. */
  lemma OnboardedIdempotent(s: Session)
    ensures Onboarded(Onboarded(s)) == Onboarded(s)
  {
  }

  /** The onboarding flag belongs to the browser, not to the account: once anyone has
      completed onboarding, whoever signs in next, after a sign-out, goes to the dashboard. */
  lemma OnboardingFlagIsShared(s: Session, first: User, next: User, stringify: Serializer)
    ensures var t := SignedIn(SignedOut(Onboarded(SignedIn(s, first, stringify))), next, stringify);
      && t.user == Some(next)
      && LoginTarget(t.onboardingComplete) == ToDashboard
  {
  }

  /** The context provider's state, updated in place by its callbacks. */
  class AuthProvider {
    var user: Option<User>
    var isLoading: bool
    var onboardingComplete: bool
    var storage: Storage

    function State(): Session
      reads this
    {
      Session(user, isLoading, onboardingComplete, storage)
    }

    constructor (stored: Storage)
      ensures State() == Mounted(stored)
    {
      user := None;
      isLoading := true;
      onboardingComplete := false;
      storage := stored;
    }

    /** The mount effect (AuthContext.tsx:41-55). */
    method Restore(parse: Parser)
      modifies this
      ensures State() == Restored(old(State()), parse)
    {
      var storedUser := if UserKey in storage then storage[UserKey] else "";
      var storedOnboarding := if OnboardingKey in storage then Some(storage[OnboardingKey]) else None;
      if storedUser != "" {
        user := Some(parse(storedUser));
      }
      if storedOnboarding == Some("true") {
        onboardingComplete := true;
      }
      isLoading := false;
    }

    /** The start of login or signup, before its simulated wait (AuthContext.tsx:58, 84). */
    method BeginRequest()
      modifies this
      ensures State() == old(State()).(isLoading := true)
    {
      isLoading := true;
    }

    /** The end of login (AuthContext.tsx:64-80): a user named after the e-mail's local part,
        with `id` the random identifier. */
    method FinishLogin(email: string, role: Role, id: string, stringify: Serializer) returns (nav: Path)
      modifies this
      ensures State() == SignedIn(old(State()), User(id, NameFromEmail(email), email, role), stringify)
      ensures nav == LoginTarget(old(onboardingComplete))
    {
      var newUser := User(id, NameFromEmail(email), email, role);
      user := Some(newUser);
      storage := storage[UserKey := stringify(newUser)];
      isLoading := false;
      if !onboardingComplete {
        nav := ToOnboarding;
      } else {
        nav := ToDashboard;
      }
    }

    /** The end of signup (AuthContext.tsx:88-100): always on to onboarding. */
    method FinishSignup(name: string, email: string, role: Role, id: string, stringify: Serializer) returns (nav: Path)
      modifies this
      ensures State() == SignedIn(old(State()), User(id, name, email, role), stringify)
      ensures nav == ToOnboarding
    {
      var newUser := User(id, name, email, role);
      user := Some(newUser);
      storage := storage[UserKey := stringify(newUser)];
      isLoading := false;
      nav := ToOnboarding;
    }

    /** logout (AuthContext.tsx:103-107). */
    method Logout() returns (nav: Path)
      modifies this
      ensures State() == SignedOut(old(State()))
      ensures nav == ToLogin
    {
      user := None;
      storage := storage - {UserKey};
      nav := ToLogin;
    }

    /** completeOnboarding (AuthContext.tsx:109-112). */
    method CompleteOnboarding()
      modifies this
      ensures State() == Onboarded(old(State()))
    {
      onboardingComplete := true;
      storage := storage[OnboardingKey := "true"];
    }
  }
}

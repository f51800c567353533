/** What the client's data components share when they talk to the server: the token they
    look for in localStorage, the Authorization header they build from it, and the outcome
    of a `fetch`. */
module Fetch {
  import opened Shared
  import Validators
  import AuthContext

  const TokenKey := "token"

  /** `localStorage.getItem('token')` when JavaScript treats it as present. */
  function StoredToken(storage: AuthContext.Storage): (t: Option<string>)
    ensures t.Some? <==> AuthContext.Stored(storage, TokenKey)
    ensures t.Some? ==> t.value == storage[TokenKey] && t.value != ""
  {
    if AuthContext.Stored(storage, TokenKey) then Some(storage[TokenKey]) else None
  }

  /** The header value `Bearer ${token}`. */
  function AuthorizationHeader(token: string): string {
    Validators.BearerPrefix + token
  }

  /** The server reads back from the header the very token the client put in it,
      as long as the token has no space in it. */
  lemma {:induction false} HeaderCarriesToken(token: string)
    requires forall k :: 0 <= k < |token| ==> token[k] != ' '
    ensures Validators.BearerToken(Some(AuthorizationHeader(token))) == Some(token)
  {
    var h := AuthorizationHeader(token);
    var p := Validators.BearerPrefix;
    assert h[..|p|] == p;
    var t := Validators.BearerToken(Some(h)).value;
    assert forall k :: |p| <= k < |h| ==> h[k] == token[k - |p|];
    assert h[..|p| + |t|] == h;
  }

  /** A `fetch`: rejected with an error message, or answered with an `ok` flag and a
      decoded JSON body. */
  datatype Outcome<T> = NetworkError(message: string) | Response(ok: bool, data: T)

  /** The session never stores a token: signing in, signing up, completing onboarding,
      signing out and reloading leave the stored token as it was. A browser that had none
      still has none, and every request below then stops at "Authentication required". */
  lemma SessionKeepsNoToken(s: AuthContext.Session, u: AuthContext.User, stringify: AuthContext.Serializer, parse: AuthContext.Parser)
    ensures StoredToken(AuthContext.SignedIn(s, u, stringify).storage) == StoredToken(s.storage)
    ensures StoredToken(AuthContext.Onboarded(s).storage) == StoredToken(s.storage)
    ensures StoredToken(AuthContext.SignedOut(s).storage) == StoredToken(s.storage)
    ensures StoredToken(AuthContext.Restored(s, parse).storage) == StoredToken(s.storage)
  {
  }
}

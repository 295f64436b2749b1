/**
 * The login checks: whether storage holds a session token, and the guard
 * that sends a visitor without one back to the home page.
 */
module Session {
  import opened Wrappers
  import opened BrowserStorage
  import Auth

  /** `!!localStorage.getItem("token")`: a token is stored and it is not the empty string. */
  predicate HasToken(items: map<string, string>) {
    "token" in items && items["token"] != ""
  }

  /** isLoggedIn(): reads the token and changes nothing. */
  method IsLoggedIn(storage: LocalStorage) returns (loggedIn: bool)
    ensures loggedIn <==> HasToken(storage.items)
  {
    var token := storage.GetItem("token");
    loggedIn := token.Some? && token.value != "";
  }

  /**
   * checkLogin(): alerts and redirects to "/" exactly when there is no usable
   * token (`redirect` is that decision). Storage is never written.
   */
  method CheckLogin(storage: LocalStorage) returns (redirect: Option<string>)
    ensures redirect.Some? <==> !HasToken(storage.items)
    ensures redirect.Some? ==> redirect.value == "/"
  {
    var token := storage.GetItem("token");
    if token.None? || token.value == "" {
      redirect := Some("/");
    } else {
      redirect := None;
    }
  }

  /** After a successful login the visitor counts as logged in exactly when the token is not empty. */
  lemma LoginEstablishesSession(items: map<string, string>, data: Auth.LoginData)
    ensures HasToken(Auth.AfterLogin(items, data)) <==> data.accessToken != ""
  {
  }

  /** After logout nobody counts as logged in. */
  lemma LogoutEndsSession(items: map<string, string>)
    ensures !HasToken(Auth.AfterLogout(items))
  {
  }
}

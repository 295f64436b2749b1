/**
 * The storage effects of logging in, registering and logging out. The HTTP
 * exchange itself is not modelled: each operation is given the response it
 * would have received.
 */
module Auth {
  import opened Wrappers
  import opened BrowserStorage

  /** The four session keys login writes and logout removes. */
  const SessionKeys: set<string> := {"token", "userId", "userName", "userImage"}

  /** An image reference of the API (`{ url, alt }`), reduced to its URL. */
  datatype Media = Media(url: string)

  /** The `data` of a successful login response. `avatar` may be missing. */
  datatype LoginData = LoginData(accessToken: string, email: string, name: string, avatar: Option<Media>)

  /** The parsed JSON body of a rejected request. */
  datatype ErrorBody = ErrorBody(json: string)

  /** A response as the client sees it: `ok` with its data, or not `ok` with its error body. */
  datatype Response<T> = Accepted(data: T) | Rejected(body: ErrorBody)

  /** What the operations throw: the server's error body, or the TypeError of reading `avatar.url` when there is no avatar. */
  datatype AuthError = ServerError(body: ErrorBody) | MissingAvatar

  /**
   * The storage after the writes of a successful login, in the order
   * `login` writes them: token, userId, userName, then userImage, which is
   * only reached when the response has an avatar.
   */
  function AfterLogin(items: map<string, string>, data: LoginData): (r: map<string, string>)
    ensures r.Keys == items.Keys + {"token", "userId", "userName"} + (if data.avatar.Some? then {"userImage"} else {})
    ensures r["token"] == data.accessToken && r["userId"] == data.email && r["userName"] == data.name
    ensures data.avatar.Some? ==> r["userImage"] == data.avatar.value.url
    ensures forall k :: k in items && k !in SessionKeys ==> r[k] == items[k]
    ensures data.avatar.None? && "userImage" in items ==> r["userImage"] == items["userImage"]
  {
    var written := items["token" := data.accessToken]["userId" := data.email]["userName" := data.name];
    if data.avatar.Some? then written["userImage" := data.avatar.value.url] else written
  }

  /** The storage after logout: the session keys are gone and every other entry is kept. */
  function AfterLogout(items: map<string, string>): (r: map<string, string>)
    ensures r.Keys == items.Keys - SessionKeys
    ensures forall k :: k in r ==> r[k] == items[k]
  {
    items - SessionKeys
  }

  /**
   * login(email, password), given the response. On an `ok` response the four
   * session keys are written; on a rejected one storage is untouched and the
   * error body is thrown.
   */
  method Login(storage: LocalStorage, response: Response<LoginData>) returns (result: Result<(), AuthError>)
    modifies storage
    ensures response.Rejected? ==> storage.items == old(storage.items) && result == Err(ServerError(response.body))
    ensures response.Accepted? ==> storage.items == AfterLogin(old(storage.items), response.data)
    ensures response.Accepted? ==> (result.Ok? <==> response.data.avatar.Some?)
    ensures response.Accepted? && response.data.avatar.None? ==> result == Err(MissingAvatar)
  {
    match response
    case Rejected(body) =>
      result := Err(ServerError(body));
    case Accepted(data) =>
      storage.SetItem("token", data.accessToken);
      storage.SetItem("userId", data.email);
      storage.SetItem("userName", data.name);
      match data.avatar
      case None =>
        result := Err(MissingAvatar);
      case Some(avatar) =>
        storage.SetItem("userImage", avatar.url);
        result := Ok(());
  }

  /**
   * register(...), given the response: it succeeds exactly when the response
   * is `ok` and otherwise throws the error body. It takes no storage, so it
   * never writes any.
   */
  function Register(response: Response<()>): (result: Result<(), AuthError>)
    ensures result.Ok? <==> response.Accepted?
    ensures response.Rejected? ==> result == Err(ServerError(response.body))
  {
    match response
    case Accepted(_) => Ok(())
    case Rejected(body) => Err(ServerError(body))
  }

  /** logout(): removes the four session keys one by one, then sends the browser to "/". */
  method Logout(storage: LocalStorage) returns (location: string)
    modifies storage
    ensures storage.items == AfterLogout(old(storage.items))
    ensures location == "/"
  {
    storage.RemoveItem("token");
    storage.RemoveItem("userId");
    storage.RemoveItem("userName");
    storage.RemoveItem("userImage");
    assert storage.items == old(storage.items) - SessionKeys;
    location := "/";
  }

  /** Logging out twice leaves the same storage as logging out once. */
  lemma LogoutIdempotent(items: map<string, string>)
    ensures AfterLogout(AfterLogout(items)) == AfterLogout(items)
  {
  }

  /** Logout keeps every key outside the session, such as "venueManager". */
  lemma LogoutKeepsOtherKeys(items: map<string, string>, key: string)
    requires key in items && key !in SessionKeys
    ensures key in AfterLogout(items) && AfterLogout(items)[key] == items[key]
  {
  }

  /**
   * Logging in and then out gives back the storage as it was, less any
   * session keys it held before: login touches nothing that logout keeps.
   */
  lemma LoginThenLogout(items: map<string, string>, data: LoginData)
    ensures AfterLogout(AfterLogin(items, data)) == AfterLogout(items)
  {
    var l := AfterLogout(AfterLogin(items, data));
    var r := AfterLogout(items);
    assert l.Keys == r.Keys;
    forall k | k in l ensures l[k] == r[k] { }
  }
}

/** The profile page: its request helper, which logs the user out on a 401, the logout
    itself, and the page's own state (user, loading flag, profile picture). */
module Profile {
  import opened JsText
  import opened BrowserStorage
  import opened WebApi

  const ApiBaseUrl := "https://ai-way-2-vacation.onrender.com"

  /** The keys `handleLogout` removes. */
  const LogoutKeys: set<string> := {"token", "access_token", "profile_pic", "lastActiveTripId", "pinnedPlans"}

  /** The storage after `handleLogout`. */
  function LoggedOut(items: map<string, string>): (r: map<string, string>)
    ensures r.Keys == items.Keys - LogoutKeys
    ensures forall k :: k in r ==> r[k] == items[k]
  {
    items - LogoutKeys
  }

  /** Logging out twice is logging out once. */
  lemma LogoutIdempotent(items: map<string, string>)
    ensures LoggedOut(LoggedOut(items)) == LoggedOut(items)
  {
  }

  /** After a logout no token is left, so the next request fails before it is sent; the
      name, e-mail and picture URL stored at login stay. */
  lemma LogoutEndsSession(items: map<string, string>)
    ensures AuthToken(LoggedOut(items)).None?
    ensures forall k :: k in {"username", "email", "profileImage"} ==> Lookup(LoggedOut(items), k) == Lookup(items, k)
  {
  }

  datatype ProfileResult =
    | NoToken                // thrown before any fetch
    | SessionExpired         // 401: the user is logged out
    | Failed(message: string)
    | Ok(status: nat)

  /** The outcome of `makeAuthenticatedRequest` for the stored token (or none), the
      status the server would answer with and the `detail` of its error body. */
  function ProfileRequestResult(token: Option<string>, status: nat, detail: Option<string>): (r: ProfileResult)
    ensures r == NoToken <==> token.None?
    ensures r == SessionExpired <==> token.Some? && status == 401
    ensures r.Ok? <==> token.Some? && IsOk(status)
    ensures r.Ok? ==> r.status == status
    ensures r.Failed? ==> token.Some? && status != 401 && !IsOk(status)
    ensures r.Failed? && Truthy(detail) ==> r.message == detail.value
    ensures r.Failed? && !Truthy(detail) ==> r.message == StatusError(status)
  {
    if token.None? then NoToken
    else if status == 401 then SessionExpired
    else if !IsOk(status) then Failed(OrElse(detail, StatusError(status)))
    else Ok(status)
  }

  /** `{ Authorization: 'Bearer ' + token, 'Content-Type': 'application/json', ...options.headers }`:
      here the caller's headers win over both defaults, the token included. */
  function ProfileHeaders(token: string, optionHeaders: map<string, string>): (h: map<string, string>)
    ensures h.Keys == optionHeaders.Keys + {"Authorization", "Content-Type"}
    ensures forall k :: k in optionHeaders ==> h[k] == optionHeaders[k]
    ensures "Authorization" !in optionHeaders ==> h["Authorization"] == "Bearer " + token
    ensures "Content-Type" !in optionHeaders ==> h["Content-Type"] == "application/json"
  {
    map["Authorization" := "Bearer " + token, "Content-Type" := "application/json"] + optionHeaders
  }

  class ProfilePage {
    var user: Option<map<string, string>>
    var loading: bool
    var profilePic: Option<string>

    /** The state before the effects run: no user, loading, no picture. */
    constructor ()
      ensures user == None && loading && profilePic == None
    {
      user := None;
      loading := true;
      profilePic := None;
    }

    /** The first effect: the saved picture is shown when `profile_pic` holds a
        non-empty value. */
    method LoadProfilePic(storage: LocalStorage)
      modifies this
      ensures Truthy(Lookup(storage.items, "profile_pic")) ==> profilePic == Lookup(storage.items, "profile_pic")
      ensures !Truthy(Lookup(storage.items, "profile_pic")) ==> profilePic == old(profilePic)
      ensures user == old(user) && loading == old(loading)
    {
      var savedProfilePic := storage.GetItem("profile_pic");
      if Truthy(savedProfilePic) {
        profilePic := savedProfilePic;
      }
    }

    /** `handleLogout`: the five session keys go and the login page opens. */
    method HandleLogout(storage: LocalStorage) returns (navigateTo: string)
      modifies storage
      ensures storage.items == LoggedOut(old(storage.items))
      ensures navigateTo == "/login"
    {
      storage.RemoveItem("token");
      storage.RemoveItem("access_token");
      storage.RemoveItem("profile_pic");
      storage.RemoveItem("lastActiveTripId");
      storage.RemoveItem("pinnedPlans");
      assert storage.items.Keys == old(storage.items).Keys - LogoutKeys;
      navigateTo := "/login";
    }

    /** `makeAuthenticatedRequest(endpoint, options)`; `status` and `detail` stand for what
        the server would answer if the request were issued. */
    method MakeAuthenticatedRequest(storage: LocalStorage, endpoint: string, optionHeaders: map<string, string>,
                                    status: nat, detail: Option<string>)
      returns (sent: Option<Fetch>, result: ProfileResult, navigateTo: Option<string>)
      modifies storage
      ensures result == ProfileRequestResult(AuthToken(old(storage.items)), status, detail)
      ensures sent.None? <==> result == NoToken
      ensures sent.Some? ==> sent.value == Fetch(ApiBaseUrl + endpoint, ProfileHeaders(AuthToken(old(storage.items)).value, optionHeaders))
      ensures storage.items == if result == SessionExpired then LoggedOut(old(storage.items)) else old(storage.items)
      ensures navigateTo == if result == SessionExpired then Some("/login") else None
    {
      var token := AuthToken(storage.items);
      if token.None? {
        return None, NoToken, None;
      }
      sent := Some(Fetch(ApiBaseUrl + endpoint, ProfileHeaders(token.value, optionHeaders)));
      if status == 401 {
        var page := HandleLogout(storage);
        return sent, SessionExpired, Some(page);
      }
      if !IsOk(status) {
        return sent, Failed(OrElse(detail, StatusError(status))), None;
      }
      return sent, Ok(status), None;
    }

    /** `fetchUserData`: the user is shown when `/auth/me` answers; `loading` ends false
        on every path; an expired session logs out and opens the login page. `userData` stands for the body of a successful answer. */
    method FetchUserData(storage: LocalStorage, status: nat, detail: Option<string>, userData: map<string, string>)
      returns (sent: Option<Fetch>, result: ProfileResult, navigateTo: Option<string>)
      modifies this, storage
      ensures result == ProfileRequestResult(AuthToken(old(storage.items)), status, detail)
      ensures sent.None? <==> result == NoToken
      ensures user == if result.Ok? then Some(userData) else old(user)
      ensures !loading && profilePic == old(profilePic)
      ensures storage.items == if result == SessionExpired then LoggedOut(old(storage.items)) else old(storage.items)
      ensures navigateTo == if result == SessionExpired then Some("/login") else None
    {
      loading := true;
      sent, result, navigateTo := MakeAuthenticatedRequest(storage, "/auth/me", map[], status, detail);
      if result.Ok? {
        user := Some(userData);
      }
      loading := false;
    }

    /** The reader callback of `handleProfilePicUpload`: the picture is shown and saved. */
    method UploadProfilePic(storage: LocalStorage, imageDataUrl: string)
      modifies this, storage
      ensures profilePic == Some(imageDataUrl)
      ensures storage.items == old(storage.items)["profile_pic" := imageDataUrl]
      ensures user == old(user) && loading == old(loading)
    {
      profilePic := Some(imageDataUrl);
      storage.SetItem("profile_pic", imageDataUrl);
    }
  }
}

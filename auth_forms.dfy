/** What the sign-up, sign-in and reset-password pages share: the dialogs they show, the
    server reply they read, the session they store after a login and the whitespace-run
    replacement both Google handlers apply to a display name. */
module AuthForms {
  import opened JsText
  import opened BrowserStorage

  /** A `Swal.fire(title, text, icon)` dialog. */
  datatype Alert = Alert(title: string, text: string, icon: string)

  /** What `fetch` and `response.json()` yield: a failure to reach the server (the
      `catch` branch), or the status flag and the string fields of the JSON body. */
  datatype Reply = NetworkFailure | Reply(ok: bool, data: map<string, string>)

  /** A `POST` the page issues, with its JSON body's string fields. */
  datatype Post = Post(url: string, body: map<string, string>)

  const MissingFieldsAlert := Alert("Missing Fields", "Please fill all fields", "warning")
  const MismatchAlert := Alert("Password Mismatch", "Passwords do not match", "error")
  const WeakPasswordAlert := Alert("Weak Password", "Password must be at least 6 characters", "warning")
  const NetworkErrorAlert := Alert("Network Error", "Please check your connection", "error")
  const GoogleErrorAlert := Alert("Error", "Google authentication failed", "error")

  /** `data.detail || fallback`. */
  function Detail(data: map<string, string>, fallback: string): (text: string)
    ensures Truthy(Lookup(data, "detail")) ==> text == data["detail"]
    ensures !Truthy(Lookup(data, "detail")) ==> text == fallback
  {
    OrElse(Lookup(data, "detail"), fallback)
  }

  /** The keys a successful login may write. */
  const SessionKeys: set<string> := {"token", "email", "username", "profileImage"}

  /** The storage after a successful login: `token`, `email` and `username` are written
      (an absent field is stored as the text "undefined"), `profileImage` only when the
      reply has a non-empty `profile_image`, and every other key keeps its value. */
  function SessionWrites(items: map<string, string>, data: map<string, string>): (r: map<string, string>)
    ensures r.Keys == items.Keys + {"token", "email", "username"}
                      + (if Truthy(Lookup(data, "profile_image")) then {"profileImage"} else {})
    ensures r["token"] == JsString(Lookup(data, "access_token"))
    ensures r["email"] == JsString(Lookup(data, "email"))
    ensures r["username"] == JsString(Lookup(data, "username"))
    ensures Truthy(Lookup(data, "profile_image")) ==> r["profileImage"] == data["profile_image"]
    ensures forall k :: k in items && (k !in SessionKeys || (k == "profileImage" && !Truthy(Lookup(data, "profile_image"))))
                        ==> r[k] == items[k]
  {
    var written := items["token" := JsString(Lookup(data, "access_token"))]
                        ["email" := JsString(Lookup(data, "email"))]
                        ["username" := JsString(Lookup(data, "username"))];
    if Truthy(Lookup(data, "profile_image")) then written["profileImage" := data["profile_image"]]
    else written
  }

  /** Writing the session twice with the same reply is the same as writing it once. */
  lemma SessionWritesIdempotent(items: map<string, string>, data: map<string, string>)
    ensures SessionWrites(SessionWrites(items, data), data) == SessionWrites(items, data)
  {
  }

  /** The `localStorage.setItem` calls themselves, in the order the handlers make them. */
  method WriteSession(storage: LocalStorage, data: map<string, string>)
    modifies storage
    ensures storage.items == SessionWrites(old(storage.items), data)
  {
    storage.SetItem("token", JsString(Lookup(data, "access_token")));
    storage.SetItem("email", JsString(Lookup(data, "email")));
    storage.SetItem("username", JsString(Lookup(data, "username")));
    if Truthy(Lookup(data, "profile_image")) {
      storage.SetItem("profileImage", data["profile_image"]);
    }
  }

  /** The body both Google handlers post: `{ email, username, profile_image: picture }`;
      `JSON.stringify` leaves out a field whose value is undefined. */
  function GoogleBody(claims: map<string, string>, username: string): (body: map<string, string>)
    ensures body.Keys == {"username"} + (if "email" in claims then {"email"} else {})
                         + (if "picture" in claims then {"profile_image"} else {})
    ensures body["username"] == username
    ensures "email" in claims ==> body["email"] == claims["email"]
    ensures "picture" in claims ==> body["profile_image"] == claims["picture"]
  {
    var withEmail := if "email" in claims then map["email" := claims["email"]] else map[];
    var withPicture := if "picture" in claims then withEmail["profile_image" := claims["picture"]] else withEmail;
    withPicture["username" := username]
  }

  predicate NoSpace(s: string) {
    forall i :: 0 <= i < |s| ==> !IsSpace(s[i])
  }

  /** `s.replace(/\s+/g, '_')`: every maximal run of white space becomes one underscore. */
  function CollapseSpaces(s: string): (r: string)
    ensures |r| <= |s|
    ensures NoSpace(r)
    decreases |s|
  {
    if s == [] then []
    else if IsSpace(s[0]) then "_" + CollapseSpaces(TrimStart(s))
    else [s[0]] + CollapseSpaces(s[1..])
  }

  /** Text without white space is left as it is. */
  lemma {:induction false} CollapseSpacesKeeps(s: string)
    requires NoSpace(s)
    ensures CollapseSpaces(s) == s
  {
    if s != [] {
      assert !IsSpace(s[0]);
      CollapseSpacesKeeps(s[1..]);
    }
  }

  lemma {:induction false} TrimStartAfterSpaces(w: string, y: string)
    requires AllSpace(w)
    requires y == [] || !IsSpace(y[0])
    ensures TrimStart(w + y) == y
  {
    if w != [] {
      assert (w + y)[1..] == w[1..] + y;
      TrimStartAfterSpaces(w[1..], y);
    }
  }

  /** A leading run of white space becomes one underscore. */
  lemma LeadingRun(w: string, y: string)
    requires w != [] && AllSpace(w)
    requires y == [] || !IsSpace(y[0])
    ensures CollapseSpaces(w + y) == "_" + CollapseSpaces(y)
  {
    assert (w + y)[0] == w[0];
    TrimStartAfterSpaces(w, y);
  }

  /** A character other than white space is kept as it is. */
  lemma CollapseSpacesCons(c: char, rest: string)
    requires !IsSpace(c)
    ensures CollapseSpaces([c] + rest) == [c] + CollapseSpaces(rest)
  {
  }

  /** A run of white space after a word, followed by text that does not start with white
      space, becomes exactly one underscore; with the identity on text without white space
      this determines the replacement on every string. */
  lemma {:induction false} CollapseSpacesRun(x: string, w: string, y: string)
    requires NoSpace(x)
    requires w != [] && AllSpace(w)
    requires y == [] || !IsSpace(y[0])
    ensures CollapseSpaces(x + w + y) == x + "_" + CollapseSpaces(y)
  {
    if x == [] {
      assert x + w + y == w + y;
      LeadingRun(w, y);
    } else {
      var rest := x[1..] + w + y;
      assert x + w + y == [x[0]] + rest;
      CollapseSpacesCons(x[0], rest);
      CollapseSpacesRun(x[1..], w, y);
      assert x + "_" + CollapseSpaces(y) == [x[0]] + (x[1..] + "_" + CollapseSpaces(y));
    }
  }
}

# AI Trip Planner client — a Dafny model of its page logic

The AI Trip Planner client is a React single-page application. Users sign up, sign in
(with a password or a Google credential) or reset a password. They then plan trips on a
planner page and look at a dashboard that shows, among other things, the weather of their
city. The page state lives in React state hooks and in the browser's `localStorage`; the
server is reached with `fetch`.

This project models the logic of those pages that runs in the browser:

- **Planner page** (`CreateTrip.js`): the `TripPlanner` class holds the page's state (trips,
  favourites, active trip, prompt, generation flag, search term, user). Its methods are the
  handlers: mount effect, create (split at the `setTimeout` into `StartCreate` and
  `FinishCreate`), edit, select, delete, favourite toggle, search. The list computations
  are pure functions: favourites filter, `find` by id, search filter, delete filter,
  favourite toggle, title and trip built from a prompt.
- **Dashboard** (`Dashboard.js`):
  - the temperature read from a free-text weather description: Kelvin check, ordered
    regular expressions with the Fahrenheit conversion, fallback on short numbers;
  - the "realistic" second extractor and the range clamp;
  - the keyword classifier of the weather condition and its icon table;
  - the authenticated and the public request helpers: token guard, headers, 401 logout,
    status errors.
- **Sign-up, sign-in and reset-password pages** (`Auth/*.js`):
  - the ordered form checks and the request bodies;
  - the reply dialogs;
  - the session written to `localStorage` after a login;
  - the Google display-name normalisers;
  - the "in progress" flags, which are set before a request and cleared in `finally`.
- **Profile page** (`Profile.js`): the token lookup, the request helper that logs out on a
  401, the logout itself, the saved picture loaded on mount and the picture upload.

Modules:

| module | file | models |
|---|---|---|
| `JsText` | `js_text.dfy` | the JavaScript runtime pieces the pages use (`\s`, ASCII `toLowerCase`, `trim`, `includes`, truthiness, `x \|\| d`, `String(undefined)`, decimal rendering, `parseInt`) |
| `Lists` | `lists.dfy` | `filter` with order and multiplicity, and the loop that returns at the first element with a hit |
| `BrowserStorage` | `browser_storage.dfy` | `localStorage` as a class over a map, and the shared token lookup |
| `WebApi` | `web_api.dfy` | a `fetch` call as URL plus headers, `response.ok`, the `HTTP error! status: N` text, JSON headers |
| `WeatherPatterns` | `weather_patterns.dfy` | the nine regular expressions of the dashboard as matchers over strings (`match`, and `match` with the `g` flag) |
| `Dashboard` | `dashboard.dfy` | the weather interpretation and the request helpers |
| `CreateTrip` | `create_trip.dfy` | the planner page |
| `AuthForms` | `auth_forms.dfy` | dialogs, server replies, session writes, Google body and whitespace-run replacement |
| `SignUp`, `SignIn`, `ResetPassword` | `signup.dfy`, `signin.dfy`, `reset_password.dfy` | the three forms |
| `Profile` | `profile.dfy` | the profile page |

Things the network, the clock or the user supply are parameters of the methods:
- the HTTP status the server answers with;
- the reply body, or a network failure;
- the answer to `window.confirm`;
- `Date.now()` and the ISO timestamp;
- the decoded Google credential;
- the `trip` URL parameter;
- the picture's data URL.

Where a handler awaits a timer or the network, it is split in two: the synchronous part
that sets the flag and issues the request, and the continuation that receives the answer.

Notes on behaviour that the model follows as written:
- `CheckedTemperature` follows `extractRealisticTemperature(description) || 25`. A realistic
  reading of exactly 0 is falsy, so 0 is replaced by 25.
- `ToggleFavorite` updates `trips` only. The favourites panel keeps its old list until the
  page reloads (`CreateTrip.js:171-176`).
- The profile page spreads the caller's headers after its own, so a caller's
  `Authorization` header wins over the token. The dashboard sets `Authorization` after the
  spread, so there the token wins.
- The profile page shows a saved picture only when `profile_pic` is non-empty (`if
  (savedProfilePic)`). An empty stored value counts as no picture.
- The dashboard and profile pages read `localStorage.getItem('token') ||
  localStorage.getItem('access_token')` and go on only for a truthy value. An empty
  `token` therefore falls through to `access_token`.
- The sign-in page's Google handler only lower-cases the name and replaces runs of white
  space. The sign-up page's handler also drops every character outside `[a-z0-9_]` and
  keeps 20. `SignIn.GoogleUsernamesAgree` states when the two agree.

## Model

| member | source | states |
|---|---|---|
| `JsText.Lower` | src/pages/Dashboard.js:385 | `toLowerCase` keeps the length and lower-cases each ASCII letter, position by position |
| `JsText.TrimEmptyIff` | src/pages/CreateTrip.js:120 | `!prompt.trim()` holds exactly when every character of the prompt is white space |
| `JsText.Includes` | src/pages/Dashboard.js:387-393 | `includes` is true exactly when the needle occurs at some position |
| `JsText.OrElse` | src/pages/CreateTrip.js:97-101 | `v \|\| d` is `v` when `v` is a non-empty string, `d` otherwise |
| `JsText.Utf16Length` | src/pages/Auth/signup.js:49 | `length` counts UTF-16 code units: at least one and at most two per character, and exactly the number of characters when all lie in the Basic Multilingual Plane |
| `JsText.ParseIntOfDigits` | src/pages/CreateTrip.js:111 | `parseInt` reads a non-empty run of decimal digits as its decimal value, a leading zero included |
| `JsText.ParseIntNaN` | src/pages/CreateTrip.js:111 | `parseInt` gives `NaN` for blank text and for text whose first visible character is neither a sign nor a digit; a negative result needs a leading minus |
| `JsText.ParseIntOfNatToString` | src/pages/CreateTrip.js:111 | `parseInt` reads back the decimal text of any non-negative number as that number |
| `Lists.FilterIsSubsequence` | src/pages/CreateTrip.js:106 | `filter` keeps the survivors in their original order |
| `Lists.FilterCounts` | src/pages/CreateTrip.js:162-163 | `filter` keeps every kept element as often as it occurs and removes every other |
| `Lists.FilterKeepsAll` | src/pages/CreateTrip.js:203-206 | a filter whose test holds on every element returns the list unchanged |
| `Lists.FilterDropsAll` | src/pages/CreateTrip.js:203-206 | a filter whose test fails on every element returns the empty list |
| `Lists.FilterLength` | src/pages/Auth/signup.js:101-105 | a filter keeps exactly as many elements as pass its test |
| `Lists.PrefixIsSubsequence` | src/pages/Auth/signup.js:101-105 | cutting a subsequence short (as `substring(0, 20)` does) leaves a subsequence |
| `Lists.FilterHead` | src/pages/Dashboard.js:346-352 | the first element of a filter result is the first element of the input that passes, and none before it passes |
| `Lists.FirstHitNoneIff` | src/pages/Dashboard.js:330-341 | a loop that returns at the first pattern with a match finds nothing exactly when no pattern matches |
| `Lists.FirstHitIsFirst` | src/pages/Dashboard.js:330-341 | such a loop returns the answer of the first element with a hit |
| `Lists.FirstHitFound` | src/pages/Dashboard.js:366-378 | whatever such a loop returns is the answer of one of the elements |
| `BrowserStorage.AuthToken` | src/pages/Dashboard.js:41-43 | the token is `token` when it is non-empty, else `access_token` when that is non-empty; there is none exactly when both are missing or empty |
| `BrowserStorage.LocalStorage.SetItem` | src/pages/Auth/signin.js:47 | `setItem` binds the key to the value and leaves every other key alone |
| `BrowserStorage.LocalStorage.RemoveItem` | src/pages/Dashboard.js:70-71 | `removeItem` drops the key and leaves every other key alone |
| `WebApi.StatusError` | src/pages/Dashboard.js:78 | the message starts with `HTTP error! status: `, and the rest reads back as the status code |
| `WebApi.JsonHeaders` | src/pages/Dashboard.js:49-54 | the headers are the caller's headers plus `Content-Type`; the caller's value wins, `application/json` otherwise |
| `WeatherPatterns.MatchAt` | src/pages/Dashboard.js:312-367 | the nine temperature regular expressions matched at one position: a match found at `i` starts at `i`, ends after it within the text, and carries the first capture group's number |
| `WeatherPatterns.FirstMatch` | src/pages/Dashboard.js:312 | `match` without `g` returns the match with the leftmost start; no position before it matches, and there is none only when no position matches |
| `WeatherPatterns.AllMatches` | src/pages/Dashboard.js:346 | `match` with `g` returns only real matches, each at its own start |
| `WeatherPatterns.AllMatchesStep` | src/pages/Dashboard.js:346 | with `g`, a match at the current position is taken and the search resumes at its end; otherwise it moves on by one position |
| `WeatherPatterns.AllMatchesLeftToRight` | src/pages/Dashboard.js:346 | `match` with `g` misses no match: nothing matches before the first, between two consecutive ones or after the last, and the matches do not overlap |
| `WeatherPatterns.ShortNumberNoInner` | src/pages/Dashboard.js:346 | no `\b(\d{1,2})\b` match starts inside another one |
| `Dashboard.KelvinToCelsius` | src/pages/Dashboard.js:317 | `Math.round(k - 273.15)` is `k - 273` for every whole `k` |
| `Dashboard.FahrenheitToCelsius` | src/pages/Dashboard.js:338 | the result is within half a degree of `(t - 32) * 5/9` |
| `Dashboard.OnlyFahrenheitMentionsF` | src/pages/Dashboard.js:324-337 | of the four patterns, the text of exactly the Fahrenheit one contains `F` |
| `Dashboard.ConvertedOnlyFahrenheit` | src/pages/Dashboard.js:336-339 | only a Fahrenheit reading above 50 is converted; every other reading is kept |
| `Dashboard.KelvinReading` | src/pages/Dashboard.js:312-320 | a Kelvin reading, when taken, lies between -22 and 46 °C |
| `Dashboard.PatternReadingNoneIff` | src/pages/Dashboard.js:330-341 | the pattern loop reads nothing exactly when none of the four patterns matches |
| `Dashboard.PatternReadingFirst` | src/pages/Dashboard.js:330-341 | the first pattern that matches decides, with the number of its first match |
| `Dashboard.FirstPlausible` | src/pages/Dashboard.js:346-352 | the fallback value lies in 0..50 |
| `Dashboard.FirstPlausibleIsFirst` | src/pages/Dashboard.js:346-352 | the fallback takes the first number that is at most 50; it finds none exactly when every number is above 50 |
| `Dashboard.FallbackReading` | src/pages/Dashboard.js:346-356 | the fallback reading lies in 0..50 |
| `Dashboard.FirstSmallNumberIsFirst` | src/pages/Dashboard.js:346-352 | the position-by-position reading is the value of the first short number at most 50, and there is none exactly when no short number is at most 50 |
| `Dashboard.FallbackReadingIsFirstSmall` | src/pages/Dashboard.js:346-352 | the fallback equals the position-by-position reading: it takes the first one- or two-digit word-bounded number of the text whose value is at most 50, and finds nothing exactly when there is none |
| `Dashboard.DescriptionTemperature` | src/pages/Dashboard.js:308-357 | a Kelvin reading wins; otherwise the first matching pattern's number decides, converted when the pattern is the Fahrenheit one; with no Kelvin reading and no matching pattern the fallback or 25 is taken; an empty text gives 25; no reading is below -22 |
| `Dashboard.ExtractTemperatureFromDescription` | src/pages/Dashboard.js:308-357 | the loop returns 25 for an empty text, else the Kelvin reading, else the first matching pattern's number (converted when it is Fahrenheit), else the fallback, else 25 |
| `Dashboard.RealisticReading` | src/pages/Dashboard.js:366-378 | a realistic reading lies in -20..50 |
| `Dashboard.RealisticReadingNoneIff` | src/pages/Dashboard.js:366-380 | the realistic loop returns `null` exactly when no pattern's first match lies in range |
| `Dashboard.RealisticReadingFirst` | src/pages/Dashboard.js:366-378 | the first pattern whose first match is in range decides |
| `Dashboard.RealisticTemperature` | src/pages/Dashboard.js:360-381 | the realistic temperature is 25 for an empty text and otherwise lies in -20..50 when present |
| `Dashboard.ExtractRealisticTemperature` | src/pages/Dashboard.js:360-381 | the loop returns what `RealisticTemperature` specifies |
| `Dashboard.CheckedTemperature` | src/pages/Dashboard.js:285-291 | the shown temperature lies in -50..60; a reading in range is kept; out of range a non-zero realistic reading is taken, and a realistic reading of 0 or none gives 25 |
| `Dashboard.WeatherCondition` | src/pages/Dashboard.js:383-396 | `Clear` for an empty description; otherwise the label of the first rule, in priority order, with a keyword in the lower-cased description; always one of the icon table's labels |
| `Dashboard.LoweredCondition` | src/pages/Dashboard.js:387-395 | the keyword tests always yield one of the icon table's labels |
| `Dashboard.AnyOfTwo` | src/pages/Dashboard.js:388 | a two-keyword rule fires exactly when one of its keywords occurs |
| `Dashboard.AnyOfThree` | src/pages/Dashboard.js:387 | a three-keyword rule fires exactly when one of its keywords occurs |
| `Dashboard.LoweredConditionByPriority` | src/pages/Dashboard.js:387-395 | the classifier is the priority table of seven rules read top to bottom, `Clear` when none fires |
| `Dashboard.RainOutranksThunder` | src/pages/Dashboard.js:387-391 | a text naming both thunder and rain is `Rainy`: the first rule that fires wins |
| `Dashboard.WeatherIcon` | src/pages/Dashboard.js:398-410 | the icon is always one of the table's icons, and a known label gets its own icon |
| `Dashboard.SunIconIff` | src/pages/Dashboard.js:398-410 | the sun icon is shown exactly for `Sunny`, `Clear` and every unknown label |
| `Dashboard.ProcessWeatherResponse` | src/pages/Dashboard.js:281-305 | the report carries the city and the description (`''` when missing); its temperature is the description's reading checked against -50..60 (replaced by the realistic reading or 25) and lies in that range; its condition is the description's classified condition; its icon is the table's icon for its condition |
| `Dashboard.AuthRequestResult` | src/pages/Dashboard.js:46-86 | no token on an authenticated call fails before the request; 401 on an authenticated call is a session expiry; any other non-2xx status is an error; a 2xx status returns the response |
| `Dashboard.FailureMessage` | src/pages/Dashboard.js:58-81 | a thrown message is non-empty; only a returned response has none |
| `Dashboard.FailureMessageIdentifies` | src/pages/Dashboard.js:58-81 | two failures with the same thrown message are the same failure, down to the HTTP status |
| `Dashboard.RequestHeaders` | src/pages/Dashboard.js:49-63 | the headers are the JSON headers, plus `Authorization` on an authenticated call; that call carries `Bearer <token>`, which overrides the caller's `Authorization`; every other header keeps its JSON-headers value |
| `Dashboard.MakeAuthenticatedRequest` | src/pages/Dashboard.js:46-86 | the request is issued unless the token guard fails; the result is `AuthRequestResult`; on a session expiry `token` and `access_token` are removed, otherwise the storage is unchanged |
| `Dashboard.MakePublicRequest` | src/pages/Dashboard.js:89-111 | the request is always issued, with the JSON headers only; it succeeds exactly on a 2xx status |
| `CreateTrip.FavoritesOf` | src/pages/CreateTrip.js:106 | the favourites are the favourite trips, in list order, each as often as in the list |
| `CreateTrip.MockFavoritesAreBaliAndJapan` | src/pages/CreateTrip.js:45-93 | of the mock trips, Bali and Japan are the initial favourites, in that order |
| `CreateTrip.FindTrip` | src/pages/CreateTrip.js:111 | `find` returns the first trip with the id; there is none exactly when no trip has it |
| `CreateTrip.SelectedTrip` | src/pages/CreateTrip.js:109-116 | a trip is selected only for a non-empty parameter that parses to that mock trip's id; when the parameter parses but names no mock trip, none is selected |
| `CreateTrip.SelectByDecimalId` | src/pages/CreateTrip.js:109-111 | the decimal text of an id selects exactly the mock trip with that id |
| `CreateTrip.SearchFilter` | src/pages/CreateTrip.js:203-211 | the search keeps, in order, exactly the trips whose title or prompt contains the term, case ignored, each as often as in the list |
| `CreateTrip.EmptySearchKeepsAll` | src/pages/CreateTrip.js:203-206 | an empty search box lists every trip |
| `CreateTrip.SearchByTitleFindsTrip` | src/pages/CreateTrip.js:203-206 | searching for a trip's title lists that trip |
| `CreateTrip.WithoutTrip` | src/pages/CreateTrip.js:162-163 | deletion removes every trip with the id and keeps every other trip as often as before, in order |
| `CreateTrip.ToggledFavorite` | src/pages/CreateTrip.js:173-175 | the toggle keeps the length, changes no field but `favorite`, and flips it exactly on the trips with the id |
| `CreateTrip.ToggleTwiceRestores` | src/pages/CreateTrip.js:171-176 | toggling the same trip twice restores the list |
| `CreateTrip.NewTripTitle` | src/pages/CreateTrip.js:128 | the title is the first 30 characters of the prompt (all of it when shorter) followed by `...` |
| `CreateTrip.NewTripTitleKeepsShortPrompt` | src/pages/CreateTrip.js:128 | a prompt of at most 30 characters is kept whole in the title |
| `CreateTrip.NewTrip` | src/pages/CreateTrip.js:126-144 | the new trip has the given id, prompt and timestamp, the derived title, is not a favourite and has type `custom` |
| `CreateTrip.DeleteUndoesCreate` | src/pages/CreateTrip.js:146-163 | deleting a freshly created trip gives back the list it was created on |
| `CreateTrip.StoredUser` | src/pages/CreateTrip.js:97-101 | each user field is the stored value when non-empty, else its default; the username is never empty |
| `CreateTrip.TripPlanner.constructor` | src/pages/CreateTrip.js:34-40 | the page starts with no trips, no favourites, no active trip, an empty prompt and search, no generation under way, no user |
| `CreateTrip.TripPlanner.LoadInitial` | src/pages/CreateTrip.js:95-117 | the mount effect sets the stored user, the mock trips and their favourites, and shows the trip the URL names with its prompt |
| `CreateTrip.TripPlanner.LoadTrips` | src/pages/CreateTrip.js:105-106 | the trips become the mock trips and the favourites their favourite ones; nothing else changes |
| `CreateTrip.TripPlanner.ShowTripToEdit` | src/pages/CreateTrip.js:112-115 | a found trip becomes the active trip and its prompt fills the box; without one nothing changes |
| `CreateTrip.TripPlanner.StartCreate` | src/pages/CreateTrip.js:119-122 | a blank prompt changes nothing; otherwise generation starts and the prompt to use is returned; pressing an enabled send button starts generation, which disables the button |
| `CreateTrip.TripPlanner.CanSend` | src/pages/CreateTrip.js:464 | the send button is enabled exactly when no generation is under way and the prompt has a character other than white space |
| `CreateTrip.TripPlanner.FinishCreate` | src/pages/CreateTrip.js:125-151 | the new trip goes in front of the list and becomes active; the prompt box is cleared and generation ends |
| `CreateTrip.TripPlanner.DeleteTrip` | src/pages/CreateTrip.js:159-169 | when confirmed, the trip leaves both lists, and the active trip and prompt are cleared if it was active; otherwise nothing changes |
| `CreateTrip.TripPlanner.ToggleFavorite` | src/pages/CreateTrip.js:171-176 | only `trips` changes, by the toggle |
| `CreateTrip.TripPlanner.EditTrip` | src/pages/CreateTrip.js:154-157 | the trip becomes active and its prompt fills the box |
| `CreateTrip.TripPlanner.SelectTrip` | src/pages/CreateTrip.js:256 | a click on a trip makes it active and leaves the prompt alone |
| `CreateTrip.TripPlanner.ResetForNewTrip` | src/pages/CreateTrip.js:220-223 | the New Trip button clears the active trip and the prompt |
| `CreateTrip.TripPlanner.SetPrompt` | src/pages/CreateTrip.js:456 | typing in the prompt box changes only the prompt |
| `CreateTrip.TripPlanner.SetSearchTerm` | src/pages/CreateTrip.js:233 | typing in the search box changes only the search term |
| `AuthForms.Detail` | src/pages/Auth/signin.js:57 | the dialog text is the reply's `detail` when non-empty, the fallback otherwise |
| `AuthForms.SessionWrites` | src/pages/Auth/signin.js:47-52 | a login writes `token`, `email` and `username` (`undefined` when absent), and writes `profileImage` only for a non-empty `profile_image`; every other key keeps its value |
| `AuthForms.SessionWritesIdempotent` | src/pages/Auth/signin.js:47-52 | writing the same session twice is writing it once |
| `AuthForms.WriteSession` | src/pages/Auth/signin.js:47-52 | the `setItem` calls leave the storage as `SessionWrites` describes |
| `AuthForms.GoogleBody` | src/pages/Auth/signin.js:80-84 | the body always has the username, and has the e-mail and picture exactly when the credential has them |
| `AuthForms.CollapseSpaces` | src/pages/Auth/signin.js:72 | the replacement never lengthens the text and leaves no white space |
| `AuthForms.CollapseSpacesKeeps` | src/pages/Auth/signin.js:72 | a text without white space is left unchanged |
| `AuthForms.CollapseSpacesRun` | src/pages/Auth/signin.js:72 | each maximal run of white space becomes exactly one `_` |
| `SignUp.SignUpCheck` | src/pages/Auth/signup.js:39-57 | the request is sent exactly when all four fields are filled, the passwords match, the password is at least 6 UTF-16 code units long and the username at least 3; the first failing check, in that order, chooses the dialog |
| `SignUp.CheckOrderExamples` | src/pages/Auth/signup.js:39-57 | a mismatch is reported before a short password, and a short password before a short username |
| `SignUp.AstralCharactersCountTwice` | src/pages/Auth/signup.js:49-57 | three emoji are a long enough password and two a long enough username |
| `SignUp.RegisterBody` | src/pages/Auth/signup.js:62-66 | the body has the username, e-mail and password, never the confirmation |
| `SignUp.SignUpReplyAlert` | src/pages/Auth/signup.js:81-89 | success, the server's `detail` or `Something went wrong`, or the network error dialog |
| `SignUp.GoogleUsername` | src/pages/Auth/signup.js:101-105 | the username has at most 20 characters, all from `[a-z0-9_]` |
| `SignUp.UsernameShapeIsFixed` | src/pages/Auth/signup.js:101-105 | a string already in that shape passes through unchanged |
| `SignUp.GoogleUsernameFromName` | src/pages/Auth/signup.js:101-105 | the username's characters occur in order in the lower-cased, white-space-collapsed name, and it holds as many of that text's `[a-z0-9_]` characters as fit in 20 |
| `SignUp.GoogleUsernameIdempotent` | src/pages/Auth/signup.js:101-105 | normalising a normalised username changes nothing |
| `SignUp.SignUpPage.constructor` | src/pages/Auth/signup.js:10-16 | the form starts empty and the flag cleared |
| `SignUp.SignUpPage.Change` | src/pages/Auth/signup.js:21-26 | the named input takes the value; other inputs and the flag are untouched |
| `SignUp.SignUpPage.StartSignUp` | src/pages/Auth/signup.js:36-77 | a failed check shows its dialog and leaves the flag; otherwise the flag is set and the registration is posted |
| `SignUp.SignUpPage.FinishSignUp` | src/pages/Auth/signup.js:79-92 | the reply's dialog is shown, success opens the login page, and the flag is cleared on every path |
| `SignUp.HandleGoogleSuccess` | src/pages/Auth/signup.js:95-143 | no request without a decodable credential with a name; on success the session is stored and the planner opens; on failure the server's text or the generic error is shown and nothing is stored |
| `SignIn.LoginCheck` | src/pages/Auth/signin.js:27-30 | the login is sent exactly when both fields are filled |
| `SignIn.LoginBody` | src/pages/Auth/signin.js:40 | the body has exactly the e-mail and the password |
| `SignIn.LoginReplyAlert` | src/pages/Auth/signin.js:54-61 | welcome with the username, the server's `detail` or `Invalid credentials`, or the network error dialog |
| `SignIn.GoogleUsername` | src/pages/Auth/signin.js:72 | the username is no longer than the name and contains no white space |
| `SignIn.GoogleUsernameWithoutSpaces` | src/pages/Auth/signin.js:72 | a name without white space is only lower-cased |
| `SignIn.GoogleUsernamesAgree` | src/pages/Auth/signin.js:72 | the sign-up normaliser agrees with the sign-in one on names the latter already turns into at most 20 characters of `[a-z0-9_]` |
| `SignIn.SignInPage.constructor` | src/pages/Auth/signin.js:10-14 | the form starts empty and the flag cleared |
| `SignIn.SignInPage.Change` | src/pages/Auth/signin.js:17-22 | the named input takes the value; other inputs and the flag are untouched |
| `SignIn.SignInPage.StartLogin` | src/pages/Auth/signin.js:24-42 | an empty field shows its dialog and leaves the flag; otherwise the flag is set and the login is posted |
| `SignIn.SignInPage.FinishLogin` | src/pages/Auth/signin.js:44-64 | on success the session is stored and the planner opens; the flag is cleared on every path |
| `SignIn.HandleGoogleSuccess` | src/pages/Auth/signin.js:67-107 | no request without a decodable credential with a name; on success the session is stored and the planner opens; on failure the server's text or the generic error is shown and nothing is stored |
| `ResetPassword.ResetCheck` | src/pages/Auth/reset-password.js:26-39 | the request is sent exactly when both fields are filled, they match and the password is at least 6 UTF-16 code units long; the first failing check chooses the dialog |
| `ResetPassword.AstralPasswordLongEnough` | src/pages/Auth/reset-password.js:36-39 | a password of three emoji is long enough |
| `ResetPassword.ResetBody` | src/pages/Auth/reset-password.js:49-52 | the body has the link's token and the new password |
| `ResetPassword.ResetReplyAlert` | src/pages/Auth/reset-password.js:58-70 | success, the server's `detail` or `Invalid or expired token`, or the network error dialog |
| `ResetPassword.ResetPasswordPage.constructor` | src/pages/Auth/reset-password.js:8-15 | the token is the route's; the form starts empty and the flag cleared |
| `ResetPassword.ResetPasswordPage.Change` | src/pages/Auth/reset-password.js:16-21 | the named input takes the value; the other input and the flag are untouched |
| `ResetPassword.ResetPasswordPage.StartReset` | src/pages/Auth/reset-password.js:23-54 | a failed check shows its dialog and leaves the flag; otherwise the flag is set and the new password is posted with the token |
| `ResetPassword.ResetPasswordPage.FinishReset` | src/pages/Auth/reset-password.js:56-73 | the reply's dialog is shown, success opens the login page, and the flag is cleared on every path |
| `Profile.LoggedOut` | src/pages/Profile.js:105-112 | logout removes exactly the five session keys and keeps every other entry |
| `Profile.LogoutIdempotent` | src/pages/Profile.js:105-112 | logging out twice is logging out once |
| `Profile.LogoutEndsSession` | src/pages/Profile.js:105-112 | after logout no token is found, and the stored name, e-mail and picture URL remain |
| `Profile.ProfileRequestResult` | src/pages/Profile.js:39-68 | no token fails before the request; 401 is a session expiry; any other non-2xx status fails with the server's `detail` or the status text; 2xx succeeds |
| `Profile.ProfileHeaders` | src/pages/Profile.js:46-53 | the caller's headers win over both defaults, the token included |
| `Profile.ProfilePage.constructor` | src/pages/Profile.js:21-23 | no user, loading, no picture |
| `Profile.ProfilePage.LoadProfilePic` | src/pages/Profile.js:31-36 | a non-empty saved picture is shown; otherwise nothing changes |
| `Profile.ProfilePage.HandleLogout` | src/pages/Profile.js:105-112 | the storage becomes `LoggedOut` of the old one and the login page opens |
| `Profile.ProfilePage.MakeAuthenticatedRequest` | src/pages/Profile.js:39-68 | the request is issued unless there is no token; the result is `ProfileRequestResult`; a 401 logs out and opens the login page; otherwise the storage is unchanged |
| `Profile.ProfilePage.FetchUserData` | src/pages/Profile.js:71-84 | the user is set only on success; loading ends false on every path; a 401 removes the session keys and opens '/login', and no other outcome navigates |
| `Profile.ProfilePage.UploadProfilePic` | src/pages/Profile.js:95-99 | the picture is shown and saved under `profile_pic` |

## Left out

- Network, timers, dialogs and navigation are not modelled as effects. This covers
  `fetch`, `setTimeout`, `Swal.fire`, `navigate`, `window.confirm`, `FileReader`, the
  clipboard and `jwtDecode`. Each is a parameter or an output value of the method that
  uses it.
- The dashboard's mount effect and data loading are not modelled, because they are
  orchestration of network calls. This covers `fetchUserData`, `fetchDashboardData`, the
  weather, geolocation and currency calls, `debugWeatherResponse`, the mock weather and
  the mock dashboard trips.
- `Math.random`, `Date.now()` and `new Date().toISOString()` are not modelled; their
  values are parameters.
- The JSX rendering is not modelled. The map modal, the sidebar and `favoritesExpanded`
  toggles, and the share, download and copy handlers change only what is displayed.
- The landing page, the admin dashboard, `App.js`, the forgot-password page and the map
  components are not part of this model.
- The request helpers of the dashboard and of the profile page do not model a `fetch`
  that rejects. They take the status the server answers with. On the dashboard a
  rejection is rethrown unchanged; on the profile page it propagates to `fetchUserData`,
  which catches it, keeps the user and ends loading.
- `Profile.ProfileRequestResult`: does not model `response.json()` failing on an error
  body, which the page turns into the status text; the `detail` parameter stands for the
  body's field.
- JSON bodies are string-valued maps. Non-string fields and `null` values are not
  represented.
- `JsText.Lower`: only ASCII letters are lower-cased. Unicode case mapping is not
  modelled.
- `CreateTrip.NewTripTitle`: counts characters (code points), not UTF-16 code units as
  `substring` does. The two differ only on text outside the Basic Multilingual Plane,
  where `substring` may also cut a surrogate pair in half, which a string of characters
  cannot represent.
- `handleGoogleError` on the sign-up and sign-in pages is not modelled: it shows a fixed
  dialog and changes no state.
- `JsText.ParseInt`: digits are read as unbounded integers. Floating-point rounding of
  very long digit strings is not modelled.
- `Dashboard.WeatherIcon`: `icons[condition]` also finds inherited object properties
  (for example `constructor`). The model treats only the eight table keys as present.
- `Dashboard.FahrenheitToCelsius` and `Dashboard.KelvinToCelsius`: floating-point
  arithmetic is replaced by exact rational rounding. The two agree for readings of at
  most three digits, which is all the Kelvin pattern captures; a Fahrenheit reading large
  enough to lose precision as a double can round differently, and the range check then
  replaces it either way.
- The request helpers forward the caller's other `fetch` options (`method`, `body`)
  unchanged; `Fetch` records only the URL and the headers.
- `console.log` and `console.error` calls are not modelled; they change no state.
- `WeatherPatterns`: the nine regular expressions are modelled by hand-written matchers
  for those patterns only. A general regular-expression engine is not part of this model.
- The forms' `handleChange` also stores inputs under names the form does not have. No
  handler reads such a field, so the model ignores those names.
- `ResetPassword.ResetBody`: the route token is always a string here. A missing route
  parameter, which `JSON.stringify` would drop from the body, is not modelled.

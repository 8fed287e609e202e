/** The planner page: the list of trips, the favourites panel, the trip being viewed or
    edited, the prompt box and the search box. */
module CreateTrip {
  import opened JsText
  import opened Lists
  import opened BrowserStorage

  /** A trip record; `tripType` is the record's `type` field. */
  datatype Trip = Trip(id: int, title: string, prompt: string, content: string, timestamp: string,
                       favorite: bool, tripType: string)

  datatype User = User(username: string, email: string, profileImage: string)

  /** The itineraries of the mock trips. */
  const BaliItinerary: string :=
    "**Bali 7-Day Itinerary**\n"
    + "\n"
    + "**Day 1: Arrival in Seminyak**\n"
    + "- Check into beachfront villa\n"
    + "- Sunset at Double Six Beach\n"
    + "- Dinner at La Plancha\n"
    + "\n"
    + "**Day 2: Uluwatu Temple & Beaches**\n"
    + "- Morning: Uluwatu Temple visit\n"
    + "- Afternoon: Padang Padang Beach\n"
    + "- Evening: Kecak Fire Dance\n"
    + "\n"
    + "**Day 3: Ubud Cultural Experience**\n"
    + "- Yoga session at sunrise\n"
    + "- Visit Sacred Monkey Forest\n"
    + "- Traditional Balinese cooking class"

  const KyotoItinerary: string :=
    "**Kyoto Cultural Journey**\n"
    + "\n"
    + "**Day 1: Arrival & Gion District**\n"
    + "- Check into ryokan\n"
    + "- Explore Gion district\n"
    + "- Traditional kaiseki dinner"

  const ParisItinerary: string := "**Paris Cafe Tour**..."

  const BaliTrip := Trip(1, "Bali Beach Adventure",
    "Plan a 7-day trip to Bali focusing on beaches, yoga, and local cuisine",
    BaliItinerary, "2024-01-15T10:30:00", true, "beach")

  const JapanTrip := Trip(2, "Japan Temple Tour",
    "Create a 5-day cultural tour of Kyoto temples and traditional experiences",
    KyotoItinerary, "2024-01-10T14:20:00", true, "temple")

  const ParisTrip := Trip(3, "Paris Cafe Hopping",
    "3-day Paris itinerary focusing on famous cafes and patisseries",
    ParisItinerary, "2024-01-05T09:15:00", false, "cafe")

  /** The hard-coded trips the page loads in place of a server call. */
  const MockTrips: seq<Trip> := [BaliTrip, JapanTrip, ParisTrip]

  // ------------------------------------------------------------ list operations

  predicate IsFavorite(trip: Trip) {
    trip.favorite
  }

  /** `trips.filter(trip => trip.favorite)`. */
  function FavoritesOf(trips: seq<Trip>): (r: seq<Trip>)
    ensures IsSubsequence(r, trips)
    ensures forall t :: t in r <==> t in trips && t.favorite
    ensures forall t :: multiset(r)[t] == if t.favorite then multiset(trips)[t] else 0
  {
    FilterIsSubsequence(trips, IsFavorite);
    FilterCounts(trips, IsFavorite);
    Filter(trips, IsFavorite)
  }

  /** The favourites panel's initial list. */
  const MockFavorites: seq<Trip> := FavoritesOf(MockTrips)

  /** Of the mock trips, Bali and Japan are the favourites, in that order. */
  lemma MockFavoritesAreBaliAndJapan()
    ensures MockFavorites == [BaliTrip, JapanTrip]
  {
    var ts := MockTrips;
    assert ts[1..][1..][1..] == [];
    assert Filter(ts[1..][1..], IsFavorite) == [];
    assert Filter(ts[1..], IsFavorite) == [ts[1]];
    assert Filter(ts, IsFavorite) == [ts[0], ts[1]];
  }

  /** `trips.find(trip => trip.id === id)`. */
  function FindTrip(trips: seq<Trip>, id: int): (r: Option<Trip>)
    ensures r.Some? ==> r.value.id == id
    ensures r.Some? ==> exists i :: 0 <= i < |trips| && trips[i] == r.value && forall j :: 0 <= j < i ==> trips[j].id != id
    ensures r.None? <==> forall i :: 0 <= i < |trips| ==> trips[i].id != id
  {
    if trips == [] then None
    else if trips[0].id == id then Some(trips[0])
    else
      var r := FindTrip(trips[1..], id);
      assert forall i :: 1 <= i < |trips| ==> trips[i] == trips[1..][i - 1];
      r
  }

  /** The trip the `trip` URL parameter selects: `mockTrips.find(trip => trip.id === parseInt(tripId))`
      when the parameter is present and non-empty. */
  function SelectedTrip(tripParam: Option<string>): (r: Option<Trip>)
    ensures r.Some? ==> Truthy(tripParam) && ParseInt(tripParam.value) == Some(r.value.id) && r.value in MockTrips
    ensures Truthy(tripParam) && ParseInt(tripParam.value).Some? && r.None? ==>
              forall t :: t in MockTrips ==> t.id != ParseInt(tripParam.value).value
  {
    if Truthy(tripParam) then
      match ParseInt(tripParam.value)
      case Some(n) => FindTrip(MockTrips, n)
      case None => None
    else None
  }

  /** The decimal id of any trip selects exactly that trip. */
  lemma SelectByDecimalId(n: nat)
    ensures SelectedTrip(Some(NatToString(n))) == FindTrip(MockTrips, n)
  {
    ParseIntOfNatToString(n);
  }

  /** The search test of `filteredTrips`: title or prompt contains the term, ignoring case. */
  predicate MatchesSearch(trip: Trip, term: string) {
    Includes(Lower(trip.title), Lower(term)) || Includes(Lower(trip.prompt), Lower(term))
  }

  function SearchTest(term: string): Trip -> bool {
    (trip: Trip) => MatchesSearch(trip, term)
  }

  /** `filteredTrips` and `filteredFavorites`. */
  function SearchFilter(trips: seq<Trip>, term: string): (r: seq<Trip>)
    ensures IsSubsequence(r, trips)
    ensures forall t :: t in r <==> t in trips && MatchesSearch(t, term)
    ensures forall t :: multiset(r)[t] == if MatchesSearch(t, term) then multiset(trips)[t] else 0
  {
    FilterIsSubsequence(trips, SearchTest(term));
    FilterCounts(trips, SearchTest(term));
    Filter(trips, SearchTest(term))
  }

  /** An empty search box shows every trip. */
  lemma EmptySearchKeepsAll(trips: seq<Trip>)
    ensures SearchFilter(trips, "") == trips
  {
    forall i | 0 <= i < |trips|
      ensures SearchTest("")(trips[i])
    {
      IncludesEmpty(Lower(trips[i].title));
    }
    FilterKeepsAll(trips, SearchTest(""));
  }

  /** Searching for a trip's own title, in any case, always lists that trip. */
  lemma SearchByTitleFindsTrip(trips: seq<Trip>, trip: Trip)
    requires trip in trips
    ensures trip in SearchFilter(trips, trip.title)
  {
  }

  function WithoutId(id: int): Trip -> bool {
    (trip: Trip) => trip.id != id
  }

  /** `prev.filter(trip => trip.id !== tripId)`: every trip with that id is gone, every
      other trip stays as often as it was there, in its original order. */
  function WithoutTrip(trips: seq<Trip>, id: int): (r: seq<Trip>)
    ensures IsSubsequence(r, trips)
    ensures forall t :: t in r ==> t.id != id
    ensures forall t :: multiset(r)[t] == if t.id != id then multiset(trips)[t] else 0
  {
    FilterIsSubsequence(trips, WithoutId(id));
    FilterCounts(trips, WithoutId(id));
    Filter(trips, WithoutId(id))
  }

  /** `prev.map(trip => trip.id === tripId ? { ...trip, favorite: !trip.favorite } : trip)`. */
  function ToggledFavorite(trips: seq<Trip>, id: int): (r: seq<Trip>)
    ensures |r| == |trips|
    ensures forall i :: 0 <= i < |trips| ==> r[i].(favorite := trips[i].favorite) == trips[i]
    ensures forall i :: 0 <= i < |trips| ==> (r[i].favorite != trips[i].favorite <==> trips[i].id == id)
  {
    seq(|trips|, i requires 0 <= i < |trips| =>
      if trips[i].id == id then trips[i].(favorite := !trips[i].favorite) else trips[i])
  }

  /** Toggling the same trip twice restores the list. */
  lemma ToggleTwiceRestores(trips: seq<Trip>, id: int)
    ensures ToggledFavorite(ToggledFavorite(trips, id), id) == trips
  {
  }

  /** `prompt.substring(0, 30) + '...'`. */
  function NewTripTitle(prompt: string): (title: string)
    ensures |title| == (if |prompt| < 30 then |prompt| else 30) + 3
    ensures title[..|title| - 3] == prompt[..|title| - 3]
    ensures title[|title| - 3..] == "..."
  {
    (if |prompt| < 30 then prompt else prompt[..30]) + "..."
  }

  /** A prompt of at most 30 characters is kept whole in front of the dots. */
  lemma NewTripTitleKeepsShortPrompt(prompt: string)
    requires |prompt| <= 30
    ensures NewTripTitle(prompt) == prompt + "..."
  {
  }

  /** The text the simulated generator produces for a prompt. */
  function GeneratedContent(prompt: string): string {
    "**Generated Trip Plan for: " + prompt + GeneratedPlanText
  }

  const GeneratedPlanText: string :=
    "**\n"
    + "\n"
    + "This is where the AI-generated trip plan would appear with detailed itinerary, accommodations, activities, and recommendations.\n"
    + "\n"
    + "**Highlights:**\n"
    + "- Customized daily schedule\n"
    + "- Budget recommendations\n"
    + "- Local cuisine suggestions\n"
    + "- Transportation options\n"
    + "- Cultural insights\n"
    + "\n"
    + "The AI has analyzed your preferences and created an optimized itinerary for your dream trip!"

  /** The trip the generator callback builds; `id` stands for `Date.now()` and `timestamp`
      for `new Date().toISOString()`. */
  function NewTrip(prompt: string, id: int, timestamp: string): (t: Trip)
    ensures t.id == id && t.prompt == prompt && t.timestamp == timestamp
    ensures t.title == NewTripTitle(prompt) && !t.favorite && t.tripType == "custom"
  {
    Trip(id, NewTripTitle(prompt), prompt, GeneratedContent(prompt), timestamp, false, "custom")
  }

  /** Deleting a freshly created trip, whose id no other trip has, gives back the list
      it was created on. */
  lemma DeleteUndoesCreate(trips: seq<Trip>, prompt: string, id: int, timestamp: string)
    requires forall i :: 0 <= i < |trips| ==> trips[i].id != id
    ensures WithoutTrip([NewTrip(prompt, id, timestamp)] + trips, id) == trips
  {
    var all := [NewTrip(prompt, id, timestamp)] + trips;
    assert all[1..] == trips;
    FilterKeepsAll(trips, WithoutId(id));
  }

  /** The user the page shows: `localStorage.getItem(key) || fallback` for each field. */
  function StoredUser(items: map<string, string>): (u: User)
    ensures Truthy(Lookup(items, "username")) ==> u.username == items["username"]
    ensures !Truthy(Lookup(items, "username")) ==> u.username == "Traveler"
    ensures u.username != ""
    ensures u.email == OrElse(Lookup(items, "email"), "")
    ensures u.profileImage == OrElse(Lookup(items, "profileImage"), "")
  {
    User(OrElse(Lookup(items, "username"), "Traveler"),
         OrElse(Lookup(items, "email"), ""),
         OrElse(Lookup(items, "profileImage"), ""))
  }

  // ------------------------------------------------------------ the page's state

  class TripPlanner {
    var trips: seq<Trip>
    var favorites: seq<Trip>
    var activeTrip: Option<Trip>
    var prompt: string
    var isGenerating: bool
    var searchTerm: string
    var user: Option<User>

    /** The state before the first effect runs. */
    constructor ()
      ensures trips == [] && favorites == [] && activeTrip == None && prompt == ""
      ensures !isGenerating && searchTerm == "" && user == None
    {
      trips := [];
      favorites := [];
      activeTrip := None;
      prompt := "";
      isGenerating := false;
      searchTerm := "";
      user := None;
    }

    /** The mount effect: user data from storage, the mock trips, their favourites, and
        the trip the `trip` URL parameter names, if any. */
    method LoadInitial(items: map<string, string>, tripParam: Option<string>)
      modifies this
      ensures user == Some(StoredUser(items))
      ensures trips == MockTrips && favorites == MockFavorites
      ensures SelectedTrip(tripParam).Some? ==>
                activeTrip == SelectedTrip(tripParam) && prompt == SelectedTrip(tripParam).value.prompt
      ensures SelectedTrip(tripParam).None? ==> activeTrip == old(activeTrip) && prompt == old(prompt)
      ensures isGenerating == old(isGenerating) && searchTerm == old(searchTerm)
    {
      user := Some(StoredUser(items));
      LoadTrips();
      ShowTripToEdit(SelectedTrip(tripParam));
    }

    /** `setTrips(mockTrips)` and `setFavorites(mockTrips.filter(trip => trip.favorite))`. */
    method LoadTrips()
      modifies this
      ensures trips == MockTrips && favorites == MockFavorites
      ensures activeTrip == old(activeTrip) && prompt == old(prompt) && user == old(user)
      ensures isGenerating == old(isGenerating) && searchTerm == old(searchTerm)
    {
      trips := MockTrips;
      favorites := MockFavorites;
    }

    /** The trip the `trip` URL parameter names, if any, is shown with its prompt in the
        box; with no such trip nothing changes. */
    method ShowTripToEdit(tripToEdit: Option<Trip>)
      modifies this
      ensures tripToEdit.Some? ==> activeTrip == tripToEdit && prompt == tripToEdit.value.prompt
      ensures tripToEdit.None? ==> activeTrip == old(activeTrip) && prompt == old(prompt)
      ensures trips == old(trips) && favorites == old(favorites) && user == old(user)
      ensures isGenerating == old(isGenerating) && searchTerm == old(searchTerm)
    {
      if tripToEdit.Some? {
        activeTrip := tripToEdit;
        prompt := tripToEdit.value.prompt;
      }
    }

    /** The synchronous part of `handleCreateTrip`: a blank prompt does nothing; otherwise
        generation starts and the prompt the callback will use is returned. */
    method StartCreate() returns (pending: Option<string>)
      modifies this
      ensures Trim(old(prompt)) == "" ==> pending == None && isGenerating == old(isGenerating)
      ensures Trim(old(prompt)) != "" ==> pending == Some(old(prompt)) && isGenerating
      ensures old(CanSend()) ==> pending == Some(old(prompt)) && !CanSend()
      ensures trips == old(trips) && favorites == old(favorites) && activeTrip == old(activeTrip)
      ensures prompt == old(prompt) && searchTerm == old(searchTerm) && user == old(user)
    {
      if Trim(prompt) == "" {
        return None;
      }
      isGenerating := true;
      return Some(prompt);
    }

    /** The generator callback: the new trip goes in front of the current list and is
        shown, the prompt box is cleared and generation ends. `capturedPrompt` is the
        prompt `StartCreate` returned. */
    method FinishCreate(capturedPrompt: string, id: int, timestamp: string)
      modifies this
      ensures trips == [NewTrip(capturedPrompt, id, timestamp)] + old(trips)
      ensures activeTrip == Some(NewTrip(capturedPrompt, id, timestamp))
      ensures prompt == "" && !isGenerating
      ensures favorites == old(favorites) && searchTerm == old(searchTerm) && user == old(user)
    {
      var newTrip := NewTrip(capturedPrompt, id, timestamp);
      trips := [newTrip] + trips;
      activeTrip := Some(newTrip);
      prompt := "";
      isGenerating := false;
    }

    /** `handleDeleteTrip`; `confirmed` is the answer to the confirmation dialog. */
    method DeleteTrip(tripId: int, confirmed: bool)
      modifies this
      ensures confirmed ==> trips == WithoutTrip(old(trips), tripId) && favorites == WithoutTrip(old(favorites), tripId)
      ensures !confirmed ==> trips == old(trips) && favorites == old(favorites)
      ensures confirmed && old(activeTrip).Some? && old(activeTrip).value.id == tripId ==>
                activeTrip == None && prompt == ""
      ensures !(confirmed && old(activeTrip).Some? && old(activeTrip).value.id == tripId) ==>
                activeTrip == old(activeTrip) && prompt == old(prompt)
      ensures isGenerating == old(isGenerating) && searchTerm == old(searchTerm) && user == old(user)
    {
      if confirmed {
        trips := WithoutTrip(trips, tripId);
        favorites := WithoutTrip(favorites, tripId);
        if activeTrip.Some? && activeTrip.value.id == tripId {
          activeTrip := None;
          prompt := "";
        }
      }
    }

    /** `handleToggleFavorite`: only `trips` changes; the favourites panel keeps its list. */
    method ToggleFavorite(tripId: int)
      modifies this
      ensures trips == ToggledFavorite(old(trips), tripId)
      ensures favorites == old(favorites) && activeTrip == old(activeTrip) && prompt == old(prompt)
      ensures isGenerating == old(isGenerating) && searchTerm == old(searchTerm) && user == old(user)
    {
      trips := ToggledFavorite(trips, tripId);
    }

    /** `handleEditTrip`: show the trip and put its prompt in the box. */
    method EditTrip(trip: Trip)
      modifies this
      ensures activeTrip == Some(trip) && prompt == trip.prompt
      ensures trips == old(trips) && favorites == old(favorites)
      ensures isGenerating == old(isGenerating) && searchTerm == old(searchTerm) && user == old(user)
    {
      activeTrip := Some(trip);
      prompt := trip.prompt;
    }

    /** A click on a trip in either list: show it, leave the prompt alone. */
    method SelectTrip(trip: Trip)
      modifies this
      ensures activeTrip == Some(trip)
      ensures trips == old(trips) && favorites == old(favorites) && prompt == old(prompt)
      ensures isGenerating == old(isGenerating) && searchTerm == old(searchTerm) && user == old(user)
    {
      activeTrip := Some(trip);
    }

    /** The New Trip button. */
    method ResetForNewTrip()
      modifies this
      ensures activeTrip == None && prompt == ""
      ensures trips == old(trips) && favorites == old(favorites)
      ensures isGenerating == old(isGenerating) && searchTerm == old(searchTerm) && user == old(user)
    {
      activeTrip := None;
      prompt := "";
    }

    /** Typing in the prompt box. */
    method SetPrompt(text: string)
      modifies this
      ensures prompt == text
      ensures trips == old(trips) && favorites == old(favorites) && activeTrip == old(activeTrip)
      ensures isGenerating == old(isGenerating) && searchTerm == old(searchTerm) && user == old(user)
    {
      prompt := text;
    }

    /** Typing in the search box. */
    method SetSearchTerm(text: string)
      modifies this
      ensures searchTerm == text
      ensures trips == old(trips) && favorites == old(favorites) && activeTrip == old(activeTrip)
      ensures prompt == old(prompt) && isGenerating == old(isGenerating) && user == old(user)
    {
      searchTerm := text;
    }

    /** The send button is enabled: the prompt has a character other than white space
        and no generation is under way. */
    predicate CanSend()
      reads this
      ensures CanSend() <==> !isGenerating && exists i :: 0 <= i < |prompt| && !IsSpace(prompt[i])
    {
      TrimEmptyIff(prompt);
      Trim(prompt) != "" && !isGenerating
    }
  }
}

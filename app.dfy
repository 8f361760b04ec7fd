/**
 * The search screen: the suggestion list it derives from the store, the
 * recent-search update on selection, the marker and the map region it
 * derives from place details, and the screen object whose effects and
 * selection handler drive the store and the saga.
 */
module App {
  import opened Wrappers
  import opened PlaceTypes
  import opened CommonSlice
  import opened CommonSaga

  // ---------------------------------------------------------------------
  // The suggestion list.
  // ---------------------------------------------------------------------

  /** The suggestion for one prediction: its description shown, its place id kept. */
  function OptionOf(p: Prediction): SearchOption
  {
    SearchOption(p.description, p.placeId)
  }

  /** One suggestion per prediction, in the predictions' order. */
  function PredictionOptions(ps: seq<Prediction>): (r: seq<SearchOption>)
    ensures |r| == |ps|
    ensures forall i :: 0 <= i < |ps| ==> r[i].labelText == ps[i].description && r[i].value == ps[i].placeId
  {
    if ps == [] then [] else [OptionOf(ps[0])] + PredictionOptions(ps[1..])
  }

  /**
   * The list the screen offers: the autocomplete results when there are
   * any, else the recent searches when there are any, else nothing.
   */
  function DataOptions(autoComplete: seq<Prediction>, recent: seq<SearchOption>): (r: seq<SearchOption>)
    ensures autoComplete != [] ==>
      && |r| == |autoComplete|
      && forall i :: 0 <= i < |r| ==>
           r[i] == SearchOption(autoComplete[i].description, autoComplete[i].placeId)
    ensures autoComplete == [] && recent != [] ==> r == recent
    ensures autoComplete == [] && recent == [] ==> r == []
  {
    if |autoComplete| > 0 then PredictionOptions(autoComplete)
    else if |recent| > 0 then recent
    else []
  }

  // ---------------------------------------------------------------------
  // Recent searches.
  // ---------------------------------------------------------------------

  /** No two entries share a place id. */
  predicate DistinctValues(s: seq<SearchOption>)
  {
    forall i, j :: 0 <= i < j < |s| ==> s[i].value != s[j].value
  }

  /** The first entry with place id `value`, if any. */
  function FindByValue(recent: seq<SearchOption>, value: string): (r: Option<SearchOption>)
    ensures r.None? <==> forall i :: 0 <= i < |recent| ==> recent[i].value != value
    ensures r.Some? ==>
      exists i :: && 0 <= i < |recent| && recent[i] == r.value && r.value.value == value
                  && forall j :: 0 <= j < i ==> recent[j].value != value
  {
    if recent == [] then None
    else if recent[0].value == value then Some(recent[0])
    else
      var r := FindByValue(recent[1..], value);
      assert r.Some? ==> exists i :: 0 <= i < |recent[1..]| && recent[1..][i] == r.value
                                    && forall j :: 0 <= j < i ==> recent[1..][j].value != value;
      r
  }

  /** The recent searches after `place` is selected: unchanged if its place id is there, else `place` in front. */
  function WithSelected(recent: seq<SearchOption>, place: SearchOption): (r: seq<SearchOption>)
    ensures (exists i :: 0 <= i < |recent| && recent[i].value == place.value) ==> r == recent
    ensures (forall i :: 0 <= i < |recent| ==> recent[i].value != place.value) ==> r == [place] + recent
  {
    if FindByValue(recent, place.value).None? then [place] + recent else recent
  }

  /** Selection keeps place ids distinct, grows the list by at most one and leaves the selected place id in it. */
  lemma WithSelectedKeepsDistinct(recent: seq<SearchOption>, place: SearchOption)
    requires DistinctValues(recent)
    ensures DistinctValues(WithSelected(recent, place))
    ensures |recent| <= |WithSelected(recent, place)| <= |recent| + 1
    ensures exists i :: 0 <= i < |WithSelected(recent, place)| && WithSelected(recent, place)[i].value == place.value
  {
    var r := WithSelected(recent, place);
    if forall i :: 0 <= i < |recent| ==> recent[i].value != place.value {
      assert r == [place] + recent;
      forall i, j | 0 <= i < j < |r| ensures r[i].value != r[j].value {
        if i > 0 {
          assert r[i] == recent[i - 1] && r[j] == recent[j - 1];
        }
      }
      assert r[0].value == place.value;
    } else {
      assert r == recent;
    }
  }

  /** Selecting the same place again changes nothing. */
  lemma WithSelectedIdempotent(recent: seq<SearchOption>, place: SearchOption)
    ensures WithSelected(WithSelected(recent, place), place) == WithSelected(recent, place)
  {
    var r := WithSelected(recent, place);
    if forall i :: 0 <= i < |recent| ==> recent[i].value != place.value {
      assert r[0].value == place.value;
    }
  }

  /** The recent searches after a series of selections, first selection first. */
  function SelectAll(recent: seq<SearchOption>, places: seq<SearchOption>): seq<SearchOption>
    decreases |places|
  {
    if places == [] then recent else SelectAll(WithSelected(recent, places[0]), places[1..])
  }

  /**
   * Over any series of selections the place ids stay distinct, the list
   * grows by at most one entry per selection, and every entry is an old
   * entry or a selected place.
   */
  lemma {:induction false} SelectionsKeepDistinct(recent: seq<SearchOption>, places: seq<SearchOption>)
    requires DistinctValues(recent)
    ensures DistinctValues(SelectAll(recent, places))
    ensures |SelectAll(recent, places)| <= |recent| + |places|
    ensures forall x :: x in SelectAll(recent, places) ==> x in recent || x in places
    decreases |places|
  {
    if places != [] {
      var next := WithSelected(recent, places[0]);
      WithSelectedKeepsDistinct(recent, places[0]);
      SelectionsKeepDistinct(next, places[1..]);
      forall x | x in SelectAll(recent, places) ensures x in recent || x in places {
        assert x in next || x in places[1..];
      }
    }
  }

  // ---------------------------------------------------------------------
  // The marker and the map region.
  // ---------------------------------------------------------------------

  /** A marker position (the screen's Marker interface). */
  datatype Marker = Marker(latitude: real, longitude: real)

  /** A map region: its center and its extent in each direction. */
  datatype Region = Region(latitude: real, longitude: real, latitudeDelta: real, longitudeDelta: real)

  /** The region the map view starts with. */
  const InitialRegion: Region := Region(3.6305816393328616, 102.57744135741954, 0.169042, 25.92998)

  /**
   * moveToMarker's region for a viewport: half a delta from the center in
   * each direction gives back the viewport's corners. Nothing is
   * normalised or validated, so swapped corners give negative deltas.
   */
  function RegionFor(vp: Viewport): (r: Region)
    ensures r.latitude + r.latitudeDelta / 2.0 == vp.northeast.lat
    ensures r.latitude - r.latitudeDelta / 2.0 == vp.southwest.lat
    ensures r.longitude + r.longitudeDelta / 2.0 == vp.northeast.lng
    ensures r.longitude - r.longitudeDelta / 2.0 == vp.southwest.lng
  {
    var latitudeDelta := vp.northeast.lat - vp.southwest.lat;
    var longitudeDelta := vp.northeast.lng - vp.southwest.lng;
    Region((vp.northeast.lat + vp.southwest.lat) / 2.0,
           (vp.northeast.lng + vp.southwest.lng) / 2.0,
           latitudeDelta,
           longitudeDelta)
  }

  /** The corners determine the region: no other region gives them back. */
  lemma RegionDeterminedByCorners(vp: Viewport, r: Region)
    requires r.latitude + r.latitudeDelta / 2.0 == vp.northeast.lat
    requires r.latitude - r.latitudeDelta / 2.0 == vp.southwest.lat
    requires r.longitude + r.longitudeDelta / 2.0 == vp.northeast.lng
    requires r.longitude - r.longitudeDelta / 2.0 == vp.southwest.lng
    ensures r == RegionFor(vp)
  {
  }

  lemma RegionExample()
    ensures RegionFor(Viewport(LatLng(10.0, 20.0), LatLng(0.0, 0.0))) == Region(5.0, 10.0, 10.0, 20.0)
  {
  }

  /** The geometry of the stored place details, when they are present and have one. */
  function GeometryOf(details: Option<PlaceResult>): Option<Geometry>
  {
    if details.Some? then details.value.geometry else None
  }

  // ---------------------------------------------------------------------
  // The screen.
  // ---------------------------------------------------------------------

  /**
   * The screen's local state and its handles on the store and the saga.
   * The effects are methods; the rendering loop calls each one after a
   * render in which its dependencies changed.
   */
  class Screen {
    const store: CommonStore
    const saga: Saga
    var input: string
    var dataOption: seq<SearchOption>
    var showDataOption: bool
    var marker: Option<Marker>
    /** The region the map was last animated to. */
    var region: Region

    ghost predicate Valid()
      reads this, store, saga
    {
      && saga.store == store
      && saga.Valid()
      && DistinctValues(store.recentSearch)
    }

    /** The store, the saga running on it and a fresh screen. */
    constructor (apiKey: string)
      ensures Valid() && fresh(store) && fresh(saga)
      ensures store.State() == InitialState()
      ensures saga.apiKey == apiKey && saga.latestAutoComplete == 0 && saga.latestPlaceDetails == 0
      ensures saga.outbox == [] && !saga.pendingAutoComplete && !saga.pendingPlaceDetails
      ensures input == "" && dataOption == [] && !showDataOption && marker == None
      ensures region == InitialRegion
    {
      var st := new CommonStore();
      store := st;
      saga := new Saga(st, apiKey);
      input := "";
      dataOption := [];
      showDataOption := false;
      marker := None;
      region := InitialRegion;
    }

    /** The text field reports new text. */
    method ChangeText(text: string)
      requires Valid()
      modifies this`input
      ensures Valid()
      ensures input == text
    {
      input := text;
    }

    /** Effect on `input`: request suggestions for non-empty text, clear them for empty text. */
    method InputEffect()
      requires Valid()
      modifies saga`latestAutoComplete, saga`pendingAutoComplete, saga`outbox, store`autoCompleteApiRes
      ensures Valid()
      ensures input != "" ==>
        && saga.latestAutoComplete == old(saga.latestAutoComplete) + 1
        && saga.pendingAutoComplete
        && saga.outbox == old(saga.outbox)
             + [Request(AutoComplete, AutoCompleteParams(input, saga.apiKey), saga.latestAutoComplete)]
        && store.autoCompleteApiRes == old(store.autoCompleteApiRes)
      ensures input == "" ==>
        && store.autoCompleteApiRes == []
        && saga.outbox == old(saga.outbox)
        && saga.latestAutoComplete == old(saga.latestAutoComplete)
        && saga.pendingAutoComplete == old(saga.pendingAutoComplete)
      ensures saga.latestPlaceDetails == old(saga.latestPlaceDetails)
      ensures saga.pendingPlaceDetails == old(saga.pendingPlaceDetails)
      ensures store.placeDetailsApiRes == old(store.placeDetailsApiRes)
      ensures store.recentSearch == old(store.recentSearch)
    {
      if input != "" {
        saga.StartGetAutoComplete(input);
      } else {
        store.SetAutoCompleteApiRes([]);
      }
    }

    /** Effect on the autocomplete results and recent searches: rebuild the suggestion list. */
    method OptionsEffect()
      requires Valid()
      modifies this`dataOption
      ensures Valid()
      ensures dataOption == DataOptions(store.autoCompleteApiRes, store.recentSearch)
    {
      dataOption := DataOptions(store.autoCompleteApiRes, store.recentSearch);
    }

    /** Effect on the place details: with a geometry, place the marker and move the map; without one, do nothing. */
    method PlaceDetailsEffect()
      requires Valid()
      modifies this`marker, this`region
      ensures Valid()
      ensures GeometryOf(store.placeDetailsApiRes).Some? ==>
        var g := GeometryOf(store.placeDetailsApiRes).value;
        marker == Some(Marker(g.location.lat, g.location.lng)) && region == RegionFor(g.viewport)
      ensures GeometryOf(store.placeDetailsApiRes).None? ==>
        marker == old(marker) && region == old(region)
    {
      var details := store.placeDetailsApiRes;
      if details.Some? && details.value.geometry.Some? {
        var g := details.value.geometry.value;
        marker := Some(Marker(g.location.lat, g.location.lng));
        region := RegionFor(g.viewport);
      }
    }

    /**
     * onSelectPlace: hide the list, show the place's label, drop the
     * marker, request the place's details, and put the place in front of
     * the recent searches unless its place id is already there.
     */
    method SelectPlace(place: SearchOption)
      requires Valid()
      modifies this`showDataOption, this`input, this`marker
      modifies saga`latestPlaceDetails, saga`pendingPlaceDetails, saga`outbox, store`recentSearch
      ensures Valid()
      ensures !showDataOption && input == place.labelText && marker == None
      ensures saga.latestPlaceDetails == old(saga.latestPlaceDetails) + 1 && saga.pendingPlaceDetails
      ensures saga.outbox == old(saga.outbox)
        + [Request(PlaceDetails, PlaceDetailsParams(place.value, saga.apiKey), saga.latestPlaceDetails)]
      ensures saga.latestAutoComplete == old(saga.latestAutoComplete)
      ensures saga.pendingAutoComplete == old(saga.pendingAutoComplete)
      ensures store.recentSearch == WithSelected(old(store.recentSearch), place)
      ensures store.autoCompleteApiRes == old(store.autoCompleteApiRes)
      ensures store.placeDetailsApiRes == old(store.placeDetailsApiRes)
    {
      showDataOption := false;
      input := place.labelText;
      marker := None;
      saga.StartGetPlaceDetails(place.value);
      WithSelectedKeepsDistinct(store.recentSearch, place);
      var existedInRecent := FindByValue(store.recentSearch, place.value);
      if existedInRecent.None? {
        store.SetRecentSearch([place] + store.recentSearch);
      }
    }
  }

  /** Typing "Paris" and receiving one prediction for it: the list offers exactly that place. */
  method SearchParis() returns (screen: Screen)
    ensures fresh(screen) && fresh(screen.store) && fresh(screen.saga)
    ensures screen.Valid()
    ensures screen.saga.outbox == [Request(AutoComplete, [("input", "Paris"), ("key", "api-key")], 1)]
    ensures screen.saga.apiKey == "api-key"
    ensures screen.saga.latestAutoComplete == 1 && !screen.saga.pendingAutoComplete
    ensures screen.saga.latestPlaceDetails == 0 && !screen.saga.pendingPlaceDetails
    ensures screen.store.recentSearch == []
    ensures screen.dataOption == [SearchOption("Paris, France", "p1")]
  {
    screen := new Screen("api-key");
    screen.ChangeText("Paris");
    screen.InputEffect();
    assert screen.saga.latestAutoComplete == 1 && screen.saga.pendingAutoComplete;
    var predictions := [Prediction("Paris, France", "p1")];
    screen.saga.FinishGetAutoComplete(1, Some(AutoCompleteBody(Some(predictions))));
    assert screen.store.autoCompleteApiRes == predictions;
    screen.OptionsEffect();
    assert PredictionOptions(predictions) == [SearchOption("Paris, France", "p1")];
  }

  /**
   * After that search, select the suggested place. The details are
   * requested for the place's id, the place becomes the only recent
   * search, and the label now in the text field makes the input effect
   * request suggestions for it.
   */
  method SelectParis() returns (screen: Screen)
    ensures fresh(screen) && fresh(screen.store) && fresh(screen.saga)
    ensures screen.Valid()
    ensures screen.saga.apiKey == "api-key"
    ensures screen.saga.outbox == [Request(AutoComplete, [("input", "Paris"), ("key", "api-key")], 1),
                                   Request(PlaceDetails, [("place_id", "p1"), ("key", "api-key")], 1),
                                   Request(AutoComplete, [("input", "Paris, France"), ("key", "api-key")], 2)]
    ensures screen.saga.latestAutoComplete == 2 && screen.saga.pendingAutoComplete
    ensures screen.saga.latestPlaceDetails == 1 && screen.saga.pendingPlaceDetails
    ensures screen.input == "Paris, France" && !screen.showDataOption && screen.marker == None
    ensures screen.store.recentSearch == [SearchOption("Paris, France", "p1")]
  {
    screen := SearchParis();
    screen.SelectPlace(screen.dataOption[0]);
    screen.InputEffect();
  }

  /**
   * A whole search: after the selection, the place's geometry arrives and
   * the marker lands on the place's location, with the map on its viewport.
   */
  method EndToEndSearch() returns (screen: Screen)
    ensures screen.Valid()
    ensures screen.saga.outbox == [Request(AutoComplete, [("input", "Paris"), ("key", "api-key")], 1),
                                   Request(PlaceDetails, [("place_id", "p1"), ("key", "api-key")], 1),
                                   Request(AutoComplete, [("input", "Paris, France"), ("key", "api-key")], 2)]
    ensures screen.saga.latestAutoComplete == 2 && screen.saga.pendingAutoComplete
    ensures !screen.saga.pendingPlaceDetails
    ensures screen.input == "Paris, France" && !screen.showDataOption
    ensures screen.store.recentSearch == [SearchOption("Paris, France", "p1")]
    ensures screen.marker == Some(Marker(48.85, 2.35))
    ensures screen.region == RegionFor(Viewport(LatLng(48.90, 2.47), LatLng(48.81, 2.22)))
  {
    screen := SelectParis();
    var vp := Viewport(LatLng(48.90, 2.47), LatLng(48.81, 2.22));
    var geometry := Geometry(LatLng(48.85, 2.35), vp);
    screen.saga.FinishGetPlaceDetails(1, Some(PlaceDetailsBody(Some(PlaceResult(Some(geometry))))));
    screen.PlaceDetailsEffect();
  }

  /**
   * A selection puts the place's label into the text field. React runs the
   * input effect afterwards only if that changed the text: then a non-empty
   * label requests suggestions for itself as the newest autocomplete
   * request, and an empty label clears the suggestions instead.
   */
  method SelectThenInputEffect(screen: Screen, place: SearchOption)
    requires screen.Valid()
    modifies screen`showDataOption, screen`input, screen`marker
    modifies screen.saga`latestAutoComplete, screen.saga`latestPlaceDetails, screen.saga`outbox
    modifies screen.saga`pendingAutoComplete, screen.saga`pendingPlaceDetails
    modifies screen.store`recentSearch, screen.store`autoCompleteApiRes
    ensures screen.Valid()
    ensures !screen.showDataOption && screen.input == place.labelText
    ensures screen.store.recentSearch == WithSelected(old(screen.store.recentSearch), place)
    ensures screen.saga.latestPlaceDetails == old(screen.saga.latestPlaceDetails) + 1
    ensures screen.saga.pendingPlaceDetails
    ensures var details := Request(PlaceDetails, PlaceDetailsParams(place.value, screen.saga.apiKey),
                                   screen.saga.latestPlaceDetails);
      if place.labelText != old(screen.input) && place.labelText != "" then
        && screen.saga.outbox == old(screen.saga.outbox)
             + [details, Request(AutoComplete, AutoCompleteParams(place.labelText, screen.saga.apiKey),
                                 screen.saga.latestAutoComplete)]
        && screen.saga.latestAutoComplete == old(screen.saga.latestAutoComplete) + 1
        && screen.saga.pendingAutoComplete
      else
        && screen.saga.outbox == old(screen.saga.outbox) + [details]
        && screen.saga.latestAutoComplete == old(screen.saga.latestAutoComplete)
    ensures place.labelText != old(screen.input) && place.labelText == "" ==>
      screen.store.autoCompleteApiRes == []
    ensures place.labelText == old(screen.input) ==>
      screen.store.autoCompleteApiRes == old(screen.store.autoCompleteApiRes)
  {
    var previous := screen.input;
    screen.SelectPlace(place);
    if screen.input != previous {
      screen.InputEffect();
    }
  }
}

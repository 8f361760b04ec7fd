/**
 * The value types the screen, the saga and the store pass between them:
 * suggestion entries, autocomplete predictions, coordinates and the parsed
 * bodies of the two places endpoints.
 */
module PlaceTypes {
  import opened Wrappers

  /** One entry of the suggestion list (DataOption): display text (`label` in `App.tsx`; `label` is a Dafny keyword) and opaque place id. */
  datatype SearchOption = SearchOption(labelText: string, value: string)

  /** One element of the `predictions` array of an autocomplete response. */
  datatype Prediction = Prediction(description: string, placeId: string)

  datatype LatLng = LatLng(lat: real, lng: real)

  /** A bounding box, as the place-details endpoint reports it. */
  datatype Viewport = Viewport(northeast: LatLng, southwest: LatLng)

  datatype Geometry = Geometry(location: LatLng, viewport: Viewport)

  /** The `result` object of a place-details response; only its `geometry` is read. */
  datatype PlaceResult = PlaceResult(geometry: Option<Geometry>)

  /** Parsed body of the autocomplete endpoint; `predictions` may be missing. */
  datatype AutoCompleteBody = AutoCompleteBody(predictions: Option<seq<Prediction>>)

  /** Parsed body of the place-details endpoint; `result` may be missing. */
  datatype PlaceDetailsBody = PlaceDetailsBody(result: Option<PlaceResult>)
}

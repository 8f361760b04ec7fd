/**
 * The `common` slice of the shared store: three fields, each replaced
 * wholesale by its own reducer, and no other logic.
 */
module CommonSlice {
  import opened Wrappers
  import opened PlaceTypes

  /**
   * The slice's state. `placeDetailsApiRes` is None when a response without
   * a `result` field was written (`getPlaceDetails` in `common.saga.tsx` then puts `undefined`).
   */
  datatype CommonState = CommonState(
    autoCompleteApiRes: seq<Prediction>,
    placeDetailsApiRes: Option<PlaceResult>,
    recentSearch: seq<SearchOption>)

  /** The three actions the slice reduces; each carries the new value of one field. */
  datatype Action =
    | SetAutoComplete(predictions: seq<Prediction>)
    | SetPlaceDetails(details: Option<PlaceResult>)
    | SetRecent(searches: seq<SearchOption>)

  /** The empty object `{}` the place-details field starts with: present, without geometry. */
  const EmptyPlaceDetails: Option<PlaceResult> := Some(PlaceResult(None))

  function InitialState(): CommonState
  {
    CommonState([], EmptyPlaceDetails, [])
  }

  /** The slice's reducer, one case per reducer of `common.slice.tsx`. */
  function Reduce(s: CommonState, a: Action): CommonState
  {
    match a
    case SetAutoComplete(p) => s.(autoCompleteApiRes := p)
    case SetPlaceDetails(p) => s.(placeDetailsApiRes := p)
    case SetRecent(p) => s.(recentSearch := p)
  }

  /** Which of the three fields an action writes. */
  function FieldOf(a: Action): nat
  {
    match a
    case SetAutoComplete(_) => 0
    case SetPlaceDetails(_) => 1
    case SetRecent(_) => 2
  }

  /** Each action writes its payload into its own field and leaves the other two alone. */
  lemma ReduceWritesOneField(s: CommonState, a: Action)
    ensures a.SetAutoComplete? ==>
      Reduce(s, a) == CommonState(a.predictions, s.placeDetailsApiRes, s.recentSearch)
    ensures a.SetPlaceDetails? ==>
      Reduce(s, a) == CommonState(s.autoCompleteApiRes, a.details, s.recentSearch)
    ensures a.SetRecent? ==>
      Reduce(s, a) == CommonState(s.autoCompleteApiRes, s.placeDetailsApiRes, a.searches)
  {
  }

  /** Reducing the same action twice is the same as reducing it once. */
  lemma ReduceIdempotent(s: CommonState, a: Action)
    ensures Reduce(Reduce(s, a), a) == Reduce(s, a)
  {
  }

  /** Actions on different fields commute. */
  lemma ReduceCommutes(s: CommonState, a: Action, b: Action)
    requires FieldOf(a) != FieldOf(b)
    ensures Reduce(Reduce(s, a), b) == Reduce(Reduce(s, b), a)
  {
  }

  /** A field is replaced, never merged: of two actions on one field, the later decides. */
  lemma ReduceLastWriteWins(s: CommonState, a: Action, b: Action)
    requires FieldOf(a) == FieldOf(b)
    ensures Reduce(Reduce(s, a), b) == Reduce(s, b)
  {
  }

  /** The store object: the three fields, updated in place by the three reducers. */
  class CommonStore {
    var autoCompleteApiRes: seq<Prediction>
    var placeDetailsApiRes: Option<PlaceResult>
    var recentSearch: seq<SearchOption>

    function State(): CommonState
      reads this
    {
      CommonState(autoCompleteApiRes, placeDetailsApiRes, recentSearch)
    }

    constructor ()
      ensures autoCompleteApiRes == [] && placeDetailsApiRes == EmptyPlaceDetails && recentSearch == []
      ensures State() == InitialState()
    {
      autoCompleteApiRes := [];
      placeDetailsApiRes := EmptyPlaceDetails;
      recentSearch := [];
    }

    method SetAutoCompleteApiRes(payload: seq<Prediction>)
      modifies this`autoCompleteApiRes
      ensures autoCompleteApiRes == payload
      ensures placeDetailsApiRes == old(placeDetailsApiRes) && recentSearch == old(recentSearch)
      ensures State() == Reduce(old(State()), SetAutoComplete(payload))
    {
      autoCompleteApiRes := payload;
    }

    method SetPlaceDetailsApiRes(payload: Option<PlaceResult>)
      modifies this`placeDetailsApiRes
      ensures placeDetailsApiRes == payload
      ensures autoCompleteApiRes == old(autoCompleteApiRes) && recentSearch == old(recentSearch)
      ensures State() == Reduce(old(State()), SetPlaceDetails(payload))
    {
      placeDetailsApiRes := payload;
    }

    method SetRecentSearch(payload: seq<SearchOption>)
      modifies this`recentSearch
      ensures recentSearch == payload
      ensures autoCompleteApiRes == old(autoCompleteApiRes) && placeDetailsApiRes == old(placeDetailsApiRes)
      ensures State() == Reduce(old(State()), SetRecent(payload))
    {
      recentSearch := payload;
    }
  }
}

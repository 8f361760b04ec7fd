/**
 * The saga that serves the two request actions. Each handler builds its
 * query parameters, issues one HTTP GET and, when the response arrives,
 * puts the result into the store. `takeLatest` keys the two actions
 * independently: a new action of one kind supersedes the task still
 * running for that kind, so only the most recently issued request of a
 * kind may write, and a task ends once it has run. That effect is
 * modelled with one sequence token and one pending flag per kind: a
 * completion writes only when it carries the latest token and that task
 * has not finished yet.
 *
 * Two views of the same behaviour: `Step`/`Run` over `SagaState` values,
 * about which the latest-wins lemmas are proved, and the `Saga` class,
 * whose methods update the store and the tokens in place and are proved
 * to follow `Step`.
 */
module CommonSaga {
  import opened Wrappers
  import opened PlaceTypes
  import opened CommonSlice

  /** The two action types `takeLatest` listens to. */
  datatype Trigger = AutoComplete | PlaceDetails

  /**
   * An HTTP GET the saga issued: the endpoint (by trigger), the parameter
   * map the query string is built from, and the token of the issuing task.
   */
  datatype Request = Request(trigger: Trigger, params: seq<(string, string)>, token: nat)

  function AutoCompleteParams(input: string, key: string): seq<(string, string)>
  {
    [("input", input), ("key", key)]
  }

  function PlaceDetailsParams(placeId: string, key: string): seq<(string, string)>
  {
    [("place_id", placeId), ("key", key)]
  }

  /**
   * What getAutoComplete puts: the response's predictions when there is a
   * response that has them, and the empty list otherwise (a failed call
   * returns no data).
   */
  function AutoCompletePayload(data: Option<AutoCompleteBody>): seq<Prediction>
  {
    if data.Some? && data.value.predictions.Some? then data.value.predictions.value else []
  }

  /** Whether a handler reaches its `put`, and with what. */
  datatype Outcome<T> = Write(payload: T) | NoWrite

  /**
   * What getPlaceDetails does with a response: with a body it puts the
   * body's `result` (which may be absent); with no body the `result` access
   * throws, the handler's catch swallows it, and nothing is put.
   */
  function PlaceDetailsOutcome(data: Option<PlaceDetailsBody>): Outcome<Option<PlaceResult>>
  {
    match data
    case None => NoWrite
    case Some(body) => Write(body.result)
  }

  /**
   * The store's state, the latest token per trigger, whether the task
   * holding that token is still running, and every request issued so far.
   */
  datatype SagaState = SagaState(
    apiKey: string,
    common: CommonState,
    latestAutoComplete: nat,
    latestPlaceDetails: nat,
    pendingAutoComplete: bool,
    pendingPlaceDetails: bool,
    outbox: seq<Request>)

  function Latest(s: SagaState, k: Trigger): nat
  {
    match k
    case AutoComplete => s.latestAutoComplete
    case PlaceDetails => s.latestPlaceDetails
  }

  function Pending(s: SagaState, k: Trigger): bool
  {
    match k
    case AutoComplete => s.pendingAutoComplete
    case PlaceDetails => s.pendingPlaceDetails
  }

  /** What can happen to the saga and the store, one atomic step at a time. */
  datatype Event =
    | StartAutoComplete(input: string)          // getAutoCompleteAction dispatched
    | StartPlaceDetails(placeId: string)        // getPlaceDetailsAction dispatched
    | AutoCompleteDone(token: nat, predictionsBody: Option<AutoCompleteBody>)
    | PlaceDetailsDone(token: nat, detailsBody: Option<PlaceDetailsBody>)
    | Dispatch(action: Action)                  // a reducer action dispatched directly

  function Step(s: SagaState, e: Event): SagaState
  {
    match e
    case StartAutoComplete(input) =>
      var t := s.latestAutoComplete + 1;
      s.(latestAutoComplete := t, pendingAutoComplete := true,
         outbox := s.outbox + [Request(AutoComplete, AutoCompleteParams(input, s.apiKey), t)])
    case StartPlaceDetails(placeId) =>
      var t := s.latestPlaceDetails + 1;
      s.(latestPlaceDetails := t, pendingPlaceDetails := true,
         outbox := s.outbox + [Request(PlaceDetails, PlaceDetailsParams(placeId, s.apiKey), t)])
    case AutoCompleteDone(t, body) =>
      if s.pendingAutoComplete && t == s.latestAutoComplete
      then s.(pendingAutoComplete := false,
              common := Reduce(s.common, SetAutoComplete(AutoCompletePayload(body))))
      else s
    case PlaceDetailsDone(t, body) =>
      if s.pendingPlaceDetails && t == s.latestPlaceDetails then
        match PlaceDetailsOutcome(body)
        case Write(p) => s.(pendingPlaceDetails := false, common := Reduce(s.common, SetPlaceDetails(p)))
        case NoWrite => s.(pendingPlaceDetails := false)
      else s
    case Dispatch(a) => s.(common := Reduce(s.common, a))
  }

  function Run(s: SagaState, trace: seq<Event>): SagaState
    decreases |trace|
  {
    if trace == [] then s else Run(Step(s, trace[0]), trace[1..])
  }

  lemma RunSingle(s: SagaState, e: Event)
    ensures Run(s, [e]) == Step(s, e)
  {
    assert [e][1..] == [];
  }

  lemma {:induction false} RunAppend(s: SagaState, t1: seq<Event>, t2: seq<Event>)
    ensures Run(s, t1 + t2) == Run(Run(s, t1), t2)
    decreases |t1|
  {
    if t1 == [] {
      assert t1 + t2 == t2;
    } else {
      assert (t1 + t2)[0] == t1[0];
      assert (t1 + t2)[1..] == t1[1..] + t2;
      RunAppend(Step(s, t1[0]), t1[1..], t2);
    }
  }

  // ---------------------------------------------------------------------
  // Tokens: the requests of each trigger carry 1, 2, ..., latest, in order.
  // ---------------------------------------------------------------------

  /** The tokens of the requests of trigger `k`, in issue order. */
  function TokensOf(outbox: seq<Request>, k: Trigger): seq<nat>
    decreases |outbox|
  {
    if outbox == [] then []
    else
      var last := outbox[|outbox| - 1];
      TokensOf(outbox[..|outbox| - 1], k) + (if last.trigger == k then [last.token] else [])
  }

  /** The sequence 1, 2, ..., n. */
  function UpTo(n: nat): seq<nat>
  {
    if n == 0 then [] else UpTo(n - 1) + [n]
  }

  lemma {:induction false} UpToLength(n: nat)
    ensures |UpTo(n)| == n
  {
    if n > 0 {
      UpToLength(n - 1);
    }
  }

  lemma {:induction false} UpToAt(n: nat, i: nat)
    requires i < n
    ensures |UpTo(n)| == n && UpTo(n)[i] == i + 1
  {
    UpToLength(n - 1);
    if i < n - 1 {
      UpToAt(n - 1, i);
    }
  }

  predicate TokensInOrder(outbox: seq<Request>, latestAutoComplete: nat, latestPlaceDetails: nat)
  {
    && TokensOf(outbox, AutoComplete) == UpTo(latestAutoComplete)
    && TokensOf(outbox, PlaceDetails) == UpTo(latestPlaceDetails)
  }

  /** A running task holds a token that was issued. */
  predicate PendingIssued(pending: bool, latest: nat)
  {
    pending ==> latest > 0
  }

  predicate ValidState(s: SagaState)
  {
    && TokensInOrder(s.outbox, s.latestAutoComplete, s.latestPlaceDetails)
    && PendingIssued(s.pendingAutoComplete, s.latestAutoComplete)
    && PendingIssued(s.pendingPlaceDetails, s.latestPlaceDetails)
  }

  lemma TokensOfAppend(outbox: seq<Request>, r: Request, k: Trigger)
    ensures TokensOf(outbox + [r], k) == TokensOf(outbox, k) + (if r.trigger == k then [r.token] else [])
  {
    assert (outbox + [r])[..|outbox|] == outbox;
  }

  lemma StartAutoCompleteKeepsValid(s: SagaState, input: string)
    requires ValidState(s)
    ensures ValidState(Step(s, StartAutoComplete(input)))
  {
    var s' := Step(s, StartAutoComplete(input));
    var t := s.latestAutoComplete + 1;
    var r := Request(AutoComplete, AutoCompleteParams(input, s.apiKey), t);
    assert s'.outbox == s.outbox + [r];
    assert s'.latestAutoComplete == t && s'.latestPlaceDetails == s.latestPlaceDetails;
    TokensOfAppend(s.outbox, r, AutoComplete);
    TokensOfAppend(s.outbox, r, PlaceDetails);
    assert UpTo(t) == UpTo(t - 1) + [t];
  }

  lemma StartPlaceDetailsKeepsValid(s: SagaState, placeId: string)
    requires ValidState(s)
    ensures ValidState(Step(s, StartPlaceDetails(placeId)))
  {
    var s' := Step(s, StartPlaceDetails(placeId));
    var t := s.latestPlaceDetails + 1;
    var r := Request(PlaceDetails, PlaceDetailsParams(placeId, s.apiKey), t);
    assert s'.outbox == s.outbox + [r];
    assert s'.latestPlaceDetails == t && s'.latestAutoComplete == s.latestAutoComplete;
    TokensOfAppend(s.outbox, r, AutoComplete);
    TokensOfAppend(s.outbox, r, PlaceDetails);
    assert UpTo(t) == UpTo(t - 1) + [t];
  }

  lemma StepKeepsValid(s: SagaState, e: Event)
    requires ValidState(s)
    ensures ValidState(Step(s, e))
  {
    var s' := Step(s, e);
    match e
    case StartAutoComplete(input) =>
      StartAutoCompleteKeepsValid(s, input);
    case StartPlaceDetails(placeId) =>
      StartPlaceDetailsKeepsValid(s, placeId);
    case AutoCompleteDone(_, _) =>
      assert s'.outbox == s.outbox && s'.latestAutoComplete == s.latestAutoComplete
          && s'.latestPlaceDetails == s.latestPlaceDetails;
      assert s'.pendingAutoComplete ==> s.pendingAutoComplete;
      assert s'.pendingPlaceDetails == s.pendingPlaceDetails;
    case PlaceDetailsDone(_, _) =>
      assert s'.outbox == s.outbox && s'.latestAutoComplete == s.latestAutoComplete
          && s'.latestPlaceDetails == s.latestPlaceDetails;
      assert s'.pendingAutoComplete == s.pendingAutoComplete;
      assert s'.pendingPlaceDetails ==> s.pendingPlaceDetails;
    case Dispatch(_) =>
      assert s'.outbox == s.outbox && s'.latestAutoComplete == s.latestAutoComplete
          && s'.latestPlaceDetails == s.latestPlaceDetails;
      assert s'.pendingAutoComplete == s.pendingAutoComplete
          && s'.pendingPlaceDetails == s.pendingPlaceDetails;
  }

  lemma {:induction false} RunKeepsValid(s: SagaState, trace: seq<Event>)
    requires ValidState(s)
    ensures ValidState(Run(s, trace))
    decreases |trace|
  {
    if trace != [] {
      StepKeepsValid(s, trace[0]);
      RunKeepsValid(Step(s, trace[0]), trace[1..]);
    }
  }

  /**
   * In a valid state the requests of trigger `k` carry the tokens
   * 1, ..., Latest(s, k) in the order they were issued: tokens are distinct,
   * increase, and the latest token is that of the newest request.
   */
  lemma LatestIsNewest(s: SagaState, k: Trigger, i: nat)
    requires ValidState(s)
    requires i < |TokensOf(s.outbox, k)|
    ensures |TokensOf(s.outbox, k)| == Latest(s, k)
    ensures TokensOf(s.outbox, k)[i] == i + 1 <= Latest(s, k)
  {
    UpToLength(Latest(s, k));
    UpToAt(Latest(s, k), i);
  }

  lemma UpToHasLast(n: nat)
    requires n > 0
    ensures n in UpTo(n)
  {
    assert UpTo(n) == UpTo(n - 1) + [n];
  }

  /**
   * A completion whose token no request of its trigger carries (token 0,
   * a token never issued) changes nothing: only issued tasks can write.
   */
  lemma UnissuedCompletionIgnored(
    s: SagaState, t: nat, acBody: Option<AutoCompleteBody>, pdBody: Option<PlaceDetailsBody>)
    requires ValidState(s)
    ensures t !in TokensOf(s.outbox, AutoComplete) ==> Step(s, AutoCompleteDone(t, acBody)) == s
    ensures t !in TokensOf(s.outbox, PlaceDetails) ==> Step(s, PlaceDetailsDone(t, pdBody)) == s
  {
    if s.pendingAutoComplete {
      UpToHasLast(s.latestAutoComplete);
    }
    if s.pendingPlaceDetails {
      UpToHasLast(s.latestPlaceDetails);
    }
  }

  /** A task writes at most once: a second completion with the same token changes nothing. */
  lemma CompletesOnce(
    s: SagaState, t: nat, acBody1: Option<AutoCompleteBody>, acBody2: Option<AutoCompleteBody>,
    pdBody1: Option<PlaceDetailsBody>, pdBody2: Option<PlaceDetailsBody>)
    ensures var s1 := Step(s, AutoCompleteDone(t, acBody1));
      Step(s1, AutoCompleteDone(t, acBody2)) == s1
    ensures var s1 := Step(s, PlaceDetailsDone(t, pdBody1));
      Step(s1, PlaceDetailsDone(t, pdBody2)) == s1
  {
  }

  // ---------------------------------------------------------------------
  // Latest wins, per trigger.
  // ---------------------------------------------------------------------

  /**
   * Event `e` can change neither the autocomplete results nor the
   * autocomplete token and pending flag while `token` is the latest one: it is no new
   * autocomplete request, no completion of the current one and no direct
   * write of the field.
   */
  predicate SparesAutoComplete(e: Event, token: nat)
  {
    match e
    case StartAutoComplete(_) => false
    case AutoCompleteDone(t, _) => t != token
    case Dispatch(a) => !a.SetAutoComplete?
    case _ => true
  }

  /** The same for place details. */
  predicate SparesPlaceDetails(e: Event, token: nat)
  {
    match e
    case StartPlaceDetails(_) => false
    case PlaceDetailsDone(t, _) => t != token
    case Dispatch(a) => !a.SetPlaceDetails?
    case _ => true
  }

  /** Stale autocomplete completions, place-details traffic and other writes leave the autocomplete results and token alone. */
  lemma {:induction false} StaleEventsSpareAutoComplete(s: SagaState, trace: seq<Event>)
    requires forall i :: 0 <= i < |trace| ==> SparesAutoComplete(trace[i], s.latestAutoComplete)
    ensures Run(s, trace).latestAutoComplete == s.latestAutoComplete
    ensures Run(s, trace).pendingAutoComplete == s.pendingAutoComplete
    ensures Run(s, trace).common.autoCompleteApiRes == s.common.autoCompleteApiRes
    decreases |trace|
  {
    if trace != [] {
      assert SparesAutoComplete(trace[0], s.latestAutoComplete);
      StaleEventsSpareAutoComplete(Step(s, trace[0]), trace[1..]);
    }
  }

  lemma {:induction false} StaleEventsSparePlaceDetails(s: SagaState, trace: seq<Event>)
    requires forall i :: 0 <= i < |trace| ==> SparesPlaceDetails(trace[i], s.latestPlaceDetails)
    ensures Run(s, trace).latestPlaceDetails == s.latestPlaceDetails
    ensures Run(s, trace).pendingPlaceDetails == s.pendingPlaceDetails
    ensures Run(s, trace).common.placeDetailsApiRes == s.common.placeDetailsApiRes
    decreases |trace|
  {
    if trace != [] {
      assert SparesPlaceDetails(trace[0], s.latestPlaceDetails);
      StaleEventsSparePlaceDetails(Step(s, trace[0]), trace[1..]);
    }
  }

  /** Issuing two autocomplete requests makes the second one current and pending, and writes nothing. */
  lemma IssueTwoAutoComplete(s: SagaState, inputA: string, inputB: string)
    ensures var s1 := Run(s, [StartAutoComplete(inputA), StartAutoComplete(inputB)]);
      s1.latestAutoComplete == s.latestAutoComplete + 2 && s1.pendingAutoComplete && s1.common == s.common
  {
    RunAppend(s, [StartAutoComplete(inputA)], [StartAutoComplete(inputB)]);
    RunSingle(s, StartAutoComplete(inputA));
    RunSingle(Step(s, StartAutoComplete(inputA)), StartAutoComplete(inputB));
    assert [StartAutoComplete(inputA)] + [StartAutoComplete(inputB)]
        == [StartAutoComplete(inputA), StartAutoComplete(inputB)];
  }

  /** The same for place details. */
  lemma IssueTwoPlaceDetails(s: SagaState, idA: string, idB: string)
    ensures var s1 := Run(s, [StartPlaceDetails(idA), StartPlaceDetails(idB)]);
      s1.latestPlaceDetails == s.latestPlaceDetails + 2 && s1.pendingPlaceDetails && s1.common == s.common
  {
    RunAppend(s, [StartPlaceDetails(idA)], [StartPlaceDetails(idB)]);
    RunSingle(s, StartPlaceDetails(idA));
    RunSingle(Step(s, StartPlaceDetails(idA)), StartPlaceDetails(idB));
    assert [StartPlaceDetails(idA)] + [StartPlaceDetails(idB)]
        == [StartPlaceDetails(idA), StartPlaceDetails(idB)];
  }

  /** The pending current autocomplete task completes, then only sparing events follow: its payload stays. */
  lemma CurrentAutoCompleteWrites(s: SagaState, body: Option<AutoCompleteBody>, after: seq<Event>)
    requires s.pendingAutoComplete
    requires forall i :: 0 <= i < |after| ==> SparesAutoComplete(after[i], s.latestAutoComplete)
    ensures Run(Run(s, [AutoCompleteDone(s.latestAutoComplete, body)]), after).common.autoCompleteApiRes
            == AutoCompletePayload(body)
  {
    var done := AutoCompleteDone(s.latestAutoComplete, body);
    var s1 := Step(s, done);
    assert s1.latestAutoComplete == s.latestAutoComplete;
    assert s1.common.autoCompleteApiRes == AutoCompletePayload(body);
    RunSingle(s, done);
    StaleEventsSpareAutoComplete(s1, after);
  }

  /** The same for place details: with a body its `result` stays, without one the old details do. */
  lemma CurrentPlaceDetailsWrites(s: SagaState, body: Option<PlaceDetailsBody>, after: seq<Event>)
    requires s.pendingPlaceDetails
    requires forall i :: 0 <= i < |after| ==> SparesPlaceDetails(after[i], s.latestPlaceDetails)
    ensures Run(Run(s, [PlaceDetailsDone(s.latestPlaceDetails, body)]), after).common.placeDetailsApiRes
            == (if body.Some? then body.value.result else s.common.placeDetailsApiRes)
  {
    var done := PlaceDetailsDone(s.latestPlaceDetails, body);
    var s1 := Step(s, done);
    assert s1.latestPlaceDetails == s.latestPlaceDetails;
    assert s1.common.placeDetailsApiRes == (if body.Some? then body.value.result else s.common.placeDetailsApiRes) by {
      if body.Some? {
        assert PlaceDetailsOutcome(body) == Write(body.value.result);
      }
    }
    RunSingle(s, done);
    StaleEventsSparePlaceDetails(s1, after);
  }

  /**
   * Requests A then B for autocomplete: whatever else happens before and
   * after B completes (A completing early or late, place-details traffic,
   * other writes), the results end up as B's payload.
   */
  lemma LatestAutoCompleteWins(
    s: SagaState, inputA: string, inputB: string, body: Option<AutoCompleteBody>,
    before: seq<Event>, after: seq<Event>)
    requires forall i :: 0 <= i < |before| ==> SparesAutoComplete(before[i], s.latestAutoComplete + 2)
    requires forall i :: 0 <= i < |after| ==> SparesAutoComplete(after[i], s.latestAutoComplete + 2)
    ensures Run(s, [StartAutoComplete(inputA), StartAutoComplete(inputB)] + before
                   + [AutoCompleteDone(s.latestAutoComplete + 2, body)] + after).common.autoCompleteApiRes
            == AutoCompletePayload(body)
  {
    var b := s.latestAutoComplete + 2;
    var issued := [StartAutoComplete(inputA), StartAutoComplete(inputB)];
    var done := [AutoCompleteDone(b, body)];
    var s2 := Run(s, issued + before);
    assert s2.latestAutoComplete == b && s2.pendingAutoComplete by {
      IssueTwoAutoComplete(s, inputA, inputB);
      var s1 := Run(s, issued);
      assert s1.latestAutoComplete == b && s1.pendingAutoComplete;
      assert forall i :: 0 <= i < |before| ==> SparesAutoComplete(before[i], s1.latestAutoComplete);
      StaleEventsSpareAutoComplete(s1, before);
      RunAppend(s, issued, before);
    }
    CurrentAutoCompleteWrites(s2, body, after);
    RunAppend(s, issued + before, done);
    RunAppend(s, issued + before + done, after);
  }

  /** Completion order does not matter: B's response decides even when A's arrives after it. */
  lemma OutOfOrderAutoComplete(
    s: SagaState, inputA: string, inputB: string,
    bodyA: Option<AutoCompleteBody>, bodyB: Option<AutoCompleteBody>)
    ensures Run(s, [StartAutoComplete(inputA), StartAutoComplete(inputB),
                    AutoCompleteDone(s.latestAutoComplete + 2, bodyB),
                    AutoCompleteDone(s.latestAutoComplete + 1, bodyA)]).common.autoCompleteApiRes
            == AutoCompletePayload(bodyB)
  {
    var after := [AutoCompleteDone(s.latestAutoComplete + 1, bodyA)];
    LatestAutoCompleteWins(s, inputA, inputB, bodyB, [], after);
    assert [StartAutoComplete(inputA), StartAutoComplete(inputB)] + []
           + [AutoCompleteDone(s.latestAutoComplete + 2, bodyB)] + after
        == [StartAutoComplete(inputA), StartAutoComplete(inputB),
            AutoCompleteDone(s.latestAutoComplete + 2, bodyB),
            AutoCompleteDone(s.latestAutoComplete + 1, bodyA)];
  }

  /**
   * Requests A then B for place details: the details end up as B's
   * `result` when B's call returned a body, and as they were before both
   * requests when it did not (A's completion never writes).
   */
  lemma LatestPlaceDetailsWins(
    s: SagaState, idA: string, idB: string, body: Option<PlaceDetailsBody>,
    before: seq<Event>, after: seq<Event>)
    requires forall i :: 0 <= i < |before| ==> SparesPlaceDetails(before[i], s.latestPlaceDetails + 2)
    requires forall i :: 0 <= i < |after| ==> SparesPlaceDetails(after[i], s.latestPlaceDetails + 2)
    ensures Run(s, [StartPlaceDetails(idA), StartPlaceDetails(idB)] + before
                   + [PlaceDetailsDone(s.latestPlaceDetails + 2, body)] + after).common.placeDetailsApiRes
            == (if body.Some? then body.value.result else s.common.placeDetailsApiRes)
  {
    var b := s.latestPlaceDetails + 2;
    var issued := [StartPlaceDetails(idA), StartPlaceDetails(idB)];
    var done := [PlaceDetailsDone(b, body)];
    var s2 := Run(s, issued + before);
    assert s2.latestPlaceDetails == b && s2.pendingPlaceDetails
        && s2.common.placeDetailsApiRes == s.common.placeDetailsApiRes by {
      IssueTwoPlaceDetails(s, idA, idB);
      RunAppend(s, issued, before);
      StaleEventsSparePlaceDetails(Run(s, issued), before);
    }
    CurrentPlaceDetailsWrites(s2, body, after);
    RunAppend(s, issued + before, done);
    RunAppend(s, issued + before + done, after);
  }

  // ---------------------------------------------------------------------
  // The two triggers are independent.
  // ---------------------------------------------------------------------

  /** Event `e` ends the task of trigger `k` holding `token`: a new request of `k`, or that task's completion. */
  predicate Settles(e: Event, k: Trigger, token: nat)
  {
    match e
    case StartAutoComplete(_) => k == AutoComplete
    case StartPlaceDetails(_) => k == PlaceDetails
    case AutoCompleteDone(t, _) => k == AutoComplete && t == token
    case PlaceDetailsDone(t, _) => k == PlaceDetails && t == token
    case Dispatch(_) => false
  }

  /**
   * Only a new request of trigger `k` or the completion of its current
   * task changes the latest token of `k` or whether that task is pending;
   * the other trigger's traffic and direct writes never do.
   */
  lemma {:induction false} TriggersIndependent(s: SagaState, trace: seq<Event>, k: Trigger)
    requires forall i :: 0 <= i < |trace| ==> !Settles(trace[i], k, Latest(s, k))
    ensures Latest(Run(s, trace), k) == Latest(s, k)
    ensures Pending(Run(s, trace), k) == Pending(s, k)
    decreases |trace|
  {
    if trace != [] {
      assert !Settles(trace[0], k, Latest(s, k));
      TriggersIndependent(Step(s, trace[0]), trace[1..], k);
    }
  }

  /**
   * A pending autocomplete request stays current through anything but a
   * newer autocomplete request or its own completion (place-details
   * requests and direct writes included), so its completion writes.
   */
  lemma PendingAutoCompleteSurvives(
    s: SagaState, input: string, trace: seq<Event>, body: Option<AutoCompleteBody>)
    requires forall i :: 0 <= i < |trace| ==> !Settles(trace[i], AutoComplete, s.latestAutoComplete + 1)
    ensures Run(s, [StartAutoComplete(input)] + trace
                   + [AutoCompleteDone(s.latestAutoComplete + 1, body)]).common.autoCompleteApiRes
            == AutoCompletePayload(body)
  {
    var issued := [StartAutoComplete(input)];
    var done := AutoCompleteDone(s.latestAutoComplete + 1, body);
    RunSingle(s, StartAutoComplete(input));
    RunAppend(s, issued, trace);
    TriggersIndependent(Run(s, issued), trace, AutoComplete);
    var s2 := Run(s, issued + trace);
    assert s2.latestAutoComplete == s.latestAutoComplete + 1 && s2.pendingAutoComplete;
    RunAppend(s, issued + trace, [done]);
    RunSingle(s2, done);
  }

  /**
   * A pending place-details request stays current through autocomplete
   * traffic and direct writes, so its completion with a body writes its result.
   */
  lemma PendingPlaceDetailsSurvives(
    s: SagaState, placeId: string, trace: seq<Event>, body: PlaceDetailsBody)
    requires forall i :: 0 <= i < |trace| ==> !Settles(trace[i], PlaceDetails, s.latestPlaceDetails + 1)
    ensures Run(s, [StartPlaceDetails(placeId)] + trace
                   + [PlaceDetailsDone(s.latestPlaceDetails + 1, Some(body))]).common.placeDetailsApiRes
            == body.result
  {
    var issued := [StartPlaceDetails(placeId)];
    var done := PlaceDetailsDone(s.latestPlaceDetails + 1, Some(body));
    RunSingle(s, StartPlaceDetails(placeId));
    RunAppend(s, issued, trace);
    TriggersIndependent(Run(s, issued), trace, PlaceDetails);
    var s2 := Run(s, issued + trace);
    assert s2.latestPlaceDetails == s.latestPlaceDetails + 1 && s2.pendingPlaceDetails;
    RunAppend(s, issued + trace, [done]);
    RunSingle(s2, done);
    assert PlaceDetailsOutcome(Some(body)) == Write(body.result);
    assert Step(s2, done).common == Reduce(s2.common, SetPlaceDetails(body.result));
  }

  /**
   * Clearing the results by a direct write does not supersede a pending
   * autocomplete request: when that request completes afterwards, its
   * predictions replace the cleared list.
   */
  lemma ClearDoesNotCancelPending(s: SagaState, input: string, body: Option<AutoCompleteBody>)
    ensures Run(s, [StartAutoComplete(input), Dispatch(SetAutoComplete([])),
                    AutoCompleteDone(s.latestAutoComplete + 1, body)]).common.autoCompleteApiRes
            == AutoCompletePayload(body)
  {
    var clear := [Dispatch(SetAutoComplete([]))];
    PendingAutoCompleteSurvives(s, input, clear, body);
    assert [StartAutoComplete(input)] + clear + [AutoCompleteDone(s.latestAutoComplete + 1, body)]
        == [StartAutoComplete(input), Dispatch(SetAutoComplete([])), AutoCompleteDone(s.latestAutoComplete + 1, body)];
  }

  // ---------------------------------------------------------------------
  // The saga object.
  // ---------------------------------------------------------------------


  class Saga {
    const store: CommonStore
    const apiKey: string
    var latestAutoComplete: nat
    var latestPlaceDetails: nat
    /** Whether the task holding the latest token of each trigger is still running. */
    var pendingAutoComplete: bool
    var pendingPlaceDetails: bool
    /** Every HTTP request issued so far, oldest first. */
    var outbox: seq<Request>

    function State(): SagaState
      reads this, store
    {
      SagaState(apiKey, store.State(), latestAutoComplete, latestPlaceDetails,
                pendingAutoComplete, pendingPlaceDetails, outbox)
    }

    ghost predicate Valid()
      reads this
    {
      && TokensInOrder(outbox, latestAutoComplete, latestPlaceDetails)
      && PendingIssued(pendingAutoComplete, latestAutoComplete)
      && PendingIssued(pendingPlaceDetails, latestPlaceDetails)
    }

    constructor (store: CommonStore, apiKey: string)
      ensures this.store == store && this.apiKey == apiKey
      ensures latestAutoComplete == 0 && latestPlaceDetails == 0 && outbox == []
      ensures !pendingAutoComplete && !pendingPlaceDetails
      ensures Valid()
    {
      this.store := store;
      this.apiKey := apiKey;
      latestAutoComplete := 0;
      latestPlaceDetails := 0;
      pendingAutoComplete := false;
      pendingPlaceDetails := false;
      outbox := [];
    }

    /** getAutoCompleteAction(input) dispatched: supersede the running task and issue the request. */
    method StartGetAutoComplete(input: string)
      requires Valid()
      modifies this`latestAutoComplete, this`pendingAutoComplete, this`outbox
      ensures Valid()
      ensures latestAutoComplete == old(latestAutoComplete) + 1 && pendingAutoComplete
      ensures outbox == old(outbox) + [Request(AutoComplete, AutoCompleteParams(input, apiKey), latestAutoComplete)]
      ensures latestPlaceDetails == old(latestPlaceDetails) && pendingPlaceDetails == old(pendingPlaceDetails)
      ensures State() == Step(old(State()), StartAutoComplete(input))
    {
      StepKeepsValid(State(), StartAutoComplete(input));
      latestAutoComplete := latestAutoComplete + 1;
      pendingAutoComplete := true;
      outbox := outbox + [Request(AutoComplete, AutoCompleteParams(input, apiKey), latestAutoComplete)];
    }

    /** getPlaceDetailsAction(placeId) dispatched: supersede the running task and issue the request. */
    method StartGetPlaceDetails(placeId: string)
      requires Valid()
      modifies this`latestPlaceDetails, this`pendingPlaceDetails, this`outbox
      ensures Valid()
      ensures latestPlaceDetails == old(latestPlaceDetails) + 1 && pendingPlaceDetails
      ensures outbox == old(outbox) + [Request(PlaceDetails, PlaceDetailsParams(placeId, apiKey), latestPlaceDetails)]
      ensures latestAutoComplete == old(latestAutoComplete) && pendingAutoComplete == old(pendingAutoComplete)
      ensures State() == Step(old(State()), StartPlaceDetails(placeId))
    {
      StepKeepsValid(State(), StartPlaceDetails(placeId));
      latestPlaceDetails := latestPlaceDetails + 1;
      pendingPlaceDetails := true;
      outbox := outbox + [Request(PlaceDetails, PlaceDetailsParams(placeId, apiKey), latestPlaceDetails)];
    }

    /**
     * The autocomplete call of the task with `token` returned `body`. Only
     * the latest task, while it is still running, puts; then it ends.
     */
    method FinishGetAutoComplete(token: nat, body: Option<AutoCompleteBody>)
      requires Valid()
      modifies store`autoCompleteApiRes, this`pendingAutoComplete
      ensures Valid()
      ensures old(pendingAutoComplete) && token == latestAutoComplete
              && body.Some? && body.value.predictions.Some? ==>
        store.autoCompleteApiRes == body.value.predictions.value
      ensures old(pendingAutoComplete) && token == latestAutoComplete
              && (body.None? || body.value.predictions.None?) ==>
        store.autoCompleteApiRes == []
      ensures !(old(pendingAutoComplete) && token == latestAutoComplete) ==>
        store.autoCompleteApiRes == old(store.autoCompleteApiRes)
      ensures pendingAutoComplete == (old(pendingAutoComplete) && token != latestAutoComplete)
      ensures store.placeDetailsApiRes == old(store.placeDetailsApiRes)
      ensures store.recentSearch == old(store.recentSearch)
      ensures State() == Step(old(State()), AutoCompleteDone(token, body))
    {
      if pendingAutoComplete && token == latestAutoComplete {
        store.SetAutoCompleteApiRes(AutoCompletePayload(body));
        pendingAutoComplete := false;
      }
    }

    /**
     * The place-details call of the task with `token` returned `body`. Only
     * the latest task, while it is still running, puts, and only with a
     * body; either way that task then ends.
     */
    method FinishGetPlaceDetails(token: nat, body: Option<PlaceDetailsBody>)
      requires Valid()
      modifies store`placeDetailsApiRes, this`pendingPlaceDetails
      ensures Valid()
      ensures old(pendingPlaceDetails) && token == latestPlaceDetails && body.Some? ==>
        store.placeDetailsApiRes == body.value.result
      ensures !(old(pendingPlaceDetails) && token == latestPlaceDetails && body.Some?) ==>
        store.placeDetailsApiRes == old(store.placeDetailsApiRes)
      ensures pendingPlaceDetails == (old(pendingPlaceDetails) && token != latestPlaceDetails)
      ensures store.autoCompleteApiRes == old(store.autoCompleteApiRes)
      ensures store.recentSearch == old(store.recentSearch)
      ensures State() == Step(old(State()), PlaceDetailsDone(token, body))
    {
      if pendingPlaceDetails && token == latestPlaceDetails {
        pendingPlaceDetails := false;
        match PlaceDetailsOutcome(body)
        case Write(p) => store.SetPlaceDetailsApiRes(p);
        case NoWrite =>
      }
    }
  }
}

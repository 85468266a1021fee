/** `src/services/tripService.ts`, without the network: the request bodies it
    builds, the cache it consults, the conversion of the generate response into
    attractions, and the structural check of the completion response. What
    `fetch` returns is the parameter `fetched`. */
module TripService {
  import opened Wrappers
  import opened TripTypes
  import opened JsonValues
  import opened Text
  import Cache

  // ----- generate -----

  /** The body POSTed to `/generate`. */
  datatype GeneratePayload = GeneratePayload(
    destination: string,
    travelDays: int,
    withKids: bool,
    kidsAge: Option<seq<int>>,
    withElderly: bool)

  /** The request body for the given trip: `kids_age` is sent only for a trip
      with kids and at least one age, and is null otherwise. */
  function PayloadFor(details: TripDetails): (p: GeneratePayload)
    ensures p.kidsAge.Some? <==> details.withKids && details.kidsAge != []
    ensures p.kidsAge.Some? ==> p.kidsAge.value == details.kidsAge
    ensures p.destination == details.destination && p.travelDays == details.travelDays
    ensures p.withKids == details.withKids && p.withElderly == details.withElders
  {
    GeneratePayload(
      details.destination,
      details.travelDays,
      details.withKids,
      if details.withKids && |details.kidsAge| > 0 then Some(details.kidsAge) else None,
      details.withElders)
  }

  /** A request served from the cache is the request that would have been sent:
      two trips with the same cache key produce the same payload. */
  lemma SameKeySamePayload(d1: TripDetails, d2: TripDetails)
    requires Cache.NonNegativeNumbers(d1) && Cache.NonNegativeNumbers(d2)
    requires Cache.CacheKey(d1) == Cache.CacheKey(d2)
    ensures PayloadFor(d1) == PayloadFor(d2)
  {
    Cache.CacheKeyInjective(d1, d2);
  }

  /** One value of `Suggested_Things_to_Do`. */
  datatype AttractionInfo = AttractionInfo(description: string, badge: Option<Badge>)

  /** The generate response: `itinerary.Suggested_Things_to_Do`, each level
      possibly missing; the entries are in `Object.entries` order. */
  datatype GenerateResponse = GenerateResponse(itinerary: Option<ItineraryField>)
  datatype ItineraryField = ItineraryField(suggestedThingsToDo: Option<seq<(string, AttractionInfo)>>)

  const InvalidResponse := "Invalid API response"

  /** `Object.entries(...).map(([name, info]) => ({name, description, type: 'suggested', badge}))`. */
  function FormatAttractions(entries: seq<(string, AttractionInfo)>): (r: seq<Attraction>)
    ensures |r| == |entries|
    ensures forall i :: 0 <= i < |r| ==>
              && r[i].name == entries[i].0
              && r[i].description == entries[i].1.description
              && r[i].kind == Suggested
              && r[i].badge == entries[i].1.badge
              && r[i].placeId == None
  {
    if entries == [] then []
    else [Attraction(entries[0].0, entries[0].1.description, Suggested, entries[0].1.badge, None)]
         + FormatAttractions(entries[1..])
  }

  /** The response check and conversion: rejected exactly when
      `itinerary.Suggested_Things_to_Do` is missing; an empty object is accepted. */
  function AttractionsFrom(data: GenerateResponse): (r: Result<seq<Attraction>, string>)
    ensures r.Failure? <==> data.itinerary.None? || data.itinerary.value.suggestedThingsToDo.None?
    ensures r.Failure? ==> r.error == InvalidResponse
    ensures r.Success? ==> r.value == FormatAttractions(data.itinerary.value.suggestedThingsToDo.value)
  {
    match data.itinerary
    case Some(ItineraryField(Some(entries))) => Success(FormatAttractions(entries))
    case _ => Failure(InvalidResponse)
  }

  /** What the awaited `fetch` and `response.json()` gave: a body, a non-2xx
      status with its text, or a rejection. */
  datatype Fetched<T> = Received(data: T) | HttpError(status: int, body: string) | Failed(reason: string)

  function ServerError(status: int, body: string): string {
    "Server error: " + IntToString(status) + " - " + body
  }

  /** What `generateTrip` resolves to, or the message it throws, once a request was sent. */
  function GenerateOutcome(fetched: Fetched<GenerateResponse>): (r: Result<seq<Attraction>, string>)
    ensures fetched.Received? ==> r == AttractionsFrom(fetched.data)
    ensures fetched.HttpError? ==> r == Failure(ServerError(fetched.status, fetched.body))
    ensures fetched.Failed? ==> r == Failure(fetched.reason)
  {
    match fetched
    case Received(data) => AttractionsFrom(data)
    case HttpError(status, body) => Failure(ServerError(status, body))
    case Failed(reason) => Failure(reason)
  }

  /** What the cache holds for a request: `{attractions}`. */
  datatype CachedTrip = CachedTrip(attractions: seq<Attraction>)

  /** `generateTrip`: a cache hit (read at `requestTime`) is returned without a
      request; otherwise the payload is sent and a successful result is stored
      under the same key at `responseTime`. `sent` is the request that went out. */
  method GenerateTrip(details: TripDetails, cache: Cache.TimedCache<CachedTrip>, requestTime: int,
                      responseTime: int, fetched: Fetched<GenerateResponse>)
    returns (r: Result<seq<Attraction>, string>, sent: Option<GeneratePayload>)
    modifies cache
    ensures var key := Cache.CacheKey(details);
            var hit := Cache.Lookup(old(cache.entries), key, requestTime);
            && (hit.Some? ==> r == Success(hit.value.attractions) && sent == None
                              && cache.entries == old(cache.entries))
            && (hit.None? ==> && sent == Some(PayloadFor(details))
                              && r == GenerateOutcome(fetched)
                              && var pruned := Cache.AfterLookup(old(cache.entries), key, requestTime);
                                 cache.entries == if r.Success? then pruned[key := Cache.Entry(responseTime, CachedTrip(r.value))]
                                                  else pruned)
  {
    var key := Cache.CacheKey(details);
    var cached := cache.Get(key, requestTime);
    if cached.Some? {
      return Success(cached.value.attractions), None;
    }
    sent := Some(PayloadFor(details));
    match fetched {
      case HttpError(status, body) =>
        r := Failure(ServerError(status, body));
      case Failed(reason) =>
        r := Failure(reason);
      case Received(data) =>
        r := AttractionsFrom(data);
        if r.Success? {
          cache.Set(key, CachedTrip(r.value), responseTime);
        }
    }
  }

  // ----- complete-itinerary -----

  /** The body POSTed to `/complete-itinerary`. */
  datatype CompletePayload = CompletePayload(
    destination: string,
    travelDays: int,
    withKids: bool,
    withElderly: bool,
    selectedLandmarks: map<string, seq<string>>)

  /** `Day ${day}`. */
  function DayKey(day: int): string {
    "Day " + IntToString(day)
  }

  lemma DayKeyDistinct(a: int, b: int)
    requires a != b
    ensures DayKey(a) != DayKey(b)
  {
    if DayKey(a) == DayKey(b) {
      assert IntToString(a) == DayKey(a)[4..] == DayKey(b)[4..] == IntToString(b);
      IntToStringInjective(a, b);
    }
  }

  function Names(attractions: seq<Attraction>): (names: seq<string>)
    ensures |names| == |attractions|
    ensures forall i :: 0 <= i < |names| ==> names[i] == attractions[i].name
  {
    if attractions == [] then [] else [attractions[0].name] + Names(attractions[1..])
  }

  /** The accumulator of the `reduce` after the given day plans: each plan in
      turn writes its names under its day key, a later plan overwriting an
      earlier one with the same day. */
  function LandmarksOf(days: seq<DayPlan>): map<string, seq<string>>
  {
    if days == [] then map[]
    else LandmarksOf(days[..|days| - 1])[DayKey(days[|days| - 1].day) := Names(days[|days| - 1].attractions)]
  }

  /** Every day plan's key is in the map. */
  lemma {:induction false} LandmarksOfHasEveryDay(days: seq<DayPlan>, i: nat)
    requires i < |days|
    ensures DayKey(days[i].day) in LandmarksOf(days)
  {
    var n := |days| - 1;
    if i < n {
      LandmarksOfHasEveryDay(days[..n], i);
      assert days[..n][i] == days[i];
    }
  }

  /** Every key in the map is the key of some day plan. */
  lemma {:induction false} LandmarksOfOnlyDays(days: seq<DayPlan>, key: string)
    requires key in LandmarksOf(days)
    ensures exists i :: 0 <= i < |days| && DayKey(days[i].day) == key
  {
    var n := |days| - 1;
    if key != DayKey(days[n].day) {
      LandmarksOfOnlyDays(days[..n], key);
      var i :| 0 <= i < n && DayKey(days[..n][i].day) == key;
      assert days[..n][i] == days[i];
    }
  }

  predicate DistinctDays(days: seq<DayPlan>) {
    forall i, j :: 0 <= i < j < |days| ==> days[i].day != days[j].day
  }

  /** With distinct day numbers, every day plan's names appear, in itinerary
      order, under its own key. */
  lemma {:induction false} LandmarksOfDay(days: seq<DayPlan>, i: nat)
    requires DistinctDays(days)
    requires i < |days|
    ensures DayKey(days[i].day) in LandmarksOf(days)
    ensures LandmarksOf(days)[DayKey(days[i].day)] == Names(days[i].attractions)
  {
    var n := |days| - 1;
    if i < n {
      assert DistinctDays(days[..n]);
      LandmarksOfDay(days[..n], i);
      DayKeyDistinct(days[i].day, days[n].day);
    }
  }

  /** The `selected_landmarks` reduce. */
  method SelectedLandmarks(days: seq<DayPlan>) returns (acc: map<string, seq<string>>)
    ensures acc == LandmarksOf(days)
  {
    acc := map[];
    for i := 0 to |days|
      invariant acc == LandmarksOf(days[..i])
    {
      assert days[..i + 1][..i] == days[..i];
      acc := acc[DayKey(days[i].day) := Names(days[i].attractions)];
    }
    assert days[..|days|] == days;
  }

  /** Why the completion response is rejected. `NullData` and `NullItem` are the
      TypeErrors of reading keys or properties of `null`. */
  datatype CompletionError =
    | NullData
    | NoDays
    | DayNotArray(day: string)
    | InvalidItem(day: string)
    | NullItem(day: string)

  function Message(e: CompletionError): string {
    match e
    case NullData => "Cannot convert undefined or null to object"
    case NoDays => "Invalid API response: No days found in the itinerary"
    case DayNotArray(day) => "Invalid API response: " + day + " is not an array"
    case InvalidItem(day) => "Invalid API response: Invalid item structure in " + day
    case NullItem(day) => "Cannot read properties of null (reading 'type')"
  }

  /** `Object.keys(data).filter(key => key.startsWith('Day '))` on an object. */
  function DayKeys(props: seq<(string, Json)>): (ks: seq<string>)
    ensures forall k :: k in ks <==> StartsWith(k, "Day ") && exists i :: 0 <= i < |props| && props[i].0 == k
  {
    if props == [] then []
    else
      var rest := DayKeys(props[1..]);
      assert forall i :: 1 <= i < |props| ==> props[1..][i - 1] == props[i];
      if StartsWith(props[0].0, "Day ") then [props[0].0] + rest else rest
  }

  predicate HasTruthy(props: seq<(string, Json)>, key: string) {
    var v := Get(props, key);
    v.Some? && Truthy(v.value)
  }

  /** An item the check lets through: an object with truthy `type`, `name` and `description`. */
  predicate ValidItem(item: Json) {
    item.JObj? && HasTruthy(item.props, "type") && HasTruthy(item.props, "name") && HasTruthy(item.props, "description")
  }

  /** A day the check lets through: its value is an array of valid items. */
  predicate ValidDay(props: seq<(string, Json)>, day: string) {
    var v := Get(props, day);
    v.Some? && v.value.JArr? && forall k :: 0 <= k < |v.value.elems| ==> ValidItem(v.value.elems[k])
  }

  /** The shape the check establishes: an object with at least one `Day ` key,
      every such key holding an array of valid items. */
  predicate IsCompletedItinerary(data: Json) {
    && data.JObj?
    && DayKeys(data.props) != []
    && forall k :: 0 <= k < |DayKeys(data.props)| ==> ValidDay(data.props, DayKeys(data.props)[k])
  }

  function ItemProblem(day: string, item: Json): Option<CompletionError> {
    if item.JNull? then Some(NullItem(day))
    else if ValidItem(item) then None
    else Some(InvalidItem(day))
  }

  /** The error of the first bad item, as the inner loop meets it. */
  function ItemsProblem(day: string, items: seq<Json>): Option<CompletionError> {
    if items == [] then None
    else if ItemProblem(day, items[0]).Some? then ItemProblem(day, items[0])
    else ItemsProblem(day, items[1..])
  }

  function DayProblem(props: seq<(string, Json)>, day: string): Option<CompletionError> {
    match Get(props, day)
    case Some(JArr(items)) => ItemsProblem(day, items)
    case _ => Some(DayNotArray(day))
  }

  /** The error of the first bad day, as the outer loop meets it. */
  function DaysProblem(props: seq<(string, Json)>, days: seq<string>): Option<CompletionError> {
    if days == [] then None
    else if DayProblem(props, days[0]).Some? then DayProblem(props, days[0])
    else DaysProblem(props, days[1..])
  }

  /** The outcome of the check, in the order `completeItinerary`'s response check throws. */
  function Validation(data: Json): Result<Json, CompletionError> {
    match data
    case JNull => Failure(NullData)
    case JObj(props) =>
      var days := DayKeys(props);
      if days == [] then Failure(NoDays)
      else (match DaysProblem(props, days)
            case Some(e) => Failure(e)
            case None => Success(data))
    case _ => Failure(NoDays)
  }

  lemma {:induction false} ItemsProblemAppend(day: string, a: seq<Json>, b: seq<Json>)
    ensures ItemsProblem(day, a + b) == if ItemsProblem(day, a).Some? then ItemsProblem(day, a) else ItemsProblem(day, b)
  {
    if a != [] {
      assert (a + b)[1..] == a[1..] + b;
      ItemsProblemAppend(day, a[1..], b);
    } else {
      assert a + b == b;
    }
  }

  lemma {:induction false} DaysProblemAppend(props: seq<(string, Json)>, a: seq<string>, b: seq<string>)
    ensures DaysProblem(props, a + b) == if DaysProblem(props, a).Some? then DaysProblem(props, a) else DaysProblem(props, b)
  {
    if a != [] {
      assert (a + b)[1..] == a[1..] + b;
      DaysProblemAppend(props, a[1..], b);
    } else {
      assert a + b == b;
    }
  }

  lemma {:induction false} ItemsProblemNone(day: string, items: seq<Json>)
    ensures ItemsProblem(day, items) == None <==> forall k :: 0 <= k < |items| ==> ValidItem(items[k])
  {
    if items != [] {
      ItemsProblemNone(day, items[1..]);
      assert forall k :: 1 <= k < |items| ==> items[1..][k - 1] == items[k];
    }
  }

  lemma {:induction false} DaysProblemNone(props: seq<(string, Json)>, days: seq<string>)
    ensures DaysProblem(props, days) == None <==> forall k :: 0 <= k < |days| ==> ValidDay(props, days[k])
  {
    if days != [] {
      DaysProblemNone(props, days[1..]);
      assert forall k :: 1 <= k < |days| ==> days[1..][k - 1] == days[k];
      match Get(props, days[0]) {
        case Some(JArr(items)) => ItemsProblemNone(days[0], items);
        case _ =>
      }
    }
  }

  /** The check accepts exactly the completed-itinerary shape, and returns the
      data unchanged when it does. */
  lemma ValidationAccepts(data: Json)
    ensures Validation(data).Success? <==> IsCompletedItinerary(data)
    ensures Validation(data).Success? ==> Validation(data).value == data
    ensures Validation(data) == Failure(NoDays) <==> !data.JNull? && (!data.JObj? || DayKeys(data.props) == [])
  {
    if data.JObj? {
      DaysProblemNone(data.props, DayKeys(data.props));
      match DaysProblem(data.props, DayKeys(data.props)) {
        case None =>
        case Some(e) => DaysProblemNeverNoDays(data.props, DayKeys(data.props));
      }
    }
  }

  lemma {:induction false} DaysProblemNeverNoDays(props: seq<(string, Json)>, days: seq<string>)
    ensures DaysProblem(props, days) != Some(NoDays)
  {
    if days != [] {
      DaysProblemNeverNoDays(props, days[1..]);
      match Get(props, days[0]) {
        case Some(JArr(items)) => ItemsProblemNeverNoDays(days[0], items);
        case _ =>
      }
    }
  }

  lemma {:induction false} ItemsProblemNeverNoDays(day: string, items: seq<Json>)
    ensures ItemsProblem(day, items) != Some(NoDays)
  {
    if items != [] {
      ItemsProblemNeverNoDays(day, items[1..]);
    }
  }

  /** Where the first bad item sits, that item's error is the list's. */
  lemma ItemsProblemAt(day: string, items: seq<Json>, j: nat)
    requires j < |items|
    requires ItemsProblem(day, items[..j]) == None && ItemProblem(day, items[j]).Some?
    ensures ItemsProblem(day, items) == ItemProblem(day, items[j])
  {
    assert items == items[..j] + items[j..];
    ItemsProblemAppend(day, items[..j], items[j..]);
    assert items[j..][0] == items[j];
  }

  /** A good item extends a good prefix. */
  lemma ItemsProblemExtend(day: string, items: seq<Json>, j: nat)
    requires j < |items|
    requires ItemsProblem(day, items[..j]) == None && ItemProblem(day, items[j]) == None
    ensures ItemsProblem(day, items[..j + 1]) == None
  {
    assert items[..j + 1] == items[..j] + [items[j]];
    ItemsProblemAppend(day, items[..j], [items[j]]);
    assert [items[j]][1..] == [];
  }

  lemma DaysProblemAt(props: seq<(string, Json)>, days: seq<string>, i: nat)
    requires i < |days|
    requires DaysProblem(props, days[..i]) == None && DayProblem(props, days[i]).Some?
    ensures DaysProblem(props, days) == DayProblem(props, days[i])
  {
    assert days == days[..i] + days[i..];
    DaysProblemAppend(props, days[..i], days[i..]);
    assert days[i..][0] == days[i];
  }

  lemma DaysProblemExtend(props: seq<(string, Json)>, days: seq<string>, i: nat)
    requires i < |days|
    requires DaysProblem(props, days[..i]) == None && DayProblem(props, days[i]) == None
    ensures DaysProblem(props, days[..i + 1]) == None
  {
    assert days[..i + 1] == days[..i] + [days[i]];
    DaysProblemAppend(props, days[..i], [days[i]]);
    assert [days[i]][1..] == [];
  }

  /** The inner loop of the check over one day's items, stopping at the first bad one. */
  method CheckItems(day: string, items: seq<Json>) returns (p: Option<CompletionError>)
    ensures p == ItemsProblem(day, items)
  {
    for j := 0 to |items|
      invariant ItemsProblem(day, items[..j]) == None
    {
      var item := items[j];
      if item.JNull? {
        ItemsProblemAt(day, items, j);
        return Some(NullItem(day));
      }
      if !(item.JObj? && HasTruthy(item.props, "type") && HasTruthy(item.props, "name")
           && HasTruthy(item.props, "description")) {
        ItemsProblemAt(day, items, j);
        return Some(InvalidItem(day));
      }
      ItemsProblemExtend(day, items, j);
    }
    assert items[..|items|] == items;
    return None;
  }

  /** The validation loops of `completeItinerary`, with their early throws. */
  method ValidateCompletion(data: Json) returns (r: Result<Json, CompletionError>)
    ensures r == Validation(data)
  {
    if data.JNull? {
      return Failure(NullData);
    }
    var days := if data.JObj? then DayKeys(data.props) else [];
    if |days| == 0 {
      return Failure(NoDays);
    }
    var props := data.props;
    for i := 0 to |days|
      invariant DaysProblem(props, days[..i]) == None
    {
      var day := days[i];
      var value := Get(props, day);
      if !(value.Some? && value.value.JArr?) {
        DaysProblemAt(props, days, i);
        return Failure(DayNotArray(day));
      }
      var problem := CheckItems(day, value.value.elems);
      if problem.Some? {
        DaysProblemAt(props, days, i);
        return Failure(problem.value);
      }
      DaysProblemExtend(props, days, i);
    }
    assert days[..|days|] == days;
    return Success(data);
  }

  /** What `completeItinerary` resolves to, or the message it throws. */
  function CompleteOutcome(fetched: Fetched<Json>): (r: Result<Json, string>)
    ensures fetched.Received? ==> (r.Success? <==> IsCompletedItinerary(fetched.data))
    ensures r.Success? ==> fetched.Received? && r.value == fetched.data
  {
    ValidationAccepts(if fetched.Received? then fetched.data else JNull);
    match fetched
    case Received(data) =>
      (match Validation(data)
       case Success(v) => Success(v)
       case Failure(e) => Failure(Message(e)))
    case HttpError(status, body) => Failure(ServerError(status, body))
    case Failed(reason) => Failure(reason)
  }

  /** `completeItinerary`: builds the payload from the plan, then checks what came back. */
  method CompleteItinerary(plan: TripPlan, fetched: Fetched<Json>)
    returns (r: Result<Json, string>, payload: CompletePayload)
    ensures payload.selectedLandmarks == LandmarksOf(plan.itinerary)
    ensures payload == CompletePayload(plan.details.destination, plan.details.travelDays,
                                       plan.details.withKids, plan.details.withElders, payload.selectedLandmarks)
    ensures r == CompleteOutcome(fetched)
  {
    var selected := SelectedLandmarks(plan.itinerary);
    payload := CompletePayload(plan.details.destination, plan.details.travelDays,
                               plan.details.withKids, plan.details.withElders, selected);
    match fetched {
      case HttpError(status, body) =>
        r := Failure(ServerError(status, body));
      case Failed(reason) =>
        r := Failure(reason);
      case Received(data) =>
        var checked := ValidateCompletion(data);
        r := match checked
             case Success(v) => Success(v)
             case Failure(e) => Failure(Message(e));
    }
  }
}

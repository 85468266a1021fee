/** `src/utils/storage.ts`: save and load helpers over four fixed
    `localStorage` keys. Each getter is a function of the stored map (the
    `...In` functions) and each saver a function from map to map (the
    `With...` functions); the methods apply them to a `LocalStorage`. */
module Storage {
  import opened Wrappers
  import opened TripTypes
  import opened WebStorage

  const StepKey := "trip_planner_step"
  const TripPlanKey := "trip_planner_trip_plan"
  const AttractionsKey := "trip_planner_attractions"
  const CompletedItineraryKey := "trip_planner_completed_itinerary"

  /** `Object.values(STORAGE_KEYS)`: four distinct keys. */
  function StorageKeys(): (keys: seq<string>)
    ensures |keys| == 4
    ensures forall i, j :: 0 <= i < j < |keys| ==> keys[i] != keys[j]
    ensures StepKey in keys && TripPlanKey in keys && AttractionsKey in keys && CompletedItineraryKey in keys
  {
    [StepKey, TripPlanKey, AttractionsKey, CompletedItineraryKey]
  }

  function StepName(s: Step): string {
    match s
    case New => "new"
    case Planning => "planning"
    case Final => "final"
    case Completed => "completed"
  }

  /** The membership test of `getStep`: only the four step names are accepted. */
  function ParseStep(text: string): (r: Option<Step>)
    ensures r.Some? ==> StepName(r.value) == text
  {
    if text == "new" then Some(New)
    else if text == "planning" then Some(Planning)
    else if text == "final" then Some(Final)
    else if text == "completed" then Some(Completed)
    else None
  }

  /** `getStep` accepts a text exactly when it is the name of a step. */
  lemma ParseStepAcceptsOnlyNames(text: string)
    ensures ParseStep(text).Some? <==> exists s :: StepName(s) == text
  {
    if ParseStep(text).None? {
      forall s: Step
        ensures StepName(s) != text
      {
        match s {
          case New =>
          case Planning =>
          case Final =>
          case Completed =>
        }
      }
    }
  }

  /** The stored text under `key` when it is truthy, i.e. present and non-empty. */
  function Saved(items: map<string, string>, key: string): (r: Option<string>)
    ensures r.Some? <==> key in items && items[key] != ""
    ensures r.Some? ==> r.value == items[key]
  {
    if key in items && items[key] != "" then Some(items[key]) else None
  }

  /** `getStep` on the given contents. */
  function StepIn(items: map<string, string>): (r: Option<Step>)
    ensures r.Some? ==> StepKey in items && items[StepKey] == StepName(r.value)
  {
    match Saved(items, StepKey)
    case Some(text) => ParseStep(text)
    case None => None
  }

  /** `getTripPlan`: null for a missing, empty or unparsable entry. */
  function TripPlanIn(c: Codec<TripPlan>, items: map<string, string>): (r: Option<TripPlan>)
    ensures r.None? <==> Saved(items, TripPlanKey).None? || c.decode(items[TripPlanKey]).None?
    ensures r.Some? ==> r == c.decode(items[TripPlanKey])
  {
    match Saved(items, TripPlanKey)
    case Some(text) => c.decode(text)
    case None => None
  }

  /** `getAttractions`: the empty list for a missing, empty or unparsable entry. */
  function AttractionsIn(c: Codec<seq<Attraction>>, items: map<string, string>): (r: seq<Attraction>)
    ensures Saved(items, AttractionsKey).None? ==> r == []
    ensures Saved(items, AttractionsKey).Some? && c.decode(items[AttractionsKey]).None? ==> r == []
    ensures Saved(items, AttractionsKey).Some? && c.decode(items[AttractionsKey]).Some? ==> r == c.decode(items[AttractionsKey]).value
  {
    match Saved(items, AttractionsKey)
    case Some(text) => (match c.decode(text) case Some(list) => list case None => [])
    case None => []
  }

  /** `getCompletedItinerary`; the stored shape is left as a type parameter. */
  function CompletedItineraryIn<C>(c: Codec<C>, items: map<string, string>): (r: Option<C>)
    ensures r.None? <==> Saved(items, CompletedItineraryKey).None? || c.decode(items[CompletedItineraryKey]).None?
    ensures r.Some? ==> r == c.decode(items[CompletedItineraryKey])
  {
    match Saved(items, CompletedItineraryKey)
    case Some(text) => c.decode(text)
    case None => None
  }

  /** `saveStep`: writes the step name under its own key only. */
  function WithStep(items: map<string, string>, s: Step): (r: map<string, string>)
    ensures StepKey in r && r[StepKey] == StepName(s)
    ensures r - {StepKey} == items - {StepKey}
  {
    items[StepKey := StepName(s)]
  }

  /** `saveTripPlan`: null removes the key; a plan is stored as its JSON text. */
  function WithTripPlan(c: Codec<TripPlan>, items: map<string, string>, plan: Option<TripPlan>): (r: map<string, string>)
    ensures plan.None? ==> TripPlanKey !in r
    ensures plan.Some? ==> TripPlanKey in r && r[TripPlanKey] == c.encode(plan.value)
    ensures r - {TripPlanKey} == items - {TripPlanKey}
  {
    match plan
    case Some(p) => items[TripPlanKey := c.encode(p)]
    case None => items - {TripPlanKey}
  }

  /** `saveAttractions`: the empty list removes the key. */
  function WithAttractions(c: Codec<seq<Attraction>>, items: map<string, string>, list: seq<Attraction>): (r: map<string, string>)
    ensures list == [] ==> AttractionsKey !in r
    ensures list != [] ==> AttractionsKey in r && r[AttractionsKey] == c.encode(list)
    ensures r - {AttractionsKey} == items - {AttractionsKey}
  {
    if |list| > 0 then items[AttractionsKey := c.encode(list)] else items - {AttractionsKey}
  }

  /** `saveCompletedItinerary`: null removes the key. */
  function WithCompletedItinerary<C>(c: Codec<C>, items: map<string, string>, itinerary: Option<C>): (r: map<string, string>)
    ensures itinerary.None? ==> CompletedItineraryKey !in r
    ensures itinerary.Some? ==> CompletedItineraryKey in r && r[CompletedItineraryKey] == c.encode(itinerary.value)
    ensures r - {CompletedItineraryKey} == items - {CompletedItineraryKey}
  {
    match itinerary
    case Some(v) => items[CompletedItineraryKey := c.encode(v)]
    case None => items - {CompletedItineraryKey}
  }

  /** `clearAllStorage`: the four keys go, every other entry stays. */
  function WithoutStorageKeys(items: map<string, string>): (r: map<string, string>)
    ensures forall k :: k in StorageKeys() ==> k !in r
    ensures forall k :: k !in StorageKeys() ==> (k in r <==> k in items) && (k in r ==> r[k] == items[k])
  {
    items - {StepKey, TripPlanKey, AttractionsKey, CompletedItineraryKey}
  }

  /** A saved step reads back. */
  lemma StepRoundTrip(items: map<string, string>, s: Step)
    ensures StepIn(WithStep(items, s)) == Some(s)
  {
    assert StepName(s) != "";
  }

  /** A saved plan reads back, and a saved null reads back as null. */
  lemma TripPlanRoundTrip(c: Codec<TripPlan>, items: map<string, string>, plan: Option<TripPlan>)
    requires Faithful(c)
    ensures TripPlanIn(c, WithTripPlan(c, items, plan)) == plan
  {
    if plan.Some? {
      assert c.decode(c.encode(plan.value)) == Some(plan.value) && c.encode(plan.value) != "";
    }
  }

  /** A saved list reads back; the empty list through the removed key. */
  lemma AttractionsRoundTrip(c: Codec<seq<Attraction>>, items: map<string, string>, list: seq<Attraction>)
    requires Faithful(c)
    ensures AttractionsIn(c, WithAttractions(c, items, list)) == list
  {
    if list != [] {
      assert c.decode(c.encode(list)) == Some(list) && c.encode(list) != "";
    }
  }

  lemma CompletedItineraryRoundTrip<C(!new)>(c: Codec<C>, items: map<string, string>, itinerary: Option<C>)
    requires Faithful(c)
    ensures CompletedItineraryIn(c, WithCompletedItinerary(c, items, itinerary)) == itinerary
  {
    if itinerary.Some? {
      assert c.decode(c.encode(itinerary.value)) == Some(itinerary.value) && c.encode(itinerary.value) != "";
    }
  }

  /** The four entries are independent: saving one leaves what the others read. */
  lemma SavesAreIndependent<C>(cp: Codec<TripPlan>, ca: Codec<seq<Attraction>>, cc: Codec<C>,
                               items: map<string, string>, s: Step, plan: Option<TripPlan>)
    ensures var after := WithStep(items, s);
            TripPlanIn(cp, after) == TripPlanIn(cp, items) && AttractionsIn(ca, after) == AttractionsIn(ca, items)
            && CompletedItineraryIn(cc, after) == CompletedItineraryIn(cc, items)
    ensures var after := WithTripPlan(cp, items, plan);
            StepIn(after) == StepIn(items) && AttractionsIn(ca, after) == AttractionsIn(ca, items)
            && CompletedItineraryIn(cc, after) == CompletedItineraryIn(cc, items)
  {
    assert StepKey != TripPlanKey && StepKey != AttractionsKey && StepKey != CompletedItineraryKey;
    assert TripPlanKey != AttractionsKey && TripPlanKey != CompletedItineraryKey;
  }

  /** After clearing, every getter gives its default. */
  lemma ClearedReadsDefaults<C>(cp: Codec<TripPlan>, ca: Codec<seq<Attraction>>, cc: Codec<C>, items: map<string, string>)
    ensures var cleared := WithoutStorageKeys(items);
            StepIn(cleared) == None && TripPlanIn(cp, cleared) == None
            && AttractionsIn(ca, cleared) == [] && CompletedItineraryIn(cc, cleared) == None
  {
  }

  // ----- the same operations on a `LocalStorage` object -----

  /** `getStep`: the step named by the stored text, if any. */
  function GetStep(ls: LocalStorage): (r: Option<Step>)
    reads ls
    ensures r == StepIn(ls.items)
    ensures r.Some? ==> ls.GetItem(StepKey) == Some(StepName(r.value))
  {
    StepIn(ls.items)
  }

  /** `getTripPlan`: the parsed stored plan, or none. */
  function GetTripPlan(c: Codec<TripPlan>, ls: LocalStorage): (r: Option<TripPlan>)
    reads ls
    ensures r == TripPlanIn(c, ls.items)
    ensures ls.GetItem(TripPlanKey).None? ==> r.None?
    ensures r.Some? ==> ls.GetItem(TripPlanKey).Some? && r == c.decode(ls.GetItem(TripPlanKey).value)
  {
    TripPlanIn(c, ls.items)
  }

  /** `getAttractions`: the parsed stored list, or the empty list. */
  function GetAttractions(c: Codec<seq<Attraction>>, ls: LocalStorage): (r: seq<Attraction>)
    reads ls
    ensures r == AttractionsIn(c, ls.items)
    ensures ls.GetItem(AttractionsKey).None? ==> r == []
    ensures r != [] ==> ls.GetItem(AttractionsKey).Some? && c.decode(ls.GetItem(AttractionsKey).value) == Some(r)
  {
    AttractionsIn(c, ls.items)
  }

  /** `getCompletedItinerary`: the parsed stored itinerary, or none. */
  function GetCompletedItinerary<C>(c: Codec<C>, ls: LocalStorage): (r: Option<C>)
    reads ls
    ensures r == CompletedItineraryIn(c, ls.items)
    ensures ls.GetItem(CompletedItineraryKey).None? ==> r.None?
    ensures r.Some? ==> ls.GetItem(CompletedItineraryKey).Some? && r == c.decode(ls.GetItem(CompletedItineraryKey).value)
  {
    CompletedItineraryIn(c, ls.items)
  }

  method SaveStep(ls: LocalStorage, s: Step)
    modifies ls
    ensures ls.items == WithStep(old(ls.items), s)
  {
    ls.SetItem(StepKey, StepName(s));
  }

  method SaveTripPlan(c: Codec<TripPlan>, ls: LocalStorage, plan: Option<TripPlan>)
    modifies ls
    ensures ls.items == WithTripPlan(c, old(ls.items), plan)
  {
    if plan.Some? {
      ls.SetItem(TripPlanKey, c.encode(plan.value));
    } else {
      ls.RemoveItem(TripPlanKey);
    }
  }

  method SaveAttractions(c: Codec<seq<Attraction>>, ls: LocalStorage, list: seq<Attraction>)
    modifies ls
    ensures ls.items == WithAttractions(c, old(ls.items), list)
  {
    if |list| > 0 {
      ls.SetItem(AttractionsKey, c.encode(list));
    } else {
      ls.RemoveItem(AttractionsKey);
    }
  }

  method SaveCompletedItinerary<C>(c: Codec<C>, ls: LocalStorage, itinerary: Option<C>)
    modifies ls
    ensures ls.items == WithCompletedItinerary(c, old(ls.items), itinerary)
  {
    if itinerary.Some? {
      ls.SetItem(CompletedItineraryKey, c.encode(itinerary.value));
    } else {
      ls.RemoveItem(CompletedItineraryKey);
    }
  }

  /** The `forEach` over the key list, removing one key per turn. */
  method ClearAllStorage(ls: LocalStorage)
    modifies ls
    ensures ls.items == WithoutStorageKeys(old(ls.items))
  {
    var keys := StorageKeys();
    for i := 0 to |keys|
      invariant forall k :: k in ls.items <==> k in old(ls.items) && k !in keys[..i]
      invariant forall k :: k in ls.items ==> ls.items[k] == old(ls.items)[k]
    {
      assert forall k :: k in keys[..i + 1] <==> k in keys[..i] || k == keys[i];
      ls.RemoveItem(keys[i]);
    }
    assert keys[..|keys|] == keys;
  }
}

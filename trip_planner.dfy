/** `src/hooks/useTripPlanner.ts`: the trip session controller. The wishlist
    and itinerary edits are pure functions on a `TripPlan`; the hook's seven
    state variables are the fields of the class `Planner`, whose methods are
    the handlers. An async handler is split at its `await` into a `Begin` and
    a `Finish` method, so that other handlers may run in between; the
    `Handle` method runs the two halves back to back around the service call. */
module TripPlanner {
  import opened Wrappers
  import opened TripTypes
  import opened JsonValues
  import Cache
  import TripService
  import opened Text

  datatype PrefetchStatus = Idle | Fetching | Done | PrefetchError

  const GenerateFailed := "Failed to generate trip. Please try again."
  const CompleteFailed := "Failed to complete itinerary. Please try again."

  // ----- pure plan edits -----

  /** `Array.from({length: n}, (_, i) => ({day: i + 1, attractions: []}))`;
      a negative length counts as 0. */
  function EmptyDays(n: int): (days: seq<DayPlan>)
    ensures |days| == if n > 0 then n else 0
    ensures forall i :: 0 <= i < |days| ==> days[i] == DayPlan(i + 1, [])
  {
    if n <= 0 then [] else EmptyDays(n - 1) + [DayPlan(n, [])]
  }

  /** The plan a successful generate starts: empty wishlist, days 1..travelDays, all empty. */
  function NewTripPlan(details: TripDetails): (plan: TripPlan)
    ensures plan.details == details && plan.wishlist == []
    ensures |plan.itinerary| == if details.travelDays > 0 then details.travelDays else 0
    ensures forall i :: 0 <= i < |plan.itinerary| ==> plan.itinerary[i] == DayPlan(i + 1, [])
  {
    TripPlan(details, [], EmptyDays(details.travelDays))
  }

  /** `filter(item => item.name !== name)`: no entry with that name is left. */
  function WithoutName(attractions: seq<Attraction>, name: string): (r: seq<Attraction>)
    ensures forall x :: x in r ==> x.name != name
    ensures |r| <= |attractions|
  {
    if attractions == [] then []
    else (if attractions[0].name == name then [] else [attractions[0]]) + WithoutName(attractions[1..], name)
  }

  /** Every entry with another name stays as often as it was there. */
  lemma {:induction false} WithoutNameCounts(attractions: seq<Attraction>, name: string)
    ensures forall x: Attraction :: x.name != name ==> multiset(WithoutName(attractions, name))[x] == multiset(attractions)[x]
  {
    if attractions != [] {
      WithoutNameCounts(attractions[1..], name);
      assert attractions == [attractions[0]] + attractions[1..];
    }
  }

  /** The filter keeps relative order: it distributes over concatenation. */
  lemma {:induction false} WithoutNameAppend(a: seq<Attraction>, b: seq<Attraction>, name: string)
    ensures WithoutName(a + b, name) == WithoutName(a, name) + WithoutName(b, name)
  {
    if a == [] {
      assert a + b == b;
    } else {
      assert (a + b)[0] == a[0];
      assert (a + b)[1..] == a[1..] + b;
      WithoutNameAppend(a[1..], b, name);
      var kept := if a[0].name == name then [] else [a[0]];
      ConcatAssoc(kept, WithoutName(a[1..], name), WithoutName(b, name));
    }
  }

  /** A list without the name is left as it is. */
  lemma {:induction false} WithoutAbsentName(attractions: seq<Attraction>, name: string)
    requires forall i :: 0 <= i < |attractions| ==> attractions[i].name != name
    ensures WithoutName(attractions, name) == attractions
  {
    if attractions != [] {
      WithoutAbsentName(attractions[1..], name);
    }
  }

  /** The day numbers of an itinerary, in order. */
  function DayNumbers(days: seq<DayPlan>): seq<int> {
    seq(|days|, i requires 0 <= i < |days| => days[i].day)
  }

  /** The `map` of `addToItinerary`: append to every day plan with that day number. */
  function AppendOnDay(days: seq<DayPlan>, day: int, a: Attraction): seq<DayPlan> {
    seq(|days|, i requires 0 <= i < |days| =>
      if days[i].day == day then DayPlan(days[i].day, days[i].attractions + [a]) else days[i])
  }

  /** The `map` of `removeFromItinerary`: filter every day plan with that day number. */
  function FilterOnDay(days: seq<DayPlan>, day: int, name: string): seq<DayPlan> {
    seq(|days|, i requires 0 <= i < |days| =>
      if days[i].day == day then DayPlan(days[i].day, WithoutName(days[i].attractions, name)) else days[i])
  }

  /** `addToWishlist`: appended at the end; details and itinerary untouched. */
  function AddToWishlist(plan: TripPlan, a: Attraction): (r: TripPlan)
    ensures r.details == plan.details && r.itinerary == plan.itinerary
    ensures |r.wishlist| == |plan.wishlist| + 1 && r.wishlist[..|plan.wishlist|] == plan.wishlist
    ensures r.wishlist[|plan.wishlist|] == a
  {
    plan.(wishlist := plan.wishlist + [a])
  }

  /** `removeFromWishlist`: removal is by name, so every same-named entry goes. */
  function RemoveFromWishlist(plan: TripPlan, a: Attraction): (r: TripPlan)
    ensures r.details == plan.details && r.itinerary == plan.itinerary
    ensures r.wishlist == WithoutName(plan.wishlist, a.name)
    ensures forall x :: x in r.wishlist ==> x.name != a.name
    ensures forall x: Attraction :: x.name != a.name ==> multiset(r.wishlist)[x] == multiset(plan.wishlist)[x]
  {
    WithoutNameCounts(plan.wishlist, a.name);
    plan.(wishlist := WithoutName(plan.wishlist, a.name))
  }

  /** `addToItinerary`: appended to each day plan numbered `day`, other days
      untouched, and every same-named wishlist entry removed, whether or not a
      day matched. */
  function AddToItinerary(plan: TripPlan, a: Attraction, day: int): (r: TripPlan)
    ensures r.details == plan.details
    ensures DayNumbers(r.itinerary) == DayNumbers(plan.itinerary)
    ensures forall i :: 0 <= i < |plan.itinerary| && plan.itinerary[i].day != day ==> r.itinerary[i] == plan.itinerary[i]
    ensures forall i :: 0 <= i < |plan.itinerary| && plan.itinerary[i].day == day ==>
              r.itinerary[i].attractions == plan.itinerary[i].attractions + [a]
    ensures r.wishlist == WithoutName(plan.wishlist, a.name)
    ensures forall x :: x in r.wishlist ==> x.name != a.name
    ensures forall x: Attraction :: x.name != a.name ==> multiset(r.wishlist)[x] == multiset(plan.wishlist)[x]
  {
    WithoutNameCounts(plan.wishlist, a.name);
    plan.(itinerary := AppendOnDay(plan.itinerary, day, a), wishlist := WithoutName(plan.wishlist, a.name))
  }

  /** `removeFromItinerary`: every same-named entry leaves the matching day
      plans; other days and the wishlist are untouched. */
  function RemoveFromItinerary(plan: TripPlan, day: int, name: string): (r: TripPlan)
    ensures r.details == plan.details && r.wishlist == plan.wishlist
    ensures DayNumbers(r.itinerary) == DayNumbers(plan.itinerary)
    ensures forall i :: 0 <= i < |plan.itinerary| && plan.itinerary[i].day != day ==> r.itinerary[i] == plan.itinerary[i]
    ensures forall i :: 0 <= i < |plan.itinerary| && plan.itinerary[i].day == day ==>
              r.itinerary[i].attractions == WithoutName(plan.itinerary[i].attractions, name)
    ensures forall i :: 0 <= i < |plan.itinerary| && plan.itinerary[i].day == day ==>
              forall x :: x in r.itinerary[i].attractions ==> x.name != name
  {
    plan.(itinerary := FilterOnDay(plan.itinerary, day, name))
  }

  /** Removing what was just wishlisted restores the wishlist, when no entry
      had that name before. */
  lemma RemoveUndoesAddToWishlist(plan: TripPlan, a: Attraction)
    requires forall i :: 0 <= i < |plan.wishlist| ==> plan.wishlist[i].name != a.name
    ensures RemoveFromWishlist(AddToWishlist(plan, a), a) == plan
  {
    WithoutNameAppend(plan.wishlist, [a], a.name);
    WithoutAbsentName(plan.wishlist, a.name);
  }

  /** Removing from a day what was just added to it restores the itinerary,
      when that day had no entry with the name before. */
  lemma RemoveUndoesAddToItinerary(plan: TripPlan, a: Attraction, day: int)
    requires forall i, j :: 0 <= i < |plan.itinerary| && plan.itinerary[i].day == day && 0 <= j < |plan.itinerary[i].attractions|
               ==> plan.itinerary[i].attractions[j].name != a.name
    ensures RemoveFromItinerary(AddToItinerary(plan, a, day), day, a.name).itinerary == plan.itinerary
  {
    var added := AddToItinerary(plan, a, day).itinerary;
    var back := FilterOnDay(added, day, a.name);
    forall i | 0 <= i < |plan.itinerary| && plan.itinerary[i].day == day
      ensures back[i] == plan.itinerary[i]
    {
      var atts := plan.itinerary[i].attractions;
      WithoutNameAppend(atts, [a], a.name);
      WithoutAbsentName(atts, a.name);
    }
  }

  /** Adding to a day no plan carries changes no day: only the wishlist filter happens. */
  lemma AddToMissingDay(plan: TripPlan, a: Attraction, day: int)
    requires day !in DayNumbers(plan.itinerary)
    ensures AddToItinerary(plan, a, day) == RemoveFromWishlist(plan, a)
  {
    assert forall i :: 0 <= i < |plan.itinerary| ==> DayNumbers(plan.itinerary)[i] == plan.itinerary[i].day;
    assert AppendOnDay(plan.itinerary, day, a) == plan.itinerary;
  }

  /** On a fresh plan, a day 1..travelDays receives the attraction and so ends
      up in the `selected_landmarks` sent on completion. */
  lemma AddedReachesSelection(details: TripDetails, a: Attraction, day: int)
    requires 1 <= day <= details.travelDays
    ensures var days := AddToItinerary(NewTripPlan(details), a, day).itinerary;
            && TripService.DayKey(day) in TripService.LandmarksOf(days)
            && TripService.LandmarksOf(days)[TripService.DayKey(day)] == [a.name]
  {
    var days := AddToItinerary(NewTripPlan(details), a, day).itinerary;
    assert days[day - 1].day == day;
    assert TripService.DistinctDays(days);
    TripService.LandmarksOfDay(days, day - 1);
  }

  // ----- the hook's state -----

  class Planner {
    var step: Step
    var tripPlan: Option<TripPlan>
    var attractions: seq<Attraction>
    var loading: bool
    var error: Option<string>
    var completedItinerary: Option<Json>
    var prefetchStatus: PrefetchStatus

    /** What the consistency effect keeps: a step past `new` has a plan. */
    predicate Healed()
      reads this
    {
      tripPlan.None? ==> step == New
    }

    /** The initial `useState` values. */
    constructor ()
      ensures step == New && tripPlan == None && attractions == [] && !loading && error == None
      ensures completedItinerary == None && prefetchStatus == Idle
      ensures Healed()
    {
      step := New;
      tripPlan := None;
      attractions := [];
      loading := false;
      error := None;
      completedItinerary := None;
      prefetchStatus := Idle;
    }

    /** The effect on `[step, tripPlan]`: without a plan, any later step falls back to `new`. */
    method ConsistencyEffect()
      modifies this`step
      ensures step == if tripPlan.None? then New else old(step)
      ensures Healed()
    {
      if tripPlan.None? && step in {Planning, Final, Completed} {
        step := New;
      }
    }

    /** The exposed `setStep`, followed by the effect. */
    method SetStep(s: Step)
      modifies this`step
      ensures step == if tripPlan.None? then New else s
      ensures Healed()
    {
      step := s;
      ConsistencyEffect();
    }

    /** `handleNewTrip` up to the `await`. */
    method BeginNewTrip()
      modifies this`loading, this`error
      ensures loading && error == None
    {
      loading := true;
      error := None;
    }

    /** `handleNewTrip` after the `await`, given what `generateTrip` resolved to
        or threw; `loading` ends false either way. */
    method FinishNewTrip(details: TripDetails, outcome: Result<seq<Attraction>, string>)
      requires Healed()
      modifies this`tripPlan, this`attractions, this`step, this`error, this`loading
      ensures !loading && Healed()
      ensures outcome.Success? ==> && tripPlan == Some(NewTripPlan(details))
                                   && attractions == outcome.value
                                   && step == Planning
                                   && error == old(error)
      ensures outcome.Failure? ==> && tripPlan == old(tripPlan)
                                   && attractions == old(attractions)
                                   && step == old(step)
                                   && error == Some(GenerateFailed)
    {
      match outcome {
        case Success(formatted) =>
          tripPlan := Some(NewTripPlan(details));
          attractions := formatted;
          step := Planning;
        case Failure(_) =>
          error := Some(GenerateFailed);
      }
      loading := false;
    }

    /** `handleNewTrip` run through: a cache hit answers without a request; a
        miss sends the payload, and the response decides the outcome and what
        is cached. */
    method HandleNewTrip(details: TripDetails, cache: Cache.TimedCache<TripService.CachedTrip>,
                         requestTime: int, responseTime: int, fetched: TripService.Fetched<TripService.GenerateResponse>)
      returns (outcome: Result<seq<Attraction>, string>, sent: Option<TripService.GeneratePayload>)
      requires Healed()
      modifies this, cache
      ensures !loading && Healed()
      ensures completedItinerary == old(completedItinerary) && prefetchStatus == old(prefetchStatus)
      ensures outcome.Success? ==> && tripPlan == Some(NewTripPlan(details))
                                   && attractions == outcome.value
                                   && step == Planning && error == None
      ensures outcome.Failure? ==> && tripPlan == old(tripPlan)
                                   && attractions == old(attractions)
                                   && step == old(step)
                                   && error == Some(GenerateFailed)
      ensures var key := Cache.CacheKey(details);
              var hit := Cache.Lookup(old(cache.entries), key, requestTime);
              && (hit.Some? ==> && outcome == Success(hit.value.attractions) && sent == None
                                && cache.entries == old(cache.entries))
              && (hit.None? ==> && sent == Some(TripService.PayloadFor(details))
                                && outcome == TripService.GenerateOutcome(fetched)
                                && var pruned := Cache.AfterLookup(old(cache.entries), key, requestTime);
                                   cache.entries == if outcome.Success?
                                                    then pruned[key := Cache.Entry(responseTime, TripService.CachedTrip(outcome.value))]
                                                    else pruned)
    {
      BeginNewTrip();
      outcome, sent := TripService.GenerateTrip(details, cache, requestTime, responseTime, fetched);
      FinishNewTrip(details, outcome);
    }

    /** `handleComplete` up to the `await`: nothing happens without a plan;
        `captured` is the plan the request is built from. */
    method BeginComplete() returns (captured: Option<TripPlan>)
      modifies this`prefetchStatus, this`error
      ensures captured == tripPlan
      ensures captured.None? ==> prefetchStatus == old(prefetchStatus) && error == old(error)
      ensures captured.Some? ==> prefetchStatus == Fetching && error == None
    {
      captured := tripPlan;
      if tripPlan.None? {
        return;
      }
      prefetchStatus := Fetching;
      error := None;
    }

    /** `handleComplete` after the `await`. There is no check that the plan is
        still the one sent: a late success moves to `completed` whatever
        happened meanwhile, and the consistency effect then sends a session
        whose plan was dropped back to `new`. */
    method FinishComplete(outcome: Result<Json, string>)
      modifies this`completedItinerary, this`prefetchStatus, this`step, this`error
      ensures Healed()
      ensures outcome.Success? ==> && completedItinerary == Some(outcome.value)
                                   && prefetchStatus == Done
                                   && step == (if tripPlan.Some? then Completed else New)
                                   && error == old(error)
      ensures outcome.Failure? ==> && completedItinerary == old(completedItinerary)
                                   && prefetchStatus == PrefetchError
                                   && error == Some(CompleteFailed)
                                   && step == (if tripPlan.Some? then old(step) else New)
    {
      match outcome {
        case Success(data) =>
          completedItinerary := Some(data);
          prefetchStatus := Done;
          step := Completed;
        case Failure(_) =>
          prefetchStatus := PrefetchError;
          error := Some(CompleteFailed);
      }
      ConsistencyEffect();
    }

    /** `handleComplete` run through. */
    method HandleComplete(fetched: TripService.Fetched<Json>)
      returns (sent: Option<TripService.CompletePayload>)
      requires Healed()
      modifies this
      ensures Healed()
      ensures tripPlan == old(tripPlan) && attractions == old(attractions) && loading == old(loading)
      ensures old(tripPlan).None? ==> sent.None? && unchanged(this)
      ensures old(tripPlan).Some? ==>
                && sent.Some?
                && sent.value == TripService.CompletePayload(
                     old(tripPlan).value.details.destination, old(tripPlan).value.details.travelDays,
                     old(tripPlan).value.details.withKids, old(tripPlan).value.details.withElders,
                     TripService.LandmarksOf(old(tripPlan).value.itinerary))
                && var outcome := TripService.CompleteOutcome(fetched);
                   && (outcome.Success? ==> step == Completed && prefetchStatus == Done
                                            && completedItinerary == Some(outcome.value) && error == None)
                   && (outcome.Failure? ==> step == old(step) && prefetchStatus == PrefetchError
                                            && completedItinerary == old(completedItinerary)
                                            && error == Some(CompleteFailed))
    {
      var captured := BeginComplete();
      if captured.None? {
        return None;
      }
      var outcome, payload := TripService.CompleteItinerary(captured.value, fetched);
      sent := Some(payload);
      FinishComplete(outcome);
    }

    /** `handleBack`: the error is always cleared; what else is reset depends on the step. */
    method HandleBack()
      requires Healed()
      modifies this
      ensures Healed() && error == None && loading == old(loading)
      ensures old(step) == New ==>
                && step == New && tripPlan == old(tripPlan) && attractions == old(attractions)
                && completedItinerary == old(completedItinerary) && prefetchStatus == old(prefetchStatus)
      ensures old(step) == Planning ==>
                && step == New && tripPlan == None && attractions == []
                && completedItinerary == None && prefetchStatus == Idle
      ensures old(step) == Final ==>
                && step == Planning && tripPlan == old(tripPlan) && attractions == old(attractions)
                && completedItinerary == None && prefetchStatus == Idle
      ensures old(step) == Completed ==>
                && step == Final && tripPlan == old(tripPlan) && attractions == old(attractions)
                && completedItinerary == old(completedItinerary) && prefetchStatus == old(prefetchStatus)
    {
      error := None;
      match step {
        case Planning =>
          step := New;
          tripPlan := None;
          attractions := [];
          completedItinerary := None;
          prefetchStatus := Idle;
        case Final =>
          step := Planning;
          completedItinerary := None;
          prefetchStatus := Idle;
        case Completed =>
          step := Final;
        case New =>
      }
    }

    method AddToWishlistOp(a: Attraction)
      modifies this`tripPlan
      ensures tripPlan == if old(tripPlan).None? then None else Some(AddToWishlist(old(tripPlan).value, a))
    {
      if tripPlan.None? {
        return;
      }
      tripPlan := Some(AddToWishlist(tripPlan.value, a));
    }

    method RemoveFromWishlistOp(a: Attraction)
      modifies this`tripPlan
      ensures tripPlan == if old(tripPlan).None? then None else Some(RemoveFromWishlist(old(tripPlan).value, a))
    {
      if tripPlan.None? {
        return;
      }
      tripPlan := Some(RemoveFromWishlist(tripPlan.value, a));
    }

    method AddToItineraryOp(a: Attraction, day: int)
      modifies this`tripPlan
      ensures tripPlan == if old(tripPlan).None? then None else Some(AddToItinerary(old(tripPlan).value, a, day))
    {
      if tripPlan.None? {
        return;
      }
      tripPlan := Some(AddToItinerary(tripPlan.value, a, day));
    }

    method RemoveFromItineraryOp(day: int, name: string)
      modifies this`tripPlan
      ensures tripPlan == if old(tripPlan).None? then None else Some(RemoveFromItinerary(old(tripPlan).value, day, name))
    {
      if tripPlan.None? {
        return;
      }
      tripPlan := Some(RemoveFromItinerary(tripPlan.value, day, name));
    }
  }
}

/** `src/store/tripStore.ts`: the persisted store holding `version`, `step`
    and `tripPlan`. Every action computes its new state with `validateState`
    (or resets to the initial state), which keeps the invariant
    `step == new` exactly when there is no plan. */
module TripStore {
  import opened Wrappers
  import opened TripTypes

  const CurrentVersion: int := 1
  const StorageKey := "trip-planner-storage"

  datatype StoreState = StoreState(version: int, step: Step, tripPlan: Option<TripPlan>)

  /** `initialState`. */
  function InitialState(): (s: StoreState)
    ensures s.version == 1 && s.step == New && s.tripPlan.None?
  {
    StoreState(CurrentVersion, New, None)
  }

  /** The store invariant. */
  predicate Consistent(s: StoreState) {
    s.step == New <==> s.tripPlan.None?
  }

  /** `validateState`: a plan at step `new` moves to `planning`, no plan at a
      later step falls back to `new`; only the step ever changes, and a
      consistent state is a fixed point (so the function is idempotent). */
  function ValidateState(s: StoreState): (r: StoreState)
    ensures Consistent(r)
    ensures r.version == s.version && r.tripPlan == s.tripPlan
    ensures s.tripPlan.Some? && s.step == New ==> r.step == Planning
    ensures s.tripPlan.None? ==> r.step == New
    ensures s.tripPlan.Some? && s.step != New ==> r.step == s.step
    ensures Consistent(s) ==> r == s
  {
    var afterPlanningRule := if s.tripPlan.Some? && s.step == New then s.(step := Planning) else s;
    if afterPlanningRule.tripPlan.None? && afterPlanningRule.step != New then afterPlanningRule.(step := New)
    else afterPlanningRule
  }

  /** `setStep`: a requested `new` is overridden to `planning` while a plan
      exists, and any step falls back to `new` without one. */
  function AfterSetStep(s: StoreState, step: Step): (r: StoreState)
    ensures Consistent(r)
    ensures r.version == s.version && r.tripPlan == s.tripPlan
    ensures r.step == if s.tripPlan.None? then New else if step == New then Planning else step
  {
    ValidateState(s.(step := step))
  }

  /** `setTripPlan`: a plan always lands on `planning`, no plan on `new`. */
  function AfterSetTripPlan(s: StoreState, plan: Option<TripPlan>): (r: StoreState)
    ensures Consistent(r)
    ensures r.version == s.version && r.tripPlan == plan
    ensures r.step == if plan.Some? then Planning else New
  {
    if plan.None? then ValidateState(s.(tripPlan := None))
    else ValidateState(s.(tripPlan := plan, step := Planning))
  }

  /** `Partial<TripPlan>`: the fields an update overrides. */
  datatype PlanUpdate = PlanUpdate(
    details: Option<TripDetails>,
    wishlist: Option<seq<Attraction>>,
    itinerary: Option<seq<DayPlan>>)

  /** `{...currentPlan, ...updates}`. */
  function ApplyUpdate(plan: TripPlan, u: PlanUpdate): (r: TripPlan)
    ensures r.details == (if u.details.Some? then u.details.value else plan.details)
    ensures r.wishlist == (if u.wishlist.Some? then u.wishlist.value else plan.wishlist)
    ensures r.itinerary == (if u.itinerary.Some? then u.itinerary.value else plan.itinerary)
  {
    TripPlan(
      if u.details.Some? then u.details.value else plan.details,
      if u.wishlist.Some? then u.wishlist.value else plan.wishlist,
      if u.itinerary.Some? then u.itinerary.value else plan.itinerary)
  }

  /** `updateTripPlan`: without a plan the state is returned as it is (it is
      not validated); otherwise only the fields present in the update change. */
  function AfterUpdateTripPlan(s: StoreState, u: PlanUpdate): (r: StoreState)
    ensures s.tripPlan.None? ==> r == s
    ensures s.tripPlan.Some? ==> && r.tripPlan == Some(ApplyUpdate(s.tripPlan.value, u))
                                 && r.version == s.version
                                 && r.step == (if s.step == New then Planning else s.step)
    ensures Consistent(s) ==> Consistent(r)
  {
    if s.tripPlan.None? then s
    else ValidateState(s.(tripPlan := Some(ApplyUpdate(s.tripPlan.value, u))))
  }

  /** An update that names no field leaves a consistent state as it is. */
  lemma EmptyUpdateIsIdentity(s: StoreState)
    requires Consistent(s)
    ensures AfterUpdateTripPlan(s, PlanUpdate(None, None, None)) == s
  {
    if s.tripPlan.Some? {
      var p := s.tripPlan.value;
      assert ApplyUpdate(p, PlanUpdate(None, None, None)) == p;
    }
  }

  /** Setting a plan and then clearing it lands on the same state as a reset
      of the step alone: the plan is gone and the step is `new`. */
  lemma SetThenClearPlan(s: StoreState, plan: TripPlan)
    ensures AfterSetTripPlan(AfterSetTripPlan(s, Some(plan)), None) == StoreState(s.version, New, None)
  {
  }

  /** The store object: `set` replaces its three data fields. */
  class Store {
    var version: int
    var step: Step
    var tripPlan: Option<TripPlan>

    function State(): StoreState
      reads this
    {
      StoreState(version, step, tripPlan)
    }

    constructor ()
      ensures State() == InitialState() && Consistent(State())
    {
      version := CurrentVersion;
      step := New;
      tripPlan := None;
    }

    method Assign(s: StoreState)
      modifies this
      ensures State() == s
    {
      version := s.version;
      step := s.step;
      tripPlan := s.tripPlan;
    }

    method SetStep(newStep: Step)
      modifies this
      ensures State() == AfterSetStep(old(State()), newStep) && Consistent(State())
    {
      Assign(AfterSetStep(State(), newStep));
    }

    method SetTripPlan(plan: Option<TripPlan>)
      modifies this
      ensures State() == AfterSetTripPlan(old(State()), plan) && Consistent(State())
    {
      Assign(AfterSetTripPlan(State(), plan));
    }

    method UpdateTripPlan(u: PlanUpdate)
      modifies this
      ensures State() == AfterUpdateTripPlan(old(State()), u)
      ensures Consistent(old(State())) ==> Consistent(State())
    {
      Assign(AfterUpdateTripPlan(State(), u));
    }

    method Reset()
      modifies this
      ensures State() == InitialState() && Consistent(State())
    {
      Assign(InitialState());
    }
  }
}

/** The data shapes of `src/types.ts` that the trip-planning core passes around.
    Only the fields the core reads or writes are kept; coordinates, ratings,
    photos and the other display fields of a place are not part of this model. */
module TripTypes {
  import opened Wrappers

  /** The workflow step: 'new' | 'planning' | 'final' | 'completed'. */
  datatype Step = New | Planning | Final | Completed

  /** The `type` of an attraction: 'suggested' | 'additional' | 'landmark'. */
  datatype AttractionKind = Suggested | Additional | Landmark

  /** The optional badge: 'new' | 'trending'. */
  datatype Badge = NewBadge | TrendingBadge

  datatype Attraction = Attraction(
    name: string,
    description: string,
    kind: AttractionKind,
    badge: Option<Badge>,
    placeId: Option<string>)

  /** The trip request. A missing `kidsAge` is the empty list: every consumer in
      the core treats `null` and `[]` alike. */
  datatype TripDetails = TripDetails(
    destination: string,
    travelDays: int,
    startDate: Option<string>,
    endDate: Option<string>,
    withKids: bool,
    withElders: bool,
    kidsAge: seq<int>,
    specialRequests: Option<string>)

  datatype DayPlan = DayPlan(day: int, attractions: seq<Attraction>)

  datatype TripPlan = TripPlan(details: TripDetails, wishlist: seq<Attraction>, itinerary: seq<DayPlan>)
}

/** `src/components/NewTripForm.tsx`: the form's state and its functional
    updaters. The form keeps one kid's age as a number that may be unset
    (`null`) or `NaN` after typing something that is not a number. */
module NewTripForm {
  import opened Wrappers
  import opened Text
  import opened TripTypes
  import Cache
  import TripService

  const MaxDays: int := 14
  const MinDays: int := 1
  const MaxKidsAge: int := 17

  datatype KidsAge = Unset | Age(years: int) | NotANumber

  datatype FormDetails = FormDetails(
    destination: string,
    travelDays: int,
    withKids: bool,
    withElders: bool,
    kidsAge: KidsAge)

  function Initial(): (f: FormDetails)
    ensures f.destination == "" && f.travelDays == 3 && !f.withKids && !f.withElders && f.kidsAge == Unset
  {
    FormDetails("", 3, false, false, Unset)
  }

  function Min(a: int, b: int): int { if a <= b then a else b }
  function Max(a: int, b: int): int { if a >= b then a else b }

  /** The bounds the buttons keep. */
  predicate InRange(f: FormDetails) {
    && MinDays <= f.travelDays <= MaxDays
    && (f.kidsAge.Age? ==> 0 <= f.kidsAge.years <= MaxKidsAge)
  }

  /** `incrementDays`: one more day, never past 14; nothing else changes. */
  function IncrementDays(f: FormDetails): (r: FormDetails)
    ensures r.travelDays <= MaxDays
    ensures f.travelDays < MaxDays ==> r.travelDays == f.travelDays + 1
    ensures f.travelDays >= MaxDays ==> r.travelDays == MaxDays
    ensures r == f.(travelDays := r.travelDays)
  {
    f.(travelDays := Min(f.travelDays + 1, MaxDays))
  }

  /** `decrementDays`: one day fewer, never below 1; nothing else changes. */
  function DecrementDays(f: FormDetails): (r: FormDetails)
    ensures r.travelDays >= MinDays
    ensures f.travelDays > MinDays ==> r.travelDays == f.travelDays - 1
    ensures f.travelDays <= MinDays ==> r.travelDays == MinDays
    ensures r == f.(travelDays := r.travelDays)
  {
    f.(travelDays := Max(f.travelDays - 1, MinDays))
  }

  /** The day field's `onChange`: `parseInt(text) || 1`, clamped into [1, 14];
      text that is not a number, 0 and negative numbers give 1. */
  function TypedDays(f: FormDetails, text: string): (r: FormDetails)
    ensures MinDays <= r.travelDays <= MaxDays
    ensures ParseInt(text).None? ==> r.travelDays == MinDays
    ensures ParseInt(text).Some? && ParseInt(text).value < MinDays ==> r.travelDays == MinDays
    ensures ParseInt(text).Some? && MinDays <= ParseInt(text).value <= MaxDays ==> r.travelDays == ParseInt(text).value
    ensures ParseInt(text).Some? && ParseInt(text).value > MaxDays ==> r.travelDays == MaxDays
    ensures r == f.(travelDays := r.travelDays)
  {
    var typed := match ParseInt(text) case Some(n) => if n == 0 then 1 else n case None => 1;
    f.(travelDays := Min(Max(typed, MinDays), MaxDays))
  }

  /** Typing the decimal form of any allowed day count sets exactly that count. */
  lemma TypedDaysAcceptsEveryAllowedCount(f: FormDetails, n: int)
    requires MinDays <= n <= MaxDays
    ensures TypedDays(f, IntToString(n)).travelDays == n
  {
    ParseIntRoundTrip(n);
  }

  /** `incrementKidsAge`: unset counts as 0, capped at 17; `NaN` stays `NaN`. */
  function IncrementKidsAge(f: FormDetails): (r: FormDetails)
    ensures f.kidsAge == Unset ==> r.kidsAge == Age(1)
    ensures f.kidsAge.Age? ==> r.kidsAge == Age(if f.kidsAge.years < MaxKidsAge then f.kidsAge.years + 1 else MaxKidsAge)
    ensures f.kidsAge == NotANumber ==> r.kidsAge == NotANumber
    ensures r == f.(kidsAge := r.kidsAge)
  {
    match f.kidsAge
    case Unset => f.(kidsAge := Age(Min(0 + 1, MaxKidsAge)))
    case Age(years) => f.(kidsAge := Age(Min(years + 1, MaxKidsAge)))
    case NotANumber => f
  }

  /** `decrementKidsAge`: unset counts as 1, floored at 0; `NaN` stays `NaN`. */
  function DecrementKidsAge(f: FormDetails): (r: FormDetails)
    ensures f.kidsAge == Unset ==> r.kidsAge == Age(0)
    ensures f.kidsAge.Age? ==> r.kidsAge == Age(if f.kidsAge.years > 0 then f.kidsAge.years - 1 else 0)
    ensures f.kidsAge == NotANumber ==> r.kidsAge == NotANumber
    ensures r == f.(kidsAge := r.kidsAge)
  {
    match f.kidsAge
    case Unset => f.(kidsAge := Age(Max(1 - 1, 0)))
    case Age(years) => f.(kidsAge := Age(Max(years - 1, 0)))
    case NotANumber => f
  }

  /** The age field's `onChange`: `parseInt(text)`, not clamped. */
  function TypedKidsAge(f: FormDetails, text: string): (r: FormDetails)
    ensures ParseInt(text).Some? ==> r.kidsAge == Age(ParseInt(text).value)
    ensures ParseInt(text).None? ==> r.kidsAge == NotANumber
    ensures r == f.(kidsAge := r.kidsAge)
  {
    match ParseInt(text)
    case Some(n) => f.(kidsAge := Age(n))
    case None => f.(kidsAge := NotANumber)
  }

  /** The four buttons keep a form within its bounds. */
  lemma ButtonsKeepRange(f: FormDetails)
    requires InRange(f)
    ensures InRange(IncrementDays(f)) && InRange(DecrementDays(f))
    ensures InRange(IncrementKidsAge(f)) && InRange(DecrementKidsAge(f))
  {
  }

  /** `handleSubmit`: the details with the destination trimmed, all else as typed. */
  function Submit(f: FormDetails): (r: FormDetails)
    ensures r.destination == Trim(f.destination)
    ensures r == f.(destination := r.destination)
    ensures Trim(r.destination) == r.destination
  {
    TrimIdempotent(f.destination);
    f.(destination := Trim(f.destination))
  }

  // ----- how the submitted age reaches the service -----

  const JoinNotAFunction := "details.kidsAge?.join is not a function"

  /** As written: the submitted object carries the form's single number as
      `kidsAge`, and `getCacheKey` calls `kidsAge?.join(',')` on it. That is
      fine for `null`, and a TypeError for any number, `NaN` included. */
  function AsWrittenKidsSegment(k: KidsAge): (r: Result<string, string>)
    ensures r.Success? <==> k == Unset
    ensures r.Success? ==> r.value == "none"
  {
    match k
    case Unset => Success("none")
    case _ => Failure(JoinNotAFunction)
  }

  /** Setting a kid's age with a button makes `generateTrip` throw before
      any request, so the session only shows its generic failure message. */
  lemma AgeButtonBreaksGenerate(f: FormDetails)
    ensures AsWrittenKidsSegment(Submit(IncrementKidsAge(f)).kidsAge).Failure?
    ensures AsWrittenKidsSegment(Submit(DecrementKidsAge(f)).kidsAge).Failure?
  {
  }

  /** Corrected: the submitted details hold the age as a one-element list
      (none when unset or not a number), as the service's `kidsAge: number[]`
      expects. */
  function SubmittedDetails(f: FormDetails): (d: TripDetails)
    ensures d.destination == Trim(f.destination) && d.travelDays == f.travelDays
    ensures d.withKids == f.withKids && d.withElders == f.withElders
    ensures d.kidsAge == if f.kidsAge.Age? then [f.kidsAge.years] else []
  {
    var s := Submit(f);
    TripDetails(s.destination, s.travelDays, None, None, s.withKids, s.withElders,
                if s.kidsAge.Age? then [s.kidsAge.years] else [], None)
  }

  /** With the correction, a set age is sent for a trip with kids. */
  lemma SubmittedAgeIsSent(f: FormDetails)
    requires f.withKids && f.kidsAge.Age?
    ensures TripService.PayloadFor(SubmittedDetails(f)).kidsAge == Some([f.kidsAge.years])
  {
  }

  /** With the correction, two forms that differ only in the kid's age are
      cached under different keys, so neither is served the other's result. */
  lemma SubmittedAgesKeyApart(f: FormDetails, g: FormDetails)
    requires g == f.(kidsAge := g.kidsAge)
    requires f.travelDays >= 0
    requires f.kidsAge.Age? && g.kidsAge.Age? && 0 <= f.kidsAge.years && 0 <= g.kidsAge.years
    requires f.kidsAge != g.kidsAge
    ensures Cache.CacheKey(SubmittedDetails(f)) != Cache.CacheKey(SubmittedDetails(g))
  {
    var d1 := SubmittedDetails(f);
    var d2 := SubmittedDetails(g);
    assert d1.kidsAge == [f.kidsAge.years] && d2.kidsAge == [g.kidsAge.years];
    assert d1.kidsAge != d2.kidsAge;
    assert Cache.NonNegativeNumbers(d1) && Cache.NonNegativeNumbers(d2);
    Cache.CacheKeysDiffer(d1, d2);
  }
}

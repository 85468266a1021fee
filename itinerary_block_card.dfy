/** `src/components/ItineraryBlockCard.tsx`: the string helpers of the
    itinerary block card. The API base URL is a parameter, since it comes
    from the build environment. */
module ItineraryBlockCard {
  import opened Wrappers
  import opened Text

  const DefaultApiBaseUrl := "http://localhost:8000"

  /** `import.meta.env.VITE_API_URL || 'http://localhost:8000'`: a missing or
      empty setting falls back to the local server. */
  function ApiBaseUrl(configured: Option<string>): (url: string)
    ensures configured.Some? && configured.value != "" ==> url == configured.value
    ensures configured.None? || configured.value == "" ==> url == DefaultApiBaseUrl
  {
    if configured.Some? && configured.value != "" then configured.value else DefaultApiBaseUrl
  }

  /** At most one trailing `/` goes. */
  function StripTrailingSlash(base: string): (r: string)
    ensures EndsWith(base, "/") ==> r + "/" == base
    ensures !EndsWith(base, "/") ==> r == base
  {
    if EndsWith(base, "/") then base[..|base| - 1] else base
  }

  predicate IsAbsolute(url: string) {
    StartsWith(url, "http://") || StartsWith(url, "https://")
  }

  /** `getPhotoUrl`: nothing for a missing or empty URL, an absolute URL as it
      is, and a relative one appended to the base without its trailing slash. */
  function PhotoUrl(base: string, photoUrl: Option<string>): (r: Option<string>)
    ensures photoUrl.None? || photoUrl.value == "" ==> r.None?
    ensures photoUrl.Some? && IsAbsolute(photoUrl.value) ==> r == photoUrl
    ensures photoUrl.Some? && photoUrl.value != "" && !IsAbsolute(photoUrl.value) ==>
              && r.Some?
              && r.value == StripTrailingSlash(base) + photoUrl.value
              && EndsWith(r.value, photoUrl.value)
              && StartsWith(r.value, StripTrailingSlash(base))
  {
    match photoUrl
    case None => None
    case Some(url) =>
      if url == "" then None
      else if IsAbsolute(url) then Some(url)
      else
        var joined := StripTrailingSlash(base) + url;
        assert joined[|joined| - |url|..] == url && joined[..|StripTrailingSlash(base)|] == StripTrailingSlash(base);
        Some(joined)
  }

  /** A base configured with or without its trailing slash gives the same photo URLs. */
  lemma TrailingSlashIrrelevant(base: string, photoUrl: Option<string>)
    requires !EndsWith(base, "/")
    ensures PhotoUrl(base + "/", photoUrl) == PhotoUrl(base, photoUrl)
  {
    var slashed := base + "/";
    assert slashed[|slashed| - 1..] == "/";
    assert slashed[..|slashed| - 1] == base;
  }

  /** `toUpperCase` on one character, for the ASCII letters. */
  function UpperCase(c: char): (u: char)
    ensures ('a' <= c <= 'z') ==> ('A' <= u <= 'Z') && (u as int) - ('A' as int) == (c as int) - ('a' as int)
    ensures !('a' <= c <= 'z') ==> u == c
  {
    if 'a' <= c <= 'z' then ((c as int) - ('a' as int) + ('A' as int)) as char else c
  }

  /** The label of `getMealtimeDisplay`: nothing for a missing or empty
      mealtime, else the mealtime with its first character upper-cased. */
  function MealtimeLabel(mealtime: Option<string>): (shown: Option<string>)
    ensures mealtime.None? || mealtime.value == "" ==> shown.None?
    ensures mealtime.Some? && mealtime.value != "" ==>
              && shown.Some?
              && |shown.value| == |mealtime.value|
              && shown.value[0] == UpperCase(mealtime.value[0])
              && shown.value[1..] == mealtime.value[1..]
  {
    match mealtime
    case None => None
    case Some(m) => if m == "" then None else Some([UpperCase(m[0])] + m[1..])
  }

  /** The three mealtimes the service sends get their usual capitalised labels. */
  lemma MealtimeLabels()
    ensures MealtimeLabel(Some("breakfast")) == Some("Breakfast")
    ensures MealtimeLabel(Some("lunch")) == Some("Lunch")
    ensures MealtimeLabel(Some("dinner")) == Some("Dinner")
  {
    assert UpperCase('b') == 'B' && "breakfast"[1..] == "reakfast" && ['B'] + "reakfast" == "Breakfast";
    assert UpperCase('l') == 'L' && "lunch"[1..] == "unch" && ['L'] + "unch" == "Lunch";
    assert UpperCase('d') == 'D' && "dinner"[1..] == "inner" && ['D'] + "inner" == "Dinner";
  }

  /** `block.type === 'restaurant'`. */
  function IsRestaurant(blockType: string): (r: bool)
    ensures r <==> blockType == "restaurant"
  {
    blockType == "restaurant"
  }
}

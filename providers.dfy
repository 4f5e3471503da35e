/**
 * What the bot takes from its external collaborators, reduced to the values
 * it reads, and the pure decisions and data shaping it applies to them:
 * the city on the user's profile page, the forecast sample for a day, the
 * congestion level, the events listing and the city catalog.
 */
module Providers {

  import opened Wrappers
  import opened Text

  /** One record of the platform's `users.get(fields="city")`: whether the profile is open, and its city title. */
  datatype VkUser = VkUser(canAccessClosed: bool, cityTitle: Option<string>)

  /** Coordinates from the geocoding provider. */
  datatype Coords = Coords(lat: real, lon: real)

  /** One entry of the forecast provider's `list`: its `dt_txt` stamp and the fields the reply shows. */
  datatype Forecast = Forecast(dtTxt: string, description: string, temp: real, feelsLike: real, humidity: int, windSpeed: real)

  /** The currency provider's raw rates for one rouble. */
  datatype Rates = Rates(usd: real, eur: real, gbp: real, jpy: real, cny: real)

  /** One event block of the listing page: heading text, price text when there is a price tag, and the link's href. */
  datatype RawEvent = RawEvent(title: string, price: Option<string>, href: string)

  /** An event as the bot reports it: title, price text and absolute link. */
  datatype Event = Event(title: string, price: string, link: string)

  /** One city anchor of the catalog page: its text and its href. */
  datatype CityLink = CityLink(text: string, href: string)

  /**
   * The answers of the external services, as functions of what the bot sends
   * them: the profile lookup by user id, geocoding by city name, the forecast
   * and the rounded congestion figure by coordinates, the currency rates, the
   * events page by URL, and the dates of today and tomorrow as "%Y-%m-%d".
   * None stands for a response that is not OK and, for geocoding, also for
   * an empty answer (a city the geocoder does not know).
   */
  datatype Env = Env(
    vkUsers: int -> seq<VkUser>,
    geocode: string -> Option<Coords>,
    forecast: Coords -> Option<seq<Forecast>>,
    jams: Coords -> Option<int>,
    rates: Option<Rates>,
    eventsPage: string -> seq<RawEvent>,
    today: string,
    tomorrow: string)

  const Tomorrow := "завтра"
  const BaseUrl := "https://gorodzovet.ru"
  const Free := "бесплатно"

  // ---- The city on the user's profile page (App.get_city_from_user) ----

  /**
   * The city is read only from a non-empty answer whose first record is an
   * open profile that has a city.
   */
  function CityFromUser(users: seq<VkUser>): (r: Option<string>)
    ensures r.Some? <==> |users| > 0 && users[0].canAccessClosed && users[0].cityTitle.Some?
    ensures r.Some? ==> r == users[0].cityTitle
  {
    if |users| == 0 then None
    else if !users[0].canAccessClosed then None
    else users[0].cityTitle
  }

  // ---- Congestion level (App.get_jams_level) ----

  /** The congestion level: the provider's figure clamped to at least 1, and 1 when the request failed. */
  function JamsLevel(raw: Option<int>): (r: int)
    ensures r >= 1
    ensures raw.None? ==> r == 1
    ensures raw.Some? ==> r >= raw.value && (raw.value >= 1 ==> r == raw.value)
    ensures raw.Some? && raw.value < 1 ==> r == 1
  {
    match raw
    case None => 1
    case Some(level) => if level > 1 then level else 1
  }

  // ---- Forecast day selection (App.get_weather) ----

  /** The date part of the record's `dt_txt` (its first word) is `date`. */
  predicate DatedOn(f: Forecast, date: string) {
    FirstWord(f.dtTxt) == Some(date)
  }

  /** Every record has a first word in its `dt_txt`, so `split()[0]` does not fail. */
  predicate Dateable(list: seq<Forecast>) {
    forall i :: 0 <= i < |list| ==> FirstWord(list[i].dtTxt).Some?
  }

  /** The elements of `xs` that `keep` accepts, in order, as a loop appending to a list collects them. */
  function Filter<T>(xs: seq<T>, keep: T -> bool): seq<T>
    decreases |xs|
  {
    if xs == [] then []
    else
      var last := xs[|xs| - 1];
      Filter(xs[..|xs| - 1], keep) + (if keep(last) then [last] else [])
  }

  /** The records dated `date`, in list order. */
  function OnDate(list: seq<Forecast>, date: string): seq<Forecast> {
    Filter(list, f => DatedOn(f, date))
  }

  /** "tomorrow" takes the middle record among tomorrow's; any other day the first record. */
  function PickForecast(list: seq<Forecast>, day: string, tomorrow: string): Forecast
    requires day == Tomorrow ==> OnDate(list, tomorrow) != []
    requires day != Tomorrow ==> |list| > 0
  {
    if day == Tomorrow then
      var dated := OnDate(list, tomorrow);
      dated[|dated| / 2]
    else list[0]
  }

  /** The forecast request does not fail on the day asked for. */
  predicate WeatherDefined(city: string, day: string, env: Env) {
    match env.geocode(city)
    case None => true
    case Some(coords) =>
      match env.forecast(coords)
      case None => true
      case Some(list) =>
        if day == Tomorrow then Dateable(list) && OnDate(list, env.tomorrow) != [] else |list| > 0
  }

  /** What App.get_weather returns for `city` and `day`: None when geocoding or the forecast request failed. */
  function WeatherQuery(city: string, day: string, env: Env): Option<Forecast>
    requires WeatherDefined(city, day, env)
  {
    match env.geocode(city)
    case None => None
    case Some(coords) =>
      match env.forecast(coords)
      case None => None
      case Some(list) => Some(PickForecast(list, day, env.tomorrow))
  }

  // ---- Events listing (App.get_events) ----

  /** The price column: the stripped price text and " p", or the "free" marker when the block has no price. */
  function FormatPrice(price: Option<string>): string {
    match price
    case Some(text) => Strip(text) + " p"
    case None => Free
  }

  function ShapeEvent(raw: RawEvent): Event {
    Event(Strip(raw.title), FormatPrice(raw.price), BaseUrl + raw.href)
  }

  /** The listing page for a city slug and a date. */
  function EventsUrl(slug: string, date: string): string {
    BaseUrl + "/" + slug + "/day" + date
  }

  /** "tomorrow" lists tomorrow's events; any other day today's. */
  function EventDate(day: string, env: Env): string {
    if day == Tomorrow then env.tomorrow else env.today
  }

  /** The first five blocks of the listing, shaped. */
  function TopEvents(listing: seq<RawEvent>): seq<Event> {
    seq(Min(5, |listing|), i requires 0 <= i < Min(5, |listing|) => ShapeEvent(listing[i]))
  }

  /** What App.get_events returns for a city slug and a day. */
  function EventsFor(slug: string, day: string, env: Env): seq<Event> {
    TopEvents(env.eventsPage(EventsUrl(slug, EventDate(day, env))))
  }

  // ---- City catalog (App.fill_cities_dict) ----

  /** The catalog key of an anchor: its text stripped and lower-cased. */
  function CatalogKey(link: CityLink): string {
    Normalize(link.text)
  }

  /** The catalog value of an anchor: its href with every slash removed. */
  function CatalogSlug(link: CityLink): string {
    RemoveSlashes(link.href)
  }

  /** The map left by `m[key(x)] = val(x)` for each `x` of `xs` in turn, starting from an empty map. */
  function Assign<A, K, V>(xs: seq<A>, key: A -> K, val: A -> V): map<K, V>
    decreases |xs|
  {
    if xs == [] then map[]
    else
      var last := xs[|xs| - 1];
      Assign(xs[..|xs| - 1], key, val)[key(last) := val(last)]
  }

  /** The catalog after entering the anchors in order; a later anchor with the same key overwrites. */
  function Catalog(links: seq<CityLink>): map<string, string> {
    Assign(links, CatalogKey, CatalogSlug)
  }

  // ---- Properties ----

  /** `Filter` keeps exactly the elements `keep` accepts, and never more than there are. */
  lemma {:induction false} FilterMembers<T>(xs: seq<T>, keep: T -> bool)
    ensures |Filter(xs, keep)| <= |xs|
    ensures forall x :: x in Filter(xs, keep) <==> x in xs && keep(x)
    decreases |xs|
  {
    if xs != [] {
      var init, last := xs[..|xs| - 1], xs[|xs| - 1];
      FilterMembers(init, keep);
      assert xs == init + [last];
    }
  }

  /** Filtering a concatenation filters each part and keeps them in order. */
  lemma {:induction false} FilterConcat<T>(a: seq<T>, b: seq<T>, keep: T -> bool)
    ensures Filter(a + b, keep) == Filter(a, keep) + Filter(b, keep)
    decreases |b|
  {
    if b == [] {
      assert a + b == a;
    } else {
      var init, last := b[..|b| - 1], b[|b| - 1];
      assert (a + b)[..|a + b| - 1] == a + init;
      assert (a + b)[|a + b| - 1] == last;
      FilterConcat(a, init, keep);
    }
  }

  /**
   * The selection is the in-order filter of the loop at get_weather: the
   * records of two consecutive parts come in the same order, duplicates kept.
   */
  lemma OnDateConcat(a: seq<Forecast>, b: seq<Forecast>, date: string)
    ensures OnDate(a + b, date) == OnDate(a, date) + OnDate(b, date)
  {
    FilterConcat(a, b, f => DatedOn(f, date));
  }

  /** One record is selected exactly when it carries the date. */
  lemma OnDateSingle(f: Forecast, date: string)
    ensures OnDate([f], date) == if DatedOn(f, date) then [f] else []
  {
    var keep := (g: Forecast) => DatedOn(g, date);
    assert [f][..0] == [];
    assert Filter([f], keep) == Filter([], keep) + (if keep(f) then [f] else []);
  }

  /** The loop step: appending a record appends it to the selection exactly when it carries the date. */
  lemma OnDateSnoc(list: seq<Forecast>, f: Forecast, date: string)
    ensures OnDate(list + [f], date) == OnDate(list, date) + (if DatedOn(f, date) then [f] else [])
  {
    OnDateConcat(list, [f], date);
    OnDateSingle(f, date);
  }

  /** The selection keeps exactly the records dated `date`. */
  lemma OnDateMembers(list: seq<Forecast>, date: string)
    ensures |OnDate(list, date)| <= |list|
    ensures forall f :: f in OnDate(list, date) <==> f in list && DatedOn(f, date)
  {
    FilterMembers(list, f => DatedOn(f, date));
  }

  /** There is a record for `date` exactly when some record carries that date. */
  lemma OnDateNonEmpty(list: seq<Forecast>, date: string)
    ensures OnDate(list, date) != [] <==> exists i :: 0 <= i < |list| && DatedOn(list[i], date)
  {
    OnDateMembers(list, date);
    if OnDate(list, date) != [] {
      var f := OnDate(list, date)[0];
      assert f in list;
    }
    if exists i :: 0 <= i < |list| && DatedOn(list[i], date) {
      var i :| 0 <= i < |list| && DatedOn(list[i], date);
      assert list[i] in OnDate(list, date);
    }
  }

  /**
   * The day selection of App.get_weather: "tomorrow" picks the entry at index
   * n / 2 of the n records dated tomorrow, a record of the list that is dated
   * tomorrow; any other day picks the first entry.
   */
  lemma PickForecastSpec(list: seq<Forecast>, day: string, tomorrow: string)
    requires day == Tomorrow ==> OnDate(list, tomorrow) != []
    requires day != Tomorrow ==> |list| > 0
    ensures day == Tomorrow ==>
      var dated := OnDate(list, tomorrow);
      && PickForecast(list, day, tomorrow) == dated[|dated| / 2]
      && PickForecast(list, day, tomorrow) in list
      && DatedOn(PickForecast(list, day, tomorrow), tomorrow)
    ensures day != Tomorrow ==> PickForecast(list, day, tomorrow) == list[0]
  {
    OnDateMembers(list, tomorrow);
    if day == Tomorrow {
      var dated := OnDate(list, tomorrow);
      assert dated[|dated| / 2] in dated;
    }
  }

  /** A price is the "free" marker exactly when the block had no price tag. */
  lemma FreeIffNoPrice(price: Option<string>)
    ensures FormatPrice(price) == Free <==> price.None?
    ensures price.Some? ==> FormatPrice(price) == Strip(price.value) + " p"
  {
    if price.Some? {
      var r := FormatPrice(price);
      assert r[|r| - 1] == 'p';
    }
  }

  /**
   * The events list App.get_events returns: at most five entries, the first
   * blocks of the listing in listing order, each with a stripped title, its
   * price text and an absolute link.
   */
  lemma TopEventsSpec(listing: seq<RawEvent>)
    ensures |TopEvents(listing)| <= 5
    ensures |TopEvents(listing)| == 5 || TopEvents(listing) == seq(|listing|, i requires 0 <= i < |listing| => ShapeEvent(listing[i]))
    ensures forall i :: 0 <= i < |TopEvents(listing)| ==>
      var e := TopEvents(listing)[i];
      && e.title == Strip(listing[i].title)
      && e.price == FormatPrice(listing[i].price)
      && e.link == BaseUrl + listing[i].href
  {
  }

  /** Cutting a list of all the shaped blocks at five, as `events[:5]` does, gives `TopEvents`. */
  lemma TakeFiveShaped(listing: seq<RawEvent>, shaped: seq<Event>)
    requires |shaped| == |listing|
    requires forall k :: 0 <= k < |listing| ==> shaped[k] == ShapeEvent(listing[k])
    ensures (if |shaped| < 5 then shaped else shaped[..5]) == TopEvents(listing)
  {
  }

  /** The keys of `Assign(xs, key, val)` are exactly the keys of the elements. */
  lemma {:induction false} AssignKeys<A, K, V>(xs: seq<A>, key: A -> K, val: A -> V, k: K)
    ensures k in Assign(xs, key, val) <==> exists i :: 0 <= i < |xs| && key(xs[i]) == k
    decreases |xs|
  {
    if xs != [] {
      var n := |xs| - 1;
      var init := xs[..n];
      AssignKeys(init, key, val, k);
      if exists i :: 0 <= i < |xs| && key(xs[i]) == k {
        var i :| 0 <= i < |xs| && key(xs[i]) == k;
        if i < n {
          assert init[i] == xs[i];
        }
      }
      if exists i :: 0 <= i < |init| && key(init[i]) == k {
        var i :| 0 <= i < |init| && key(init[i]) == k;
        assert init[i] == xs[i];
      }
    }
  }

  /** Each key of `Assign(xs, key, val)` holds the value of the last element with that key. */
  lemma {:induction false} AssignLastWins<A, K, V>(xs: seq<A>, key: A -> K, val: A -> V, i: nat)
    requires i < |xs|
    requires forall j :: i < j < |xs| ==> key(xs[j]) != key(xs[i])
    ensures key(xs[i]) in Assign(xs, key, val)
    ensures Assign(xs, key, val)[key(xs[i])] == val(xs[i])
    decreases |xs|
  {
    if i < |xs| - 1 {
      var init := xs[..|xs| - 1];
      assert init[i] == xs[i];
      AssignLastWins(init, key, val, i);
    }
  }

  /** A city is in the catalog exactly when some anchor's stripped, lower-cased text is that city. */
  lemma CatalogKeys(links: seq<CityLink>, city: string)
    ensures city in Catalog(links) <==> exists i :: 0 <= i < |links| && CatalogKey(links[i]) == city
  {
    AssignKeys(links, CatalogKey, CatalogSlug, city);
  }

  /** Each city maps to the href, slashes removed, of the last anchor with that city. */
  lemma CatalogLastWins(links: seq<CityLink>, i: nat)
    requires i < |links|
    requires forall j :: i < j < |links| ==> CatalogKey(links[j]) != CatalogKey(links[i])
    ensures CatalogKey(links[i]) in Catalog(links)
    ensures Catalog(links)[CatalogKey(links[i])] == RemoveSlashes(links[i].href)
  {
    AssignLastWins(links, CatalogKey, CatalogSlug, i);
  }

  /** Every key is normalized text and no value holds a slash. */
  lemma {:induction false} CatalogWellFormed(links: seq<CityLink>)
    ensures forall key :: key in Catalog(links) ==> Normalize(key) == key && '/' !in Catalog(links)[key]
    decreases |links|
  {
    if links != [] {
      CatalogWellFormed(links[..|links| - 1]);
      NormalizeIdempotent(links[|links| - 1].text);
    }
  }
}

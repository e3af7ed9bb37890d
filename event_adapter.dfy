/**
 * `EventAdapter`: one feed row per event, with fallbacks for an empty title
 * or description, a placeholder for a missing banner, "Time not available"
 * without both times, and a distance of 0 for an event with no location.
 */
module FeedAdapter {
  import opened Wrappers
  import opened Text
  import opened Documents
  import opened EventSchema
  import opened PostEvent

  const UntitledText: string := "Untitled Event"
  const NoDescriptionText: string := "No description available"
  const NoTimeText: string := "Time not available"

  /** What `onBindViewHolder` writes into a row; `banner == None` is the placeholder image. */
  datatype Row = Row(
    banner: Option<string>, title: string, description: string,
    dateText: string, distanceText: string, clicked: Event)

  /** `ifEmpty`: the text, or the fallback when the text is empty. */
  function OrElse(text: string, fallback: string): (r: string)
    ensures text != "" ==> r == text
    ensures text == "" ==> r == fallback
  {
    if text == "" then fallback else text
  }

  /** The banner is loaded only from a URL that is neither blank nor `"."`. */
  function BannerFor(e: Event): (url: Option<string>)
    ensures url.Some? <==> !IsBlank(e.bannerUrl) && e.bannerUrl != "."
    ensures url.Some? ==> url.value == e.bannerUrl
  {
    if !IsBlank(e.bannerUrl) && e.bannerUrl != "." then Some(e.bannerUrl) else None
  }

  /** `formatTime`: both times through the formatter, or the fallback when either is `null`. */
  function FormatTime(start: Option<Timestamp>, end: Option<Timestamp>, format: Timestamp -> string): (s: string)
    ensures start.None? || end.None? ==> s == NoTimeText
    ensures start.Some? && end.Some? ==> s == format(start.value) + " - " + format(end.value)
  {
    if start.None? || end.None? then NoTimeText
    else format(start.value) + " - " + format(end.value)
  }

  /** The distance to an event: the great-circle distance from the user, or 0 without a location. */
  function Distance(e: Event, userLat: real, userLng: real, haversine: (real, real, real, real) -> real): (d: real)
    ensures e.geoLocation.None? ==> d == 0.0
    ensures e.geoLocation.Some? ==>
      d == haversine(userLat, userLng, e.geoLocation.value.latitude, e.geoLocation.value.longitude)
  {
    match e.geoLocation
    case Some(p) => haversine(userLat, userLng, p.latitude, p.longitude)
    case None => 0.0
  }

  /**
   * The adapter over the feed's list and the user's coordinates. `haversine`
   * is the distance formula, `oneDecimal` is `"%.1f".format`, `format` the
   * date formatter.
   */
  datatype Adapter = Adapter(events: seq<Event>, userLat: real, userLng: real) {

    /** `getItemCount`. */
    function ItemCount(): (n: nat)
      ensures n == |events|
    {
      |events|
    }

    /** `onBindViewHolder(holder, position)`. */
    function Bind(position: nat, haversine: (real, real, real, real) -> real,
                  oneDecimal: real -> string, format: Timestamp -> string): (row: Row)
      requires position < ItemCount()
      ensures row.clicked == events[position]
      ensures row.title == OrElse(events[position].title, UntitledText)
      ensures row.description == OrElse(events[position].description, NoDescriptionText)
      ensures row.banner == BannerFor(events[position])
      ensures row.dateText == FormatTime(events[position].startTime, events[position].endTime, format)
      ensures row.distanceText == events[position].address + " \U{2022} "
        + oneDecimal(Distance(events[position], userLat, userLng, haversine)) + " km away"
    {
      var e := events[position];
      var distance := Distance(e, userLat, userLng, haversine);
      Row(banner := BannerFor(e),
          title := OrElse(e.title, UntitledText),
          description := OrElse(e.description, NoDescriptionText),
          dateText := FormatTime(e.startTime, e.endTime, format),
          distanceText := e.address + " \U{2022} " + oneDecimal(distance) + " km away",
          clicked := e)
    }
  }

  /** No row shows an empty title or an empty description. */
  lemma RowTextsNeverEmpty(a: Adapter, i: nat, haversine: (real, real, real, real) -> real,
                           oneDecimal: real -> string, format: Timestamp -> string)
    requires i < a.ItemCount()
    ensures var row := a.Bind(i, haversine, oneDecimal, format);
      row.title != "" && row.description != ""
  {
  }

  /** A row of an event without a location reports it 0 km away. */
  lemma NoLocationIsZeroAway(a: Adapter, i: nat, haversine: (real, real, real, real) -> real,
                             oneDecimal: real -> string, format: Timestamp -> string)
    requires i < a.ItemCount() && a.events[i].geoLocation.None?
    ensures a.Bind(i, haversine, oneDecimal, format).distanceText
            == a.events[i].address + " \U{2022} " + oneDecimal(0.0) + " km away"
  {
  }

  /**
   * An event posted by the creation screen shows its own title and
   * description, both of its times, and its distance from the user.
   */
  lemma PostedEventRow(a: Adapter, i: nat, haversine: (real, real, real, real) -> real,
                       oneDecimal: real -> string, format: Timestamp -> string)
    requires i < a.ItemCount() && Creatable(a.events[i])
    ensures var e := a.events[i];
      var row := a.Bind(i, haversine, oneDecimal, format);
      && row.title == e.title && row.description == e.description
      && row.dateText == format(e.startTime.value) + " - " + format(e.endTime.value)
      && row.distanceText == e.address + " \U{2022} "
           + oneDecimal(haversine(a.userLat, a.userLng, e.geoLocation.value.latitude, e.geoLocation.value.longitude))
           + " km away"
  {
  }
}

/**
 * `EventDetailsActivity`: shows one event document with defaults for missing
 * fields, marks the register button when the user already takes part,
 * registers by a set-union on the participants field, and hands the event's
 * location to a navigation app.
 */
module EventDetails {
  import opened Wrappers
  import opened Documents
  import opened EventSchema

  /** What the screen fills in from the document. */
  datatype DetailsView = DetailsView(
    title: string, description: string, address: string, category: string,
    bannerUrl: Option<string>, participants: seq<string>, dateTimeText: string)

  /** A navigation hand-off: the `geo:` URI for OsmAnd, or the web map when OsmAnd is missing. */
  datatype NavIntent = OsmAnd(uri: string) | Browser(uri: string)

  /** The field `registerForEvent` updates. */
  const RegistrationField: string := "Participants"

  const RegisteredLabel: string := "Registered"

  /** A start or end time as shown: formatted, or "N/A" when the document has none. */
  function TimeText(t: Option<Timestamp>, format: Timestamp -> string): (s: string)
    ensures t.None? ==> s == "N/A"
    ensures t.Some? ==> s == format(t.value)
  {
    match t
    case Some(x) => format(x)
    case None => "N/A"
  }

  /** `loadEventDetails`: each field read under its stored key, with `""`, `null` or an empty list as default. */
  function ExtractView(doc: Document, format: Timestamp -> string): (v: DetailsView)
    ensures "Title" !in doc ==> v.title == ""
    ensures "Description" !in doc ==> v.description == ""
    ensures "Address" !in doc ==> v.address == ""
    ensures "Category" !in doc ==> v.category == ""
    ensures "Participants" !in doc ==> v.participants == []
    ensures "startTime" !in doc ==> v.dateTimeText == "From: N/A\nTo: " + TimeText(GetTimestamp(doc, "endTime"), format)
  {
    DetailsView(
      title := GetString(doc, "Title").GetOr(""),
      description := GetString(doc, "Description").GetOr(""),
      address := GetString(doc, "Address").GetOr(""),
      category := GetString(doc, "Category").GetOr(""),
      bannerUrl := GetString(doc, "bannerurl"),
      participants := GetStringList(doc, "Participants").GetOr([]),
      dateTimeText := "From: " + TimeText(GetTimestamp(doc, "startTime"), format)
                      + "\nTo: " + TimeText(GetTimestamp(doc, "endTime"), format))
  }

  /** The banner is loaded only from a non-null, non-empty URL. */
  function BannerToLoad(v: DetailsView): (url: Option<string>)
    ensures url.Some? <==> v.bannerUrl.Some? && v.bannerUrl.value != ""
    ensures url.Some? ==> url == v.bannerUrl
  {
    if v.bannerUrl.Some? && v.bannerUrl.value != "" then v.bannerUrl else None
  }

  /** The register button shows "Registered" exactly for a signed-in participant. */
  predicate IsRegistered(uid: Option<string>, participants: seq<string>) {
    uid.Some? && uid.value in participants
  }

  /**
   * Firestore's `FieldValue.arrayUnion(x)` on a list: `x` is appended unless
   * it is already there.
   */
  function UnionWith(list: seq<string>, x: string): (r: seq<string>)
    ensures forall y :: y in r <==> y in list || y == x
    ensures x in list ==> r == list
    ensures x !in list ==> r == list + [x]
  {
    if x in list then list else list + [x]
  }

  /**
   * The document after `update("Participants", arrayUnion(uid))`: a field that
   * is not a list, or is missing, becomes the one-element list.
   */
  function RegisterUpdate(doc: Document, uid: string): (d: Document)
    ensures d.Keys == doc.Keys + {RegistrationField}
    ensures forall k :: k in doc && k != RegistrationField ==> d[k] == doc[k]
    ensures d[RegistrationField] == StrList(UnionWith(GetStringList(doc, RegistrationField).GetOr([]), uid))
  {
    var current := GetStringList(doc, RegistrationField).GetOr([]);
    doc[RegistrationField := StrList(UnionWith(current, uid))]
  }

  /** Registration writes the same key the `Event` schema stores participants under. */
  lemma RegistrationFieldIsSchemaKey()
    ensures RegistrationField == ParticipantsKey && RegistrationField in StoredKeys
  {
  }

  /** Registering twice is registering once. */
  lemma RegisterIdempotent(doc: Document, uid: string)
    ensures RegisterUpdate(RegisterUpdate(doc, uid), uid) == RegisterUpdate(doc, uid)
  {
    var once := RegisterUpdate(doc, uid);
    assert GetStringList(once, RegistrationField).GetOr([]) == UnionWith(GetStringList(doc, RegistrationField).GetOr([]), uid);
  }

  /** Registering on an event with no participants, once or twice, leaves exactly that user. */
  lemma RegisterTwiceOnEmptyEvent(doc: Document, uid: string)
    requires RegistrationField !in doc
    ensures RegisterUpdate(RegisterUpdate(doc, uid), uid)[RegistrationField] == StrList([uid])
  {
    RegisterIdempotent(doc, uid);
  }

  /** After a registration, loading the same document shows the user as registered. */
  lemma RegisteredAfterUpdate(doc: Document, uid: string, format: Timestamp -> string)
    ensures IsRegistered(Some(uid), ExtractView(RegisterUpdate(doc, uid), format).participants)
  {
    var d := RegisterUpdate(doc, uid);
    assert GetStringList(d, "Participants") == Some(UnionWith(GetStringList(doc, RegistrationField).GetOr([]), uid));
  }

  /** The detail screen shows exactly what an `Event` stored with `set(event)` holds. */
  lemma ViewOfStoredEvent(e: Event, format: Timestamp -> string)
    ensures var v := ExtractView(Encode(e), format);
      && v.title == e.title && v.description == e.description
      && v.address == e.address && v.category == e.category
      && v.bannerUrl == Some(e.bannerUrl) && v.participants == e.participants
      && v.dateTimeText == "From: " + TimeText(e.startTime, format) + "\nTo: " + TimeText(e.endTime, format)
  {
    var doc := Encode(e);
    assert GetTimestamp(doc, "startTime") == e.startTime;
    assert GetTimestamp(doc, "endTime") == e.endTime;
  }

  /** A newly posted event (no participants) shows nobody as registered. */
  lemma FreshEventShowsUnregistered(e: Event, uid: Option<string>, format: Timestamp -> string)
    requires e.participants == []
    ensures !IsRegistered(uid, ExtractView(Encode(e), format).participants)
  {
    ViewOfStoredEvent(e, format);
  }

  class EventDetailsActivity {
    var eventId: Option<string>
    var eventLat: Option<real>
    var eventLng: Option<real>
    var view: Option<DetailsView>
    var registerEnabled: bool
    var registerLabel: string
    /** Navigation activities started, in order. */
    var started: seq<NavIntent>

    /** `onCreate` with the intent's `eventId` extra and the button's initial label. */
    constructor (eventId: Option<string>, initialLabel: string)
      ensures this.eventId == eventId && eventLat == None && eventLng == None && view == None
      ensures registerEnabled && registerLabel == initialLabel && started == []
    {
      this.eventId := eventId;
      eventLat, eventLng, view := None, None, None;
      registerEnabled, registerLabel := true, initialLabel;
      started := [];
    }

    /** `setRegisteredState`: button disabled and labelled "Registered". */
    method SetRegisteredState()
      modifies this`registerEnabled, this`registerLabel
      ensures !registerEnabled && registerLabel == RegisteredLabel
    {
      registerEnabled := false;
      registerLabel := RegisteredLabel;
    }

    /**
     * `loadEventDetails`' success listener: an existing document fills the view
     * and the point, and marks the button when the user takes part; a missing
     * document or a failed read changes nothing.
     */
    method LoadEventDetails(lookup: Lookup, uid: Option<string>, format: Timestamp -> string)
      modifies this
      ensures lookup.Exists? ==>
        var v := ExtractView(lookup.doc, format);
        var p := GetGeoPoint(lookup.doc, "geolocation");
        && view == Some(v)
        && eventLat == (if p.Some? then Some(p.value.latitude) else None)
        && eventLng == (if p.Some? then Some(p.value.longitude) else None)
        && (IsRegistered(uid, v.participants) ==> !registerEnabled && registerLabel == RegisteredLabel)
        && (!IsRegistered(uid, v.participants) ==>
              registerEnabled == old(registerEnabled) && registerLabel == old(registerLabel))
      ensures !lookup.Exists? ==>
        view == old(view) && eventLat == old(eventLat) && eventLng == old(eventLng)
        && registerEnabled == old(registerEnabled) && registerLabel == old(registerLabel)
      ensures eventId == old(eventId) && started == old(started)
    {
      if lookup.Exists? {
        var doc := lookup.doc;
        var v := ExtractView(doc, format);
        view := Some(v);
        var p := GetGeoPoint(doc, "geolocation");
        eventLat := if p.Some? then Some(p.value.latitude) else None;
        eventLng := if p.Some? then Some(p.value.longitude) else None;
        if uid.Some? && uid.value in v.participants {
          SetRegisteredState();
        }
      }
    }

    /**
     * `registerForEvent`: with a signed-in user and an event id, the store's
     * document gets the union update; the button flips only when the write
     * succeeds (a missing document or a failed call leaves everything as it was).
     */
    method RegisterForEvent(uid: Option<string>, store: map<string, Document>, writeSucceeds: bool)
      returns (store': map<string, Document>)
      modifies this`registerEnabled, this`registerLabel
      ensures uid.Some? && eventId.Some? && eventId.value in store && writeSucceeds ==>
        store' == store[eventId.value := RegisterUpdate(store[eventId.value], uid.value)]
        && !registerEnabled && registerLabel == RegisteredLabel
      ensures !(uid.Some? && eventId.Some? && eventId.value in store && writeSucceeds) ==>
        store' == store && registerEnabled == old(registerEnabled) && registerLabel == old(registerLabel)
    {
      store' := store;
      if uid.None? {
        return;
      }
      if eventId.Some? {
        var id := eventId.value;
        if id in store && writeSucceeds {
          store' := store[id := RegisterUpdate(store[id], uid.value)];
          SetRegisteredState();
        }
      }
    }

    /** `navigateToEvent`'s choice of intent; `show` is `Double.toString`. */
    function NavigationIntent(osmandInstalled: bool, show: real -> string): (i: Option<NavIntent>)
      reads this
      ensures i.Some? <==> eventLat.Some? && eventLng.Some?
      ensures i.Some? && osmandInstalled ==>
        i.value == OsmAnd("geo:" + show(eventLat.value) + "," + show(eventLng.value))
      ensures i.Some? && !osmandInstalled ==>
        var lat, lng := show(eventLat.value), show(eventLng.value);
        i.value == Browser("https://www.openstreetmap.org/?mlat=" + lat + "&mlon=" + lng
                           + "#map=15/" + lat + "/" + lng)
    {
      if eventLat.Some? && eventLng.Some? then
        var lat := show(eventLat.value);
        var lng := show(eventLng.value);
        if osmandInstalled then Some(OsmAnd("geo:" + lat + "," + lng))
        else Some(Browser("https://www.openstreetmap.org/?mlat=" + lat + "&mlon=" + lng
                          + "#map=15/" + lat + "/" + lng))
      else None
    }

    /** `navigateToEvent`: starts nothing unless the event has both coordinates. */
    method NavigateToEvent(osmandInstalled: bool, show: real -> string)
      modifies this`started
      ensures var i := NavigationIntent(osmandInstalled, show);
        started == old(started) + (if i.Some? then [i.value] else [])
    {
      var i := NavigationIntent(osmandInstalled, show);
      if i.Some? {
        started := started + [i.value];
      }
    }
  }
}

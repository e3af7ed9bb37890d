/**
 * `HomeFragment`: the feed. The user's coordinates come from the fragment's
 * arguments when both are non-zero, and otherwise from their profile
 * document; the event list is then rebuilt in place from the `events`
 * collection, keeping every document that converts, in fetch order.
 */
module HomeFeed {
  import opened Wrappers
  import opened Documents
  import opened EventSchema
  import opened Onboarding
  import opened LocationPicker
  import FeedAdapter

  /** The events of a fetched collection, in fetch order: every document that converts. */
  function Feed(docs: seq<Document>): seq<Event>
    decreases |docs|
  {
    if docs == [] then []
    else
      var n := |docs| - 1;
      var e := Decode(docs[n]);
      Feed(docs[..n]) + (if e.Some? then [e.value] else [])
  }

  lemma {:induction false} FeedAppend(a: seq<Document>, b: seq<Document>)
    ensures Feed(a + b) == Feed(a) + Feed(b)
    decreases |b|
  {
    if b == [] {
      assert a + b == a;
    } else {
      var n := |b| - 1;
      assert (a + b)[..|a + b| - 1] == a + b[..n];
      FeedAppend(a, b[..n]);
    }
  }

  /** An event is in the feed exactly when some fetched document converts to it. */
  lemma {:induction false} FeedMembership(docs: seq<Document>, e: Event)
    ensures e in Feed(docs) <==> exists i :: 0 <= i < |docs| && Decode(docs[i]) == Some(e)
    decreases |docs|
  {
    if docs != [] {
      var n := |docs| - 1;
      FeedMembership(docs[..n], e);
      if e in Feed(docs) && e !in Feed(docs[..n]) {
        assert Decode(docs[n]) == Some(e);
      }
      if exists i :: 0 <= i < |docs| && Decode(docs[i]) == Some(e) {
        var i :| 0 <= i < |docs| && Decode(docs[i]) == Some(e);
        if i < n {
          assert docs[..n][i] == docs[i];
        }
      }
    }
  }

  /** Documents that each convert, in order, are shown as exactly their events. */
  lemma {:induction false} FeedOfConverting(es: seq<Event>, docs: seq<Document>)
    requires |docs| == |es|
    requires forall i :: 0 <= i < |es| ==> Decode(docs[i]) == Some(es[i])
    ensures Feed(docs) == es
    decreases |es|
  {
    if es != [] {
      var n := |es| - 1;
      assert forall i :: 0 <= i < n ==> docs[..n][i] == docs[i] && es[..n][i] == es[i];
      FeedOfConverting(es[..n], docs[..n]);
      assert es[..n] + [es[n]] == es;
    }
  }

  /**
   * A collection of stored events is shown as exactly those events, in the
   * order they were fetched: nothing is dropped, added or sorted.
   */
  lemma FeedOfStoredEvents(es: seq<Event>, docs: seq<Document>)
    requires |docs| == |es|
    requires forall i :: 0 <= i < |es| ==> docs[i] == Encode(es[i])
    ensures Feed(docs) == es
  {
    forall i | 0 <= i < |es|
      ensures Decode(docs[i]) == Some(es[i])
    {
      EncodeDecode(es[i]);
    }
    FeedOfConverting(es, docs);
  }

  /** A document whose fields have the wrong types is left out of the feed. */
  lemma IllTypedDocumentIsSkipped(docs: seq<Document>, bad: Document)
    requires !WellTyped(bad)
    ensures Feed(docs + [bad]) == Feed(docs)
  {
    DecodeSucceedsIffWellTyped(bad);
    FeedAppend(docs, [bad]);
    assert [bad][..0] == [];
  }

  /** The coordinate a profile read as written produces: `getDouble(key) ?: 0.0` under the keys `"lat"`/`"lng"`. */
  function CoordinatesAsWritten(argLat: real, argLng: real, uid: Option<string>, lookup: Lookup): (c: (real, real))
    ensures argLat != 0.0 && argLng != 0.0 ==> c == (argLat, argLng)
    ensures !(argLat != 0.0 && argLng != 0.0) && (uid.None? || !lookup.Exists?) ==> c == (0.0, 0.0)
    ensures !(argLat != 0.0 && argLng != 0.0) && uid.Some? && lookup.Exists? ==>
      c == (GetDouble(lookup.doc, "lat").GetOr(0.0), GetDouble(lookup.doc, "lng").GetOr(0.0))
  {
    if argLat != 0.0 && argLng != 0.0 then (argLat, argLng)
    else if uid.None? then (0.0, 0.0)
    else match lookup
      case Exists(doc) => (GetDouble(doc, "lat").GetOr(0.0), GetDouble(doc, "lng").GetOr(0.0))
      case _ => (0.0, 0.0)
  }

  /** As written, the feed never sees the coordinates the onboarding form saved. */
  lemma AsWrittenIgnoresSavedProfile(u: UserRecord, uid: string)
    ensures CoordinatesAsWritten(0.0, 0.0, Some(uid), Exists(UserDocument(u))) == (0.0, 0.0)
  {
  }

  /** A concrete instance: a profile saved at (12.97, 77.59) is read as (0, 0). */
  lemma AsWrittenLosesBangalore()
    ensures var u := UserRecord("u1", "asha", 25, "9876543210", "12.97, 77.59", "MG Road",
                                12.97, 77.59, ["Cricket"], None);
      CoordinatesAsWritten(0.0, 0.0, Some("u1"), Exists(UserDocument(u))) != (u.latitude, u.longitude)
  {
  }

  /**
   * `getUserLocation` reading the keys the profile screens write: the
   * arguments when both are non-zero, else the profile's coordinates, with
   * 0 for a missing user, document, field or read.
   */
  function Coordinates(argLat: real, argLng: real, uid: Option<string>, lookup: Lookup): (c: (real, real))
    ensures argLat != 0.0 && argLng != 0.0 ==> c == (argLat, argLng)
    ensures !(argLat != 0.0 && argLng != 0.0) && (uid.None? || !lookup.Exists?) ==> c == (0.0, 0.0)
    ensures !(argLat != 0.0 && argLng != 0.0) && uid.Some? && lookup.Exists? ==>
      c == (GetDouble(lookup.doc, "latitude").GetOr(0.0), GetDouble(lookup.doc, "longitude").GetOr(0.0))
  {
    if argLat != 0.0 && argLng != 0.0 then (argLat, argLng)
    else if uid.None? then (0.0, 0.0)
    else match lookup
      case Exists(doc) => (GetDouble(doc, "latitude").GetOr(0.0), GetDouble(doc, "longitude").GetOr(0.0))
      case _ => (0.0, 0.0)
  }

  /** The feed reads back the coordinates the onboarding form saved. */
  lemma SavedProfileCoordinates(u: UserRecord, uid: string)
    ensures Coordinates(0.0, 0.0, Some(uid), Exists(UserDocument(u))) == (u.latitude, u.longitude)
  {
  }

  /** The feed reads back the point the location picker saved. */
  lemma PickedLocationCoordinates(doc: Document, p: GeoPoint, address: string, uid: string)
    ensures Coordinates(0.0, 0.0, Some(uid), Exists(LocationUpdate(doc, p, address))) == (p.latitude, p.longitude)
  {
    LocationUpdateReadsBack(doc, p, address);
  }

  class HomeFragment {
    var userLat: real
    var userLng: real
    /** The mutable list the adapter shows. */
    var events: seq<Event>
    /** The coordinates the adapter was created with, once `getUserLocation` has answered. */
    var adapterLocation: Option<(real, real)>

    /** `onCreate`: `getDouble("userLat", 0.0)` and `getDouble("userLng", 0.0)` of the arguments, if any. */
    constructor (arguments: Option<map<string, real>>)
      ensures arguments.Some? && "userLat" in arguments.value ==> userLat == arguments.value["userLat"]
      ensures arguments.Some? && "userLng" in arguments.value ==> userLng == arguments.value["userLng"]
      ensures !(arguments.Some? && "userLat" in arguments.value) ==> userLat == 0.0
      ensures !(arguments.Some? && "userLng" in arguments.value) ==> userLng == 0.0
      ensures events == [] && adapterLocation == None
    {
      userLat, userLng := 0.0, 0.0;
      if arguments.Some? {
        var args := arguments.value;
        if "userLat" in args { userLat := args["userLat"]; }
        if "userLng" in args { userLng := args["userLng"]; }
      }
      events, adapterLocation := [], None;
    }

    /** The adapter: it shares the fragment's list, so it always shows the current `events`. */
    function Adapter(): FeedAdapter.Adapter
      reads this
      requires adapterLocation.Some?
    {
      FeedAdapter.Adapter(events, adapterLocation.value.0, adapterLocation.value.1)
    }

    /** `getUserLocation`: the coordinates the callback receives, read under `"lat"`/`"lng"` as the fragment does. */
    method GetUserLocation(uid: Option<string>, lookup: Lookup) returns (lat: real, lng: real)
      ensures (lat, lng) == CoordinatesAsWritten(userLat, userLng, uid, lookup)
    {
      if userLat != 0.0 && userLng != 0.0 {
        return userLat, userLng;
      }
      if uid.None? {
        return 0.0, 0.0;
      }
      match lookup {
        case Exists(doc) =>
          lat := GetDouble(doc, "lat").GetOr(0.0);
          lng := GetDouble(doc, "lng").GetOr(0.0);
        case _ =>
          lat, lng := 0.0, 0.0;
      }
    }

    /**
     * `loadEvents`: on success the list is cleared and refilled with each
     * document that converts, in order; on failure it is left unchanged.
     */
    method LoadEvents(result: Option<seq<Document>>)
      modifies this`events
      ensures result.Some? ==> events == Feed(result.value)
      ensures result.None? ==> events == old(events)
    {
      if result.Some? {
        var docs := result.value;
        events := [];
        var i := 0;
        while i < |docs|
          invariant 0 <= i <= |docs|
          invariant events == Feed(docs[..i])
        {
          var e := Decode(docs[i]);
          if e.Some? {
            events := events + [e.value];
          }
          assert docs[..i + 1][..i] == docs[..i];
          i := i + 1;
        }
        assert docs[..i] == docs;
      }
    }

    /** `onCreateView`: once the coordinates are known, the adapter is created and the events loaded. */
    method OnCreateView(uid: Option<string>, lookup: Lookup, result: Option<seq<Document>>)
      modifies this
      ensures adapterLocation == Some(CoordinatesAsWritten(old(userLat), old(userLng), uid, lookup))
      ensures result.Some? ==> events == Feed(result.value)
      ensures result.None? ==> events == old(events)
      ensures userLat == old(userLat) && userLng == old(userLng)
    {
      var lat, lng := GetUserLocation(uid, lookup);
      adapterLocation := Some((lat, lng));
      LoadEvents(result);
    }

    /** Clicking row `i` opens the detail screen for that row's event id. */
    method OnItemClick(i: nat) returns (eventId: string)
      requires adapterLocation.Some? && i < Adapter().ItemCount()
      ensures eventId == events[i].eventId
    {
      eventId := events[i].eventId;
    }
  }
}

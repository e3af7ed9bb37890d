/**
 * `LocationActivity`: the screen where a user picks their home location. The
 * first GPS fix, a map tap or a typed address sets the selection and puts a
 * single "Selected Location" marker on the map; saving updates the latitude,
 * longitude and address of the user's profile document.
 */
module LocationPicker {
  import opened Wrappers
  import opened Text
  import opened Documents

  // Android constants used by the screen.
  const ImeActionSearch: int := 3
  const ImeActionDone: int := 6

  const MarkerTitle: string := "Selected Location"

  // The toasts the screen shows.
  const UpdatedToast: string := "Location updated on map"
  const NotFoundToast: string := "Could not find location"
  const SelectToast: string := "Please select a location"
  const SavedToast: string := "Location saved!"

  /** The map's overlays: the GPS overlay, the tap receiver, and markers. */
  datatype Overlay = MyLocation | MapEvents | Marker(position: GeoPoint, title: string)

  /** `overlays.removeAll { it is Marker }`: every non-marker overlay, in its order. */
  function WithoutMarkers(overlays: seq<Overlay>): (r: seq<Overlay>)
    ensures forall o :: o in r <==> o in overlays && !o.Marker?
    ensures |r| <= |overlays|
    decreases |overlays|
  {
    if overlays == [] then []
    else
      var n := |overlays| - 1;
      WithoutMarkers(overlays[..n]) + (if overlays[n].Marker? then [] else [overlays[n]])
  }

  function MarkerCount(overlays: seq<Overlay>): nat
    decreases |overlays|
  {
    if overlays == [] then 0
    else
      var n := |overlays| - 1;
      MarkerCount(overlays[..n]) + (if overlays[n].Marker? then 1 else 0)
  }

  /** `addMarker(point)`: the old markers removed and one marker at `point` added last. */
  function AddMarker(overlays: seq<Overlay>, point: GeoPoint): seq<Overlay> {
    WithoutMarkers(overlays) + [Marker(point, MarkerTitle)]
  }

  lemma {:induction false} WithoutMarkersHasNone(overlays: seq<Overlay>)
    ensures MarkerCount(WithoutMarkers(overlays)) == 0
    decreases |overlays|
  {
    if overlays != [] {
      var n := |overlays| - 1;
      WithoutMarkersHasNone(overlays[..n]);
      MarkerCountAppend(WithoutMarkers(overlays[..n]), if overlays[n].Marker? then [] else [overlays[n]]);
    }
  }

  lemma {:induction false} MarkerCountAppend(a: seq<Overlay>, b: seq<Overlay>)
    ensures MarkerCount(a + b) == MarkerCount(a) + MarkerCount(b)
    decreases |b|
  {
    if b != [] {
      var n := |b| - 1;
      assert (a + b)[..|a + b| - 1] == a + b[..n];
      MarkerCountAppend(a, b[..n]);
    } else {
      assert a + b == a;
    }
  }

  /** A list without markers is left as it is by `removeAll`. */
  lemma {:induction false} WithoutMarkersOfMarkerFree(overlays: seq<Overlay>)
    requires forall k :: 0 <= k < |overlays| ==> !overlays[k].Marker?
    ensures WithoutMarkers(overlays) == overlays
    decreases |overlays|
  {
    if overlays != [] {
      var n := |overlays| - 1;
      WithoutMarkersOfMarkerFree(overlays[..n]);
      assert overlays[..n] + [overlays[n]] == overlays;
    }
  }

  /**
   * After `addMarker` the map holds exactly one marker, at the new point and
   * last, and the other overlays are those of before, in their order.
   */
  lemma AddMarkerLeavesOneMarker(overlays: seq<Overlay>, point: GeoPoint)
    ensures var r := AddMarker(overlays, point);
      && MarkerCount(r) == 1
      && r[|r| - 1] == Marker(point, MarkerTitle)
      && WithoutMarkers(r) == WithoutMarkers(overlays)
  {
    var r := AddMarker(overlays, point);
    WithoutMarkersHasNone(overlays);
    MarkerCountAppend(WithoutMarkers(overlays), [Marker(point, MarkerTitle)]);
    assert r[..|r| - 1] == WithoutMarkers(overlays);
    var w := WithoutMarkers(overlays);
    forall k | 0 <= k < |w| ensures !w[k].Marker? {
      assert w[k] in w;
    }
    WithoutMarkersOfMarkerFree(w);
  }

  /** Moving the marker twice leaves it where the second move put it. */
  lemma AddMarkerTwice(overlays: seq<Overlay>, p: GeoPoint, q: GeoPoint)
    ensures AddMarker(AddMarker(overlays, p), q) == AddMarker(overlays, q)
  {
    AddMarkerLeavesOneMarker(overlays, p);
  }

  /** `fillAddress`: the first reverse-geocoded address line, if any, replaces the text. */
  function FilledAddress(text: string, addressLines: seq<string>): (r: string)
    ensures |addressLines| > 0 ==> r == addressLines[0]
    ensures |addressLines| == 0 ==> r == text
  {
    if |addressLines| > 0 then addressLines[0] else text
  }

  /**
   * The selection `saveLocation` works with: a non-blank typed address is
   * geocoded only when no point is selected, and only a geocoder hit changes
   * the selection.
   */
  function ResolvedSelection(manual: string, lat: Option<real>, lng: Option<real>,
                             results: seq<GeoPoint>): (r: (Option<real>, Option<real>))
    ensures manual == [] || (lat.Some? && lng.Some?) || |results| == 0 ==> r == (lat, lng)
    ensures manual != [] && (lat.None? || lng.None?) && |results| > 0 ==>
      r == (Some(results[0].latitude), Some(results[0].longitude))
  {
    if manual != [] && (lat.None? || lng.None?) && |results| > 0
    then (Some(results[0].latitude), Some(results[0].longitude))
    else (lat, lng)
  }

  /** What `saveLocation` would store: a point and the trimmed address, or nothing to store. */
  function LocationToSave(manualText: string, lat: Option<real>, lng: Option<real>,
                          results: seq<GeoPoint>): (r: Option<(GeoPoint, string)>)
    ensures r.Some? ==> r.value.1 == Trim(manualText) && r.value.1 != []
    ensures IsBlank(manualText) ==> r.None?
    ensures lat.Some? && lng.Some? && !IsBlank(manualText) ==>
      r == Some((GeoPoint(lat.value, lng.value), Trim(manualText)))
  {
    var manual := Trim(manualText);
    var (la, ln) := ResolvedSelection(manual, lat, lng, results);
    if la.None? || ln.None? || manual == [] then None
    else Some((GeoPoint(la.value, ln.value), manual))
  }

  /** A typed address with no selection is saved at its first geocoder hit, and not at all without one. */
  lemma TypedAddressIsGeocoded(manualText: string, results: seq<GeoPoint>)
    requires !IsBlank(manualText)
    ensures |results| > 0 ==>
      LocationToSave(manualText, None, None, results) == Some((results[0], Trim(manualText)))
    ensures |results| == 0 ==> LocationToSave(manualText, None, None, results).None?
  {
  }

  /** `update(latitude, longitude, address)`: those three fields set, every other field kept. */
  function LocationUpdate(doc: Document, p: GeoPoint, address: string): (d: Document)
    ensures d.Keys == doc.Keys + {"latitude", "longitude", "address"}
    ensures forall k :: k in doc && k !in {"latitude", "longitude", "address"} ==> d[k] == doc[k]
  {
    doc["latitude" := Num(p.latitude)]["longitude" := Num(p.longitude)]["address" := Str(address)]
  }

  /** Reading the updated document back gives the saved point and address. */
  lemma LocationUpdateReadsBack(doc: Document, p: GeoPoint, address: string)
    ensures var d := LocationUpdate(doc, p, address);
      && GetDouble(d, "latitude") == Some(p.latitude)
      && GetDouble(d, "longitude") == Some(p.longitude)
      && GetString(d, "address") == Some(address)
  {
  }

  class LocationActivity {
    var selectedLat: Option<real>
    var selectedLng: Option<real>
    /** The manual-location text box. */
    var manualText: string
    var overlays: seq<Overlay>
    /** Toasts shown, in order, and whether the screen finished. */
    var toasts: seq<string>
    var finished: bool

    /**
     * The two coordinates are set together, the map has at most one marker,
     * and a marker is only shown once a point is selected.
     */
    ghost predicate Valid()
      reads this
    {
      && (selectedLat.Some? <==> selectedLng.Some?)
      && MarkerCount(overlays) <= 1
      && (MarkerCount(overlays) == 1 ==> selectedLat.Some?)
    }

    /** `onCreate`: the GPS overlay and the tap receiver on the map, nothing selected. */
    constructor ()
      ensures Valid()
      ensures selectedLat == None && selectedLng == None && manualText == ""
      ensures overlays == [MyLocation, MapEvents] && toasts == [] && !finished
    {
      selectedLat, selectedLng, manualText := None, None, "";
      overlays := [MyLocation, MapEvents];
      toasts, finished := [], false;
      new;
      assert overlays[..1] == [MyLocation];
    }

    /**
     * The first GPS fix and a map tap: a point moves the marker, becomes the
     * selection and fills the text box with its reverse-geocoded address.
     */
    method SelectPoint(p: Option<GeoPoint>, addressLines: seq<string>)
      requires Valid()
      modifies this`selectedLat, this`selectedLng, this`overlays, this`manualText
      ensures Valid()
      ensures p.Some? ==>
        selectedLat == Some(p.value.latitude) && selectedLng == Some(p.value.longitude)
        && overlays == AddMarker(old(overlays), p.value)
        && manualText == FilledAddress(old(manualText), addressLines)
      ensures p.None? ==>
        selectedLat == old(selectedLat) && selectedLng == old(selectedLng)
        && overlays == old(overlays) && manualText == old(manualText)
    {
      if p.Some? {
        selectedLat := Some(p.value.latitude);
        selectedLng := Some(p.value.longitude);
        AddMarkerLeavesOneMarker(overlays, p.value);
        overlays := AddMarker(overlays, p.value);
        manualText := FilledAddress(manualText, addressLines);
      }
    }

    /** `singleTapConfirmedHelper`: always consumes the tap. */
    method OnSingleTap(p: Option<GeoPoint>, addressLines: seq<string>) returns (handled: bool)
      requires Valid()
      modifies this`selectedLat, this`selectedLng, this`overlays, this`manualText
      ensures Valid() && handled
      ensures p.Some? ==>
        selectedLat == Some(p.value.latitude) && selectedLng == Some(p.value.longitude)
        && overlays == AddMarker(old(overlays), p.value)
        && manualText == FilledAddress(old(manualText), addressLines)
      ensures p.None? ==>
        selectedLat == old(selectedLat) && selectedLng == old(selectedLng)
        && overlays == old(overlays) && manualText == old(manualText)
    {
      SelectPoint(p, addressLines);
      handled := true;
    }

    /**
     * `updateLocationFromManual`: a non-blank text is geocoded; its first hit
     * becomes the selection and the marker, a miss only shows a toast, and a
     * blank text does nothing.
     */
    method UpdateLocationFromManual(results: seq<GeoPoint>)
      requires Valid()
      modifies this`selectedLat, this`selectedLng, this`overlays, this`toasts
      ensures Valid()
      ensures IsBlank(manualText) ==>
        selectedLat == old(selectedLat) && selectedLng == old(selectedLng)
        && overlays == old(overlays) && toasts == old(toasts)
      ensures !IsBlank(manualText) && |results| > 0 ==>
        selectedLat == Some(results[0].latitude) && selectedLng == Some(results[0].longitude)
        && overlays == AddMarker(old(overlays), results[0])
        && toasts == old(toasts) + [UpdatedToast]
      ensures !IsBlank(manualText) && |results| == 0 ==>
        selectedLat == old(selectedLat) && selectedLng == old(selectedLng)
        && overlays == old(overlays) && toasts == old(toasts) + [NotFoundToast]
    {
      var manual := Trim(manualText);
      assert manual == [] <==> IsBlank(manualText);
      if manual != [] {
        if |results| > 0 {
          var point := results[0];
          selectedLat := Some(point.latitude);
          selectedLng := Some(point.longitude);
          AddMarkerLeavesOneMarker(overlays, point);
          overlays := AddMarker(overlays, point);
          toasts := toasts + [UpdatedToast];
        } else {
          toasts := toasts + [NotFoundToast];
        }
      }
    }

    /** The text box's editor action: DONE or SEARCH runs `updateLocationFromManual` and is consumed. */
    method OnManualAction(actionId: int, results: seq<GeoPoint>) returns (consumed: bool)
      requires Valid()
      modifies this`selectedLat, this`selectedLng, this`overlays, this`toasts
      ensures Valid()
      ensures consumed <==> actionId == ImeActionDone || actionId == ImeActionSearch
      ensures !consumed ==>
        selectedLat == old(selectedLat) && selectedLng == old(selectedLng)
        && overlays == old(overlays) && toasts == old(toasts)
      ensures consumed && IsBlank(manualText) ==>
        selectedLat == old(selectedLat) && selectedLng == old(selectedLng)
        && overlays == old(overlays) && toasts == old(toasts)
      ensures consumed && !IsBlank(manualText) && |results| > 0 ==>
        selectedLat == Some(results[0].latitude) && selectedLng == Some(results[0].longitude)
        && overlays == AddMarker(old(overlays), results[0])
        && toasts == old(toasts) + [UpdatedToast]
      ensures consumed && !IsBlank(manualText) && |results| == 0 ==>
        selectedLat == old(selectedLat) && selectedLng == old(selectedLng)
        && overlays == old(overlays) && toasts == old(toasts) + [NotFoundToast]
    {
      if actionId == ImeActionDone || actionId == ImeActionSearch {
        UpdateLocationFromManual(results);
        consumed := true;
      } else {
        consumed := false;
      }
    }

    /**
     * `saveLocation`: without a signed-in user nothing happens. Otherwise the
     * typed address is geocoded when no point is selected; with no point or a
     * blank address the user is asked to select one; else the profile
     * document's latitude, longitude and address are updated, and on success
     * the screen finishes. `results` is what the geocoder returns for the
     * trimmed text; an update of a missing document fails.
     */
    method SaveLocation(uid: Option<string>, results: seq<GeoPoint>, users: map<string, Document>,
                        writeSucceeds: bool, errorMessage: string)
      returns (users': map<string, Document>)
      requires Valid()
      modifies this`selectedLat, this`selectedLng, this`toasts, this`finished
      ensures Valid()
      ensures uid.None? ==>
        users' == users && selectedLat == old(selectedLat) && selectedLng == old(selectedLng)
        && toasts == old(toasts) && finished == old(finished)
      ensures uid.Some? ==>
        (selectedLat, selectedLng) == ResolvedSelection(Trim(manualText), old(selectedLat), old(selectedLng), results)
      ensures var s := LocationToSave(manualText, old(selectedLat), old(selectedLng), results);
        && (uid.Some? && s.None? ==>
              users' == users && toasts == old(toasts) + [SelectToast] && finished == old(finished))
        && (uid.Some? && s.Some? && uid.value in users && writeSucceeds ==>
              users' == users[uid.value := LocationUpdate(users[uid.value], s.value.0, s.value.1)]
              && toasts == old(toasts) + [SavedToast] && finished)
        && (uid.Some? && s.Some? && !(uid.value in users && writeSucceeds) ==>
              users' == users && toasts == old(toasts) + ["Error: " + errorMessage]
              && finished == old(finished))
    {
      users' := users;
      if uid.None? {
        return;
      }
      var manual := Trim(manualText);
      if manual != [] && (selectedLat.None? || selectedLng.None?) {
        if |results| > 0 {
          selectedLat := Some(results[0].latitude);
          selectedLng := Some(results[0].longitude);
        }
      }
      if selectedLat.None? || selectedLng.None? || manual == [] {
        toasts := toasts + [SelectToast];
        return;
      }
      var id := uid.value;
      if id in users && writeSucceeds {
        var p := GeoPoint(selectedLat.value, selectedLng.value);
        users' := users[id := LocationUpdate(users[id], p, manual)];
        toasts := toasts + [SavedToast];
        finished := true;
      } else {
        toasts := toasts + ["Error: " + errorMessage];
      }
    }
  }
}

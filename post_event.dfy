/**
 * `PostEventActivity`: the event-creation screen. Map taps, address
 * geocoding and the submit-time location fix all overwrite one `geoPoint`;
 * submitting runs the permission check, then the location fetch, then the
 * guards of `postEvent`, and only then writes an `Event`.
 */
module PostEvent {
  import opened Wrappers
  import opened Text
  import opened Documents
  import opened EventSchema
  import opened Screens

  /** Where the map starts and the point used when no location fix is available. */
  const DefaultPoint: GeoPoint := GeoPoint(28.6139, 77.2090)

  // Android constants used by the screen.
  const ImeActionSearch: int := 3
  const ImeActionDone: int := 6

  /** What `postEvent` reads from the screen: the four text boxes and the picked values. */
  datatype Form = Form(
    title: string, address: string, category: string, description: string,
    bannerUrl: string, startTime: Option<Timestamp>, endTime: Option<Timestamp>,
    geoPoint: Option<GeoPoint>)

  /** The eight values `postEvent` requires: four non-blank texts, an uploaded banner, two times, a point. */
  predicate Complete(f: Form) {
    && Trim(f.title) != [] && Trim(f.address) != [] && Trim(f.category) != []
    && Trim(f.description) != [] && f.bannerUrl != []
    && f.startTime.Some? && f.endTime.Some? && f.geoPoint.Some?
  }

  /**
   * The record `postEvent` hands to Firestore, or `None` when a guard returns
   * early: an incomplete form, or no signed-in user.
   */
  function Compose(f: Form, uid: Option<string>, eventId: string): (r: Option<Event>)
    ensures r.Some? <==> Complete(f) && uid.Some?
    ensures r.Some? ==> r.value.participants == [] && r.value.organiserId == uid.value
    ensures r.Some? ==> r.value.eventId == eventId && r.value.geoLocation == f.geoPoint
    ensures r.Some? ==>
      r.value.bannerUrl == f.bannerUrl && r.value.startTime == f.startTime && r.value.endTime == f.endTime
    ensures r.Some? ==>
      r.value.title == Trim(f.title) && r.value.description == Trim(f.description)
      && r.value.address == Trim(f.address) && r.value.category == Trim(f.category)
  {
    if !Complete(f) then None
    else if uid.None? then None
    else Some(Event(
      title := Trim(f.title), description := Trim(f.description), bannerUrl := f.bannerUrl,
      address := Trim(f.address), category := Trim(f.category), participants := [],
      eventId := eventId, geoLocation := f.geoPoint, startTime := f.startTime,
      endTime := f.endTime, organiserId := uid.value))
  }

  /** Every record that can be posted satisfies the creation invariant of an `Event`. */
  predicate Creatable(e: Event) {
    && e.geoLocation.Some? && e.startTime.Some? && e.endTime.Some?
    && e.title != [] && e.address != [] && e.category != [] && e.description != []
    && e.bannerUrl != [] && e.participants == []
    && Trim(e.title) == e.title && Trim(e.address) == e.address
    && Trim(e.category) == e.category && Trim(e.description) == e.description
  }

  /** A posted record has a location, both times, non-blank trimmed texts, a banner and no participants. */
  lemma ComposedIsCreatable(f: Form, uid: Option<string>, eventId: string)
    requires Compose(f, uid, eventId).Some?
    ensures Creatable(Compose(f, uid, eventId).value)
  {
    TrimIdempotent(f.title);
    TrimIdempotent(f.address);
    TrimIdempotent(f.category);
    TrimIdempotent(f.description);
  }

  /** The end time is not checked against the start time: an event may end before it starts. */
  lemma EndBeforeStartIsAccepted(uid: string, eventId: string)
    ensures var f := Form("Match", "Park", "Cricket", "Friendly", "https://img",
                          Some(Timestamp(200, 0)), Some(Timestamp(100, 0)), Some(DefaultPoint));
            Compose(f, Some(uid), eventId).Some?
  {
    var f := Form("Match", "Park", "Cricket", "Friendly", "https://img",
                  Some(Timestamp(200, 0)), Some(Timestamp(100, 0)), Some(DefaultPoint));
    NonBlankWord("Match");
    NonBlankWord("Park");
    NonBlankWord("Cricket");
    NonBlankWord("Friendly");
    assert Complete(f);
  }

  lemma NonBlankWord(w: string)
    requires w != [] && 'A' <= w[0] <= 'Z'
    ensures Trim(w) != []
  {
    assert !IsBlank(w) by { assert !IsWhitespace(w[0]); }
  }

  /** The point the submit-time fetch leaves in `geoPoint`: the fix, or the default when it is null. */
  function SubmitPoint(fix: Option<GeoPoint>): (p: GeoPoint)
    ensures fix.Some? ==> p == fix.value
    ensures fix.None? ==> p == DefaultPoint
  {
    fix.GetOr(DefaultPoint)
  }

  class PostEventActivity {
    // Text boxes.
    var titleText: string
    var addressText: string
    var categoryText: string
    var descriptionText: string
    // State the handlers overwrite.
    var markerPosition: GeoPoint
    var startTime: Option<Timestamp>
    var endTime: Option<Timestamp>
    var bannerUrl: string
    var geoPoint: Option<GeoPoint>
    // What the screen has sent out: permission requests and documents written to `events`.
    var permissionRequests: seq<int>
    var written: seq<Event>

    /** `onCreate`: empty form, marker at the default point, nothing chosen. */
    constructor ()
      ensures titleText == addressText == categoryText == descriptionText == ""
      ensures markerPosition == DefaultPoint && geoPoint == None
      ensures startTime == None && endTime == None && bannerUrl == ""
      ensures permissionRequests == [] && written == []
    {
      titleText, addressText, categoryText, descriptionText := "", "", "", "";
      markerPosition := DefaultPoint;
      startTime, endTime, bannerUrl, geoPoint := None, None, "", None;
      permissionRequests, written := [], [];
    }

    function Snapshot(): Form
      reads this
    {
      Form(titleText, addressText, categoryText, descriptionText, bannerUrl, startTime, endTime, geoPoint)
    }

    /** `singleTapConfirmedHelper`: a tapped point moves the marker and becomes `geoPoint`. */
    method OnSingleTap(p: Option<GeoPoint>) returns (handled: bool)
      modifies this
      ensures handled
      ensures p.Some? ==> geoPoint == p && markerPosition == p.value
      ensures p.None? ==> geoPoint == old(geoPoint) && markerPosition == old(markerPosition)
      ensures Snapshot().(geoPoint := old(geoPoint)) == old(Snapshot())
      ensures permissionRequests == old(permissionRequests) && written == old(written)
    {
      if p.Some? {
        markerPosition := p.value;
        geoPoint := p;
      }
      handled := true;
    }

    /** `updateMapFromAddress`: the first geocoder result, if any, becomes `geoPoint`. */
    method UpdateMapFromAddress(results: seq<GeoPoint>)
      modifies this
      ensures |results| > 0 ==> geoPoint == Some(results[0]) && markerPosition == results[0]
      ensures |results| == 0 ==> geoPoint == old(geoPoint) && markerPosition == old(markerPosition)
      ensures Snapshot().(geoPoint := old(geoPoint)) == old(Snapshot())
      ensures permissionRequests == old(permissionRequests) && written == old(written)
    {
      if |results| > 0 {
        markerPosition := results[0];
        geoPoint := Some(results[0]);
      }
    }

    /**
     * The address box's editor action: DONE or SEARCH with a non-blank address
     * geocodes it (`results` is what the geocoder returns for the trimmed text).
     */
    method OnAddressAction(actionId: int, results: seq<GeoPoint>) returns (consumed: bool)
      modifies this
      ensures consumed <==> actionId == ImeActionDone || actionId == ImeActionSearch
      ensures consumed && Trim(addressText) != [] && |results| > 0 ==>
        geoPoint == Some(results[0]) && markerPosition == results[0]
      ensures !consumed || Trim(addressText) == [] || |results| == 0 ==>
        geoPoint == old(geoPoint) && markerPosition == old(markerPosition)
      ensures Snapshot().(geoPoint := old(geoPoint)) == old(Snapshot())
      ensures permissionRequests == old(permissionRequests) && written == old(written)
    {
      if actionId == ImeActionDone || actionId == ImeActionSearch {
        if Trim(addressText) != [] {
          UpdateMapFromAddress(results);
        }
        consumed := true;
      } else {
        consumed := false;
      }
    }

    method OnStartTimePicked(t: Timestamp)
      modifies this`startTime
      ensures startTime == Some(t)
    {
      startTime := Some(t);
    }

    method OnEndTimePicked(t: Timestamp)
      modifies this`endTime
      ensures endTime == Some(t)
    {
      endTime := Some(t);
    }

    /**
     * The upload's `onResponse`: `optString("secure_url")` is the empty string
     * when the field is missing, so a response without it blocks submission.
     */
    method OnUploadResponse(secureUrl: Option<string>)
      modifies this`bannerUrl
      ensures bannerUrl == secureUrl.GetOr("")
      ensures secureUrl.None? ==> !Complete(Snapshot())
    {
      bannerUrl := secureUrl.GetOr("");
    }

    /**
     * `postEvent`: the guards in order, then the record. Returns the record
     * passed to `set`, or `None` when a guard returned early.
     */
    method PostEventRecord(uid: Option<string>, eventId: string) returns (r: Option<Event>)
      ensures r == Compose(Snapshot(), uid, eventId)
      ensures r.Some? <==> Complete(Snapshot()) && uid.Some?
    {
      var title := Trim(titleText);
      var address := Trim(addressText);
      var category := Trim(categoryText);
      var description := Trim(descriptionText);
      if title == [] || address == [] || category == [] || description == [] || bannerUrl == []
        || startTime.None? || endTime.None? || geoPoint.None?
      {
        return None;
      }
      if uid.None? {
        return None;
      }
      r := Some(Event(
        title := title, description := description, bannerUrl := bannerUrl,
        address := address, category := category, participants := [],
        eventId := eventId, geoLocation := geoPoint, startTime := startTime,
        endTime := endTime, organiserId := uid.value));
    }

    /** `postEvent` with its write: an accepted record is handed to `set`. */
    method PostEvent(uid: Option<string>, eventId: string)
      modifies this`written
      ensures var r := Compose(Snapshot(), uid, eventId);
        written == old(written) + (if r.Some? then [r.value] else [])
    {
      var r := PostEventRecord(uid, eventId);
      if r.Some? {
        written := written + [r.value];
      }
    }

    /**
     * `fetchLocationAndPost`: a fix, or the default point when it is null,
     * overwrites `geoPoint` — even one chosen on the map — and then
     * `postEvent` runs; a failed fetch posts nothing.
     */
    method FetchLocationAndPost(location: LocationResult, uid: Option<string>, eventId: string)
      modifies this
      ensures location.LocationFailed? ==>
        geoPoint == old(geoPoint) && written == old(written) && markerPosition == old(markerPosition)
      ensures location.Fix? ==> geoPoint == Some(SubmitPoint(location.location))
      ensures location.Fix? && location.location.Some? ==> markerPosition == location.location.value
      ensures location.Fix? && location.location.None? ==> markerPosition == old(markerPosition)
      ensures location.Fix? ==>
        var r := Compose(Snapshot(), uid, eventId);
        written == old(written) + (if r.Some? then [r.value] else [])
      ensures Snapshot().(geoPoint := old(geoPoint)) == old(Snapshot())
      ensures permissionRequests == old(permissionRequests)
    {
      match location
      case LocationFailed =>
      case Fix(fix) =>
        match fix {
          case Some(p) =>
            geoPoint := Some(p);
            markerPosition := p;
          case None =>
            geoPoint := Some(DefaultPoint);
        }
        PostEvent(uid, eventId);
    }

    /**
     * The post button (`checkLocationPermissionAndFetch`): with neither fine nor
     * coarse permission it requests them under code 1001 and stops.
     */
    method OnPostClicked(fineGranted: bool, coarseGranted: bool, location: LocationResult,
                         uid: Option<string>, eventId: string)
      modifies this
      ensures !fineGranted && !coarseGranted ==>
        permissionRequests == old(permissionRequests) + [LocationRequestCode]
        && written == old(written) && geoPoint == old(geoPoint)
      ensures fineGranted || coarseGranted ==> permissionRequests == old(permissionRequests)
      ensures (fineGranted || coarseGranted) && location.Fix? ==>
        geoPoint == Some(SubmitPoint(location.location))
      ensures (fineGranted || coarseGranted) && location.Fix? && location.location.Some? ==>
        markerPosition == location.location.value
      ensures !((fineGranted || coarseGranted) && location.Fix? && location.location.Some?) ==>
        markerPosition == old(markerPosition)
      ensures (fineGranted || coarseGranted) && location.Fix? ==>
        var r := Compose(Snapshot(), uid, eventId);
        written == old(written) + (if r.Some? then [r.value] else [])
      ensures location.LocationFailed? ==> written == old(written) && geoPoint == old(geoPoint)
      ensures Snapshot().(geoPoint := old(geoPoint)) == old(Snapshot())
    {
      if !fineGranted && !coarseGranted {
        permissionRequests := permissionRequests + [LocationRequestCode];
        return;
      }
      FetchLocationAndPost(location, uid, eventId);
    }

    /** `onRequestPermissionsResult`: only code 1001 with a first result of GRANTED fetches and posts. */
    method OnRequestPermissionsResult(requestCode: int, grantResults: seq<int>,
                                      location: LocationResult, uid: Option<string>, eventId: string)
      modifies this
      ensures !(requestCode == LocationRequestCode && Granted(grantResults))
        ==> written == old(written) && geoPoint == old(geoPoint) && markerPosition == old(markerPosition)
      ensures (requestCode == LocationRequestCode && Granted(grantResults)
               && location.Fix?) ==> geoPoint == Some(SubmitPoint(location.location))
      ensures requestCode == LocationRequestCode && Granted(grantResults) && location.Fix? ==>
        var r := Compose(Snapshot(), uid, eventId);
        written == old(written) + (if r.Some? then [r.value] else [])
      ensures (requestCode == LocationRequestCode && Granted(grantResults) && location.Fix?
               && location.location.Some?) ==> markerPosition == location.location.value
      ensures requestCode == LocationRequestCode && Granted(grantResults) && location.LocationFailed? ==>
        written == old(written) && geoPoint == old(geoPoint) && markerPosition == old(markerPosition)
      ensures Snapshot().(geoPoint := old(geoPoint)) == old(Snapshot())
      ensures permissionRequests == old(permissionRequests)
    {
      if requestCode == LocationRequestCode {
        if Granted(grantResults) {
          FetchLocationAndPost(location, uid, eventId);
        }
      }
    }
  }
}

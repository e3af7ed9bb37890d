/**
 * `MainActivity`'s header: with the location permission, the last GPS fix is
 * reverse-geocoded and the most precise non-empty address part becomes the
 * title, the town (or else the region) the subtitle.
 */
module MainHeader {
  import opened Wrappers
  import opened Documents
  import opened Screens

  /** The parts of a geocoder `Address` the header reads; each may be `null`. */
  datatype AddressParts = AddressParts(
    subLocality: Option<string>, thoroughfare: Option<string>,
    locality: Option<string>, adminArea: Option<string>)

  datatype Header = Header(title: string, subtitle: string)

  const UnknownHeader: Header := Header("Unknown", "Location")
  const UnavailableHeader: Header := Header("Unable to fetch", "Location")

  /** The title: the sub-locality, else the street, else the town; a `null` part counts as empty. */
  function Title(a: AddressParts): (t: string)
    ensures t == a.subLocality.GetOr("") || t == a.thoroughfare.GetOr("") || t == a.locality.GetOr("")
    ensures a.subLocality.GetOr("") != "" ==> t == a.subLocality.value
    ensures a.subLocality.GetOr("") == "" && a.thoroughfare.GetOr("") != "" ==> t == a.thoroughfare.value
    ensures a.subLocality.GetOr("") == "" && a.thoroughfare.GetOr("") == "" ==> t == a.locality.GetOr("")
  {
    var subLocality := a.subLocality.GetOr("");
    var thoroughfare := a.thoroughfare.GetOr("");
    var locality := a.locality.GetOr("");
    if subLocality != "" then subLocality
    else if thoroughfare != "" then thoroughfare
    else locality
  }

  /** The subtitle: the town, else the region. */
  function Subtitle(a: AddressParts): (s: string)
    ensures a.locality.GetOr("") != "" ==> s == a.locality.value
    ensures a.locality.GetOr("") == "" ==> s == a.adminArea.GetOr("")
  {
    var locality := a.locality.GetOr("");
    if locality != "" then locality else a.adminArea.GetOr("")
  }

  /** The title is empty only when the sub-locality, the street and the town all are. */
  lemma TitleEmptyIffNoPart(a: AddressParts)
    ensures Title(a) == "" <==>
      a.subLocality.GetOr("") == "" && a.thoroughfare.GetOr("") == "" && a.locality.GetOr("") == ""
  {
  }

  /** With a town known, the title never names anything coarser than the town. */
  lemma TitleAtLeastAsPreciseAsSubtitle(a: AddressParts)
    requires a.locality.GetOr("") != ""
    ensures Title(a) != "" && Subtitle(a) == a.locality.value
  {
  }

  /**
   * The header `getLocation`'s success listener shows: `null` fix, no
   * geocoder result, or the first result's title and subtitle.
   */
  function HeaderFor(fix: Option<GeoPoint>, addresses: seq<AddressParts>): (h: Header)
    ensures fix.None? ==> h == UnavailableHeader
    ensures fix.Some? && |addresses| == 0 ==> h == UnknownHeader
    ensures fix.Some? && |addresses| > 0 ==> h == Header(Title(addresses[0]), Subtitle(addresses[0]))
  {
    if fix.None? then UnavailableHeader
    else if |addresses| == 0 then UnknownHeader
    else Header(Title(addresses[0]), Subtitle(addresses[0]))
  }

  class MainActivity {
    var locationTitle: string
    var locationSubtitle: string
    /** Permission requests made, by request code. */
    var permissionRequests: seq<int>

    /** `onCreate` before `getLocation`: the header as the layout defines it. */
    constructor (title: string, subtitle: string)
      ensures locationTitle == title && locationSubtitle == subtitle && permissionRequests == []
    {
      locationTitle, locationSubtitle := title, subtitle;
      permissionRequests := [];
    }

    /**
     * `getLocation`: without the fine-location permission it requests it under
     * 1001; otherwise a delivered fix sets the header, and a failed
     * `lastLocation` (which has no failure listener) leaves it as it was.
     * `addresses` is what the geocoder returns for the fix.
     */
    method GetLocation(permissionGranted: bool, location: LocationResult, addresses: seq<AddressParts>)
      modifies this
      ensures !permissionGranted ==>
        permissionRequests == old(permissionRequests) + [LocationRequestCode]
        && locationTitle == old(locationTitle) && locationSubtitle == old(locationSubtitle)
      ensures permissionGranted ==> permissionRequests == old(permissionRequests)
      ensures permissionGranted && location.Fix? ==>
        Header(locationTitle, locationSubtitle) == HeaderFor(location.location, addresses)
      ensures permissionGranted && location.LocationFailed? ==>
        locationTitle == old(locationTitle) && locationSubtitle == old(locationSubtitle)
    {
      if !permissionGranted {
        permissionRequests := permissionRequests + [LocationRequestCode];
      } else if location.Fix? {
        var h := HeaderFor(location.location, addresses);
        locationTitle := h.title;
        locationSubtitle := h.subtitle;
      }
    }

    /** `onRequestPermissionsResult`: only code 1001 with a first result of GRANTED runs `getLocation` again. */
    method OnRequestPermissionsResult(requestCode: int, grantResults: seq<int>, permissionGranted: bool,
                                      location: LocationResult, addresses: seq<AddressParts>)
      modifies this
      ensures !(requestCode == LocationRequestCode && Granted(grantResults)) ==>
        locationTitle == old(locationTitle) && locationSubtitle == old(locationSubtitle)
        && permissionRequests == old(permissionRequests)
      ensures requestCode == LocationRequestCode && Granted(grantResults) && permissionGranted
              && location.Fix? ==>
        Header(locationTitle, locationSubtitle) == HeaderFor(location.location, addresses)
      ensures (requestCode == LocationRequestCode && Granted(grantResults) && !permissionGranted) ==>
        permissionRequests == old(permissionRequests) + [LocationRequestCode]
        && locationTitle == old(locationTitle) && locationSubtitle == old(locationSubtitle)
      ensures (requestCode == LocationRequestCode && Granted(grantResults) && permissionGranted) ==>
        permissionRequests == old(permissionRequests)
      ensures (requestCode == LocationRequestCode && Granted(grantResults) && permissionGranted
               && location.LocationFailed?) ==>
        locationTitle == old(locationTitle) && locationSubtitle == old(locationSubtitle)
    {
      if requestCode == LocationRequestCode && Granted(grantResults) {
        GetLocation(permissionGranted, location, addresses);
      }
    }
  }
}

# UniteALL activities, modelled in Dafny

UniteALL is an Android app for organising local sports events. Users sign in
with Google, fill in an onboarding profile (age, phone, home point, sports),
browse a feed of events with their distance, open an event to register for
it or navigate to it, and post new events with a banner, two times and a map
point. The app's logic is spread over the activities.

This project models their decision procedures and the state their handlers
overwrite. Every outside service is an input to the model:

- A Firestore read of one document is `Lookup` (`Exists(doc)`, `Missing` or `Failed`). A collection read is `Option<seq<Document>>`. A write is the new store, plus a `writeSucceeds` flag.
- The geocoder's answer is a sequence: points for a forward lookup, address lines or address parts for a reverse one.
- `lastLocation` is `LocationResult` (`LocationFailed` or `Fix(Option<GeoPoint>)`), and the osmdroid first fix is an `Option<GeoPoint>`.
- A permission check is a `bool`. A permission callback's grant array is a `seq<int>`, with GRANTED = 0.
- The signed-in user is an `Option<string>` uid, and a fresh event id (`UUID.randomUUID()`) is a parameter.
- Rendering functions are parameters: `Double.toString`, `SimpleDateFormat.format`, `"%.1f".format` and the haversine distance.

The modules follow the source:

- `event.dfy` is `models/Event.kt`.
- `post_event.dfy`, `event_details.dfy`, `onboarding.dfy`, `location_picker.dfy`, `main_header.dfy`, `sign_in.dfy` and `splash.dfy` model the activities. The activities that keep state in fields are classes.
- `event_adapter.dfy` is the feed adapter and `home_feed.dfy` is `HomeFragment`.
- Four modules are shared: `wrappers.dfy` (Option), `text.dfy` (Kotlin's `trim`, `isBlank` and `toIntOrNull`), `documents.dfy` (Firestore values and getters) and `screens.dfy` (activity destinations and permission constants).

At submit time, a non-null fix in `fetchLocationAndPost`
(PostEventActivity.kt:292-303) always overwrites `geoPoint`, even a point picked
on the map or geocoded from the address; a null fix overwrites it with the
default point. `PostEvent.PostEventActivity.FetchLocationAndPost` states this
overwrite.

`HomeFeed.HomeFragment` runs the profile reader as the fragment is written, under
the keys "lat"/"lng" (`CoordinatesAsWritten`). `HomeFeed.Coordinates` is the
corrected reader of the Findings table, with the keys the profile screens write.

## Model

| member | source | states |
|---|---|---|
| Documents.GetString | app/src/main/java/com/example/a4all/EventDetailsActivity.kt:94-98 | `getString` yields a value exactly when the field holds a string, and then that string |
| Documents.GetDouble | app/src/main/java/com/example/a4all/ui/home/HomeFragment.kt:71-72 | `getDouble` yields a value exactly for a numeric field, converting an integer field to a Double |
| Documents.GetGeoPoint | app/src/main/java/com/example/a4all/EventDetailsActivity.kt:102 | `getGeoPoint` yields the point exactly when the field holds one |
| Documents.GetTimestamp | app/src/main/java/com/example/a4all/EventDetailsActivity.kt:107-108 | `getTimestamp` yields the time exactly when the field holds one |
| Documents.GetStringList | app/src/main/java/com/example/a4all/EventDetailsActivity.kt:99 | `get(..) as? List<String>` yields the list exactly when the field is a list |
| Text.Trim | app/src/main/java/com/example/a4all/DetailsActivity.kt:144 | `trim()` is empty exactly for a blank string; otherwise it starts and ends with non-whitespace |
| Text.TrimIsSlice | app/src/main/java/com/example/a4all/DetailsActivity.kt:144 | `trim()` keeps a contiguous slice of its input, and everything it drops before and after that slice is whitespace |
| Text.TrimIdempotent | app/src/main/java/com/example/a4all/PostEventActivity.kt:314-317 | trimming a trimmed text changes nothing |
| Text.TrimmedIsFixed | app/src/main/java/com/example/a4all/DetailsActivity.kt:153 | a text with no whitespace at either end is its own trim |
| Text.ParseInt | app/src/main/java/com/example/a4all/DetailsActivity.kt:163 | `toIntOrNull()` yields only a 32-bit value, only for a string starting with a digit or a sign, and an all-digit string in range gives its value |
| Text.ParseIntExact | app/src/main/java/com/example/a4all/DetailsActivity.kt:163 | `toIntOrNull()` accepts only digits, or a sign followed by digits; digits in range give their value, a minus sign its negation down to -2^31, and anything out of the 32-bit range gives null |
| Text.ParseDecimalRoundTrip | app/src/main/java/com/example/a4all/DetailsActivity.kt:163 | the decimal rendering of every non-negative Int parses back to itself |
| EventSchema.Encode | app/src/main/java/com/example/a4all/models/Event.kt:9-51 | a stored event has exactly the eleven `@PropertyName` keys, participants under "Participants" |
| EventSchema.StoredKeysDistinct | app/src/main/java/com/example/a4all/models/Event.kt:9-50 | the eleven stored keys are pairwise distinct |
| EventSchema.DefaultEventIsEmpty | app/src/main/java/com/example/a4all/models/Event.kt:11-51 | the default event has empty strings, no participants and null point and times |
| EventSchema.EncodeDecode | app/src/main/java/com/example/a4all/models/Event.kt:7-52 | storing an event and converting it back with `toObject` gives the same event |
| EventSchema.DecodeEmpty | app/src/main/java/com/example/a4all/models/Event.kt:7-52 | an empty document converts to the default event |
| EventSchema.DecodeSucceedsIffWellTyped | app/src/main/java/com/example/a4all/models/Event.kt:7-52 | `toObject` succeeds exactly when every stored key present holds its field's type |
| EventSchema.DecodeKeepsPresent | app/src/main/java/com/example/a4all/models/Event.kt:9-51 | a converted document's present, non-null stored key is stored back unchanged |
| EventSchema.DecodeDefaultsAbsent | app/src/main/java/com/example/a4all/models/Event.kt:11-21 | a converted document's absent stored key is stored at the default's value |
| EventSchema.EncodeEntries | app/src/main/java/com/example/a4all/models/Event.kt:9-51 | each field is stored under its own `@PropertyName` key with its own value |
| PostEvent.Compose | app/src/main/java/com/example/a4all/PostEventActivity.kt:313-347 | a record is produced exactly when the eight fields are present and a user is signed in; it has no participants, the uid as organiser, the trimmed title, description, address and category, and the form's banner, times and point |
| PostEvent.ComposedIsCreatable | app/src/main/java/com/example/a4all/PostEventActivity.kt:333-347 | a posted record has a point, both times, non-blank trimmed texts, a banner and no participants |
| PostEvent.EndBeforeStartIsAccepted | app/src/main/java/com/example/a4all/PostEventActivity.kt:319-321 | an end time before the start time is not rejected |
| PostEvent.SubmitPoint | app/src/main/java/com/example/a4all/PostEventActivity.kt:292-302 | the submit-time point is the fix, or (28.6139, 77.2090) for a null fix |
| PostEvent.PostEventActivity.constructor | app/src/main/java/com/example/a4all/PostEventActivity.kt:91-99 | an empty form with the marker at the default point |
| PostEvent.PostEventActivity.OnSingleTap | app/src/main/java/com/example/a4all/PostEventActivity.kt:103-110 | a non-null tap sets `geoPoint` and the marker to that point; a null tap changes nothing; the tap is consumed |
| PostEvent.PostEventActivity.UpdateMapFromAddress | app/src/main/java/com/example/a4all/PostEventActivity.kt:158-175 | the first geocoder hit becomes `geoPoint` and the marker; no hit changes nothing |
| PostEvent.PostEventActivity.OnAddressAction | app/src/main/java/com/example/a4all/PostEventActivity.kt:120-128 | only DONE or SEARCH is consumed, and geocodes only a non-blank address |
| PostEvent.PostEventActivity.OnStartTimePicked | app/src/main/java/com/example/a4all/PostEventActivity.kt:131-136 | the picked time becomes the start time |
| PostEvent.PostEventActivity.OnEndTimePicked | app/src/main/java/com/example/a4all/PostEventActivity.kt:139-144 | the picked time becomes the end time |
| PostEvent.PostEventActivity.OnUploadResponse | app/src/main/java/com/example/a4all/PostEventActivity.kt:217-219 | `bannerUrl` is the `secure_url`, or empty without one, which blocks submission |
| PostEvent.PostEventActivity.PostEventRecord | app/src/main/java/com/example/a4all/PostEventActivity.kt:313-347 | the early-return guards of `postEvent` compute exactly `Compose` of the screen's state |
| PostEvent.PostEventActivity.PostEvent | app/src/main/java/com/example/a4all/PostEventActivity.kt:349-352 | an accepted record is handed to `set`, and nothing otherwise |
| PostEvent.PostEventActivity.FetchLocationAndPost | app/src/main/java/com/example/a4all/PostEventActivity.kt:288-311 | a fix overwrites `geoPoint` (the default for null) and then posts; a failed fetch posts nothing |
| PostEvent.PostEventActivity.OnPostClicked | app/src/main/java/com/example/a4all/PostEventActivity.kt:264-285 | without fine or coarse permission it requests code 1001 and posts nothing; otherwise a fix overwrites the point and marker and the composed record is appended, and a failed fetch posts nothing |
| PostEvent.PostEventActivity.OnRequestPermissionsResult | app/src/main/java/com/example/a4all/PostEventActivity.kt:363-376 | only code 1001 with a granted first result fetches: a fix overwrites the point and marker and the composed record is appended; a failed fetch or any other result changes nothing |
| EventDetails.TimeText | app/src/main/java/com/example/a4all/EventDetailsActivity.kt:107-112 | a missing time shows "N/A", a present one its formatting |
| EventDetails.ExtractView | app/src/main/java/com/example/a4all/EventDetailsActivity.kt:94-119 | missing texts show as "", missing participants as an empty list, and a missing start time as "N/A" |
| EventDetails.BannerToLoad | app/src/main/java/com/example/a4all/EventDetailsActivity.kt:121-123 | the banner is loaded exactly from a non-null, non-empty URL |
| EventDetails.UnionWith | app/src/main/java/com/example/a4all/EventDetailsActivity.kt:195 | `arrayUnion` yields the list with the uid added, unchanged when the uid is already in it |
| EventDetails.RegisterUpdate | app/src/main/java/com/example/a4all/EventDetailsActivity.kt:195 | the update changes only "Participants", to the union with the uid |
| EventDetails.RegistrationFieldIsSchemaKey | app/src/main/java/com/example/a4all/EventDetailsActivity.kt:194-195 | registration writes the key under which `Event` stores its participants |
| EventDetails.RegisterIdempotent | app/src/main/java/com/example/a4all/EventDetailsActivity.kt:195 | registering twice is registering once |
| EventDetails.RegisterTwiceOnEmptyEvent | app/src/main/java/com/example/a4all/EventDetailsActivity.kt:195 | registering on an event without participants, once or twice, leaves exactly that user |
| EventDetails.RegisteredAfterUpdate | app/src/main/java/com/example/a4all/EventDetailsActivity.kt:129-133 | after a registration, loading the event shows the user as registered |
| EventDetails.ViewOfStoredEvent | app/src/main/java/com/example/a4all/EventDetailsActivity.kt:94-119 | the detail screen shows exactly the fields of a stored event |
| EventDetails.FreshEventShowsUnregistered | app/src/main/java/com/example/a4all/EventDetailsActivity.kt:129-133 | a newly posted event shows nobody as registered |
| EventDetails.EventDetailsActivity.constructor | app/src/main/java/com/example/a4all/EventDetailsActivity.kt:75 | the screen starts with the intent's event id, no point and an enabled button |
| EventDetails.EventDetailsActivity.SetRegisteredState | app/src/main/java/com/example/a4all/EventDetailsActivity.kt:208-213 | the button is disabled and reads "Registered" |
| EventDetails.EventDetailsActivity.LoadEventDetails | app/src/main/java/com/example/a4all/EventDetailsActivity.kt:88-155 | an existing document fills the view and the point, and sets the registered state exactly for a signed-in participant; a missing document or failed read changes nothing |
| EventDetails.EventDetailsActivity.RegisterForEvent | app/src/main/java/com/example/a4all/EventDetailsActivity.kt:188-205 | with a user, an event id and a successful write, the store gets the union update and the button flips; otherwise nothing changes |
| EventDetails.EventDetailsActivity.NavigationIntent | app/src/main/java/com/example/a4all/EventDetailsActivity.kt:215-228 | navigation exists exactly when both coordinates are known: `geo:lat,lng` to OsmAnd, else the OpenStreetMap URL with `mlat`, `mlon` and `#map=15/lat/lng` |
| EventDetails.EventDetailsActivity.NavigateToEvent | app/src/main/java/com/example/a4all/EventDetailsActivity.kt:215-228 | starts exactly that intent, or nothing without a point |
| Onboarding.CheckedSportsAreOrderedSelection | app/src/main/java/com/example/a4all/DetailsActivity.kt:180-186 | the selected sports are a subsequence of the chip list, and a sport is selected exactly when its chip is checked |
| Onboarding.CheckedSportsOrdered | app/src/main/java/com/example/a4all/DetailsActivity.kt:180-186 | the selected sports keep chip order |
| Onboarding.CheckedSportsExact | app/src/main/java/com/example/a4all/DetailsActivity.kt:180-186 | a sport is selected exactly when its chip is checked |
| Onboarding.CheckedSportsDrawn | app/src/main/java/com/example/a4all/DetailsActivity.kt:180-186 | every selected sport is the text of a chip |
| Onboarding.FirstFailure | app/src/main/java/com/example/a4all/DetailsActivity.kt:138-191 | a chain reports no failure exactly when every check passes |
| Onboarding.FirstFailureAt | app/src/main/java/com/example/a4all/DetailsActivity.kt:138-191 | the chain reports the first failing check |
| Onboarding.ValidateIsFirstFailure | app/src/main/java/com/example/a4all/DetailsActivity.kt:138-205 | in the order user, address, fields, age, phone, map point, sport, the first failing check decides the message; with none failing, the record is saved |
| Onboarding.ValidateRejectsEarly | app/src/main/java/com/example/a4all/DetailsActivity.kt:138-167 | when the user, address, fields or age check fails, the first failing one decides the message |
| Onboarding.ValidateRejectsLate | app/src/main/java/com/example/a4all/DetailsActivity.kt:169-191 | when those pass and the phone, map point or sport check fails, the first failing one decides the message |
| Onboarding.ValidateSavesWhenAllPass | app/src/main/java/com/example/a4all/DetailsActivity.kt:193-205 | when every check passes, the record of the trimmed texts, the parsed age, the point and the sports is saved |
| Onboarding.SavedRecordIsValid | app/src/main/java/com/example/a4all/DetailsActivity.kt:163-205 | a saved record carries the uid and email, a positive 32-bit age, a phone of 10 or more characters, non-empty texts, the selected point and an ordered non-empty sport list |
| Onboarding.DecimalAgeAccepted | app/src/main/java/com/example/a4all/DetailsActivity.kt:163-167 | a positive age typed as its digits passes the age check and is saved as that number |
| Onboarding.UserDocument | app/src/main/java/com/example/a4all/DetailsActivity.kt:194-205 | the profile document has exactly the ten keys of the hash map, each holding the record's value, the email as null when absent |
| Onboarding.DetailsActivity.constructor | app/src/main/java/com/example/a4all/DetailsActivity.kt:124-136 | an empty form with six unchecked chips and no selection |
| Onboarding.DetailsActivity.ToggleChip | app/src/main/java/com/example/a4all/DetailsActivity.kt:129-133 | tapping a checkable chip flips it and no other chip |
| Onboarding.DetailsActivity.SelectPoint | app/src/main/java/com/example/a4all/DetailsActivity.kt:60-96 | a tapped or first-fix point becomes the selection and the location text "lat, lng"; a null point changes nothing |
| Onboarding.DetailsActivity.CollectSelectedSports | app/src/main/java/com/example/a4all/DetailsActivity.kt:180-186 | the loop collects exactly the checked chips' sports, in chip order |
| Onboarding.DetailsActivity.SaveUserDetails | app/src/main/java/com/example/a4all/DetailsActivity.kt:138-205 | the early returns compute exactly `Validate` of the form |
| Onboarding.DetailsActivity.OnSaveClicked | app/src/main/java/com/example/a4all/DetailsActivity.kt:207-216 | a saved record is written to `users/{uid}`, and a successful write moves to the main screen and finishes; otherwise nothing changes |
| LocationPicker.WithoutMarkers | app/src/main/java/com/example/a4all/LocationActivity.kt:110 | `removeAll { it is Marker }` keeps exactly the non-marker overlays |
| LocationPicker.WithoutMarkersOfMarkerFree | app/src/main/java/com/example/a4all/LocationActivity.kt:110 | a list without markers is unchanged by the removal |
| LocationPicker.AddMarkerLeavesOneMarker | app/src/main/java/com/example/a4all/LocationActivity.kt:109-117 | after `addMarker` exactly one marker remains, at the new point and last, and the other overlays are kept in order |
| LocationPicker.AddMarkerTwice | app/src/main/java/com/example/a4all/LocationActivity.kt:109-117 | moving the marker twice equals moving it once to the second point |
| LocationPicker.FilledAddress | app/src/main/java/com/example/a4all/LocationActivity.kt:119-126 | the text changes only when the reverse geocoder has a result, and then to its first line |
| LocationPicker.ResolvedSelection | app/src/main/java/com/example/a4all/LocationActivity.kt:155-163 | the save-time geocode fills the selection only for a non-empty address without a selection, and only with a hit |
| LocationPicker.LocationToSave | app/src/main/java/com/example/a4all/LocationActivity.kt:151-168 | a blank address is never saved, and an existing selection is saved with the trimmed address |
| LocationPicker.TypedAddressIsGeocoded | app/src/main/java/com/example/a4all/LocationActivity.kt:155-168 | without a selection, a typed address is saved at its first geocoder hit, and not at all without a hit |
| LocationPicker.LocationUpdate | app/src/main/java/com/example/a4all/LocationActivity.kt:170-176 | the update sets latitude, longitude and address and keeps every other field |
| LocationPicker.LocationUpdateReadsBack | app/src/main/java/com/example/a4all/LocationActivity.kt:170-176 | the updated document reads back the saved point and address |
| LocationPicker.LocationActivity.constructor | app/src/main/java/com/example/a4all/LocationActivity.kt:58-92 | the map has the GPS overlay and the tap receiver, and nothing is selected |
| LocationPicker.LocationActivity.SelectPoint | app/src/main/java/com/example/a4all/LocationActivity.kt:62-88 | a first fix or tap becomes the selection, moves the one marker and fills the address; at most one marker stays |
| LocationPicker.LocationActivity.OnSingleTap | app/src/main/java/com/example/a4all/LocationActivity.kt:80-88 | the tap is consumed; a non-null point becomes the selection, the last input winning |
| LocationPicker.LocationActivity.UpdateLocationFromManual | app/src/main/java/com/example/a4all/LocationActivity.kt:128-149 | a blank text does nothing; a hit becomes the selection and marker; a miss only shows "Could not find location" |
| LocationPicker.LocationActivity.OnManualAction | app/src/main/java/com/example/a4all/LocationActivity.kt:95-102 | only DONE or SEARCH is consumed; then a blank text does nothing, a hit becomes the selection and the one marker with "Location updated on map", and a miss only shows "Could not find location" |
| LocationPicker.LocationActivity.SaveLocation | app/src/main/java/com/example/a4all/LocationActivity.kt:151-184 | no user does nothing; the fallback geocode and the rejection follow `LocationToSave`; an accepted save updates only the three keys and finishes on success |
| MainHeader.Title | app/src/main/java/com/example/a4all/MainActivity.kt:116-125 | the title is the sub-locality, else the street, else the town, with null parts as "" |
| MainHeader.Subtitle | app/src/main/java/com/example/a4all/MainActivity.kt:118-128 | the subtitle is the town, else the region |
| MainHeader.TitleEmptyIffNoPart | app/src/main/java/com/example/a4all/MainActivity.kt:121-125 | the title is empty exactly when sub-locality, street and town all are |
| MainHeader.TitleAtLeastAsPreciseAsSubtitle | app/src/main/java/com/example/a4all/MainActivity.kt:121-128 | with a town known, the title is non-empty and the subtitle is the town |
| MainHeader.HeaderFor | app/src/main/java/com/example/a4all/MainActivity.kt:109-137 | a null fix shows ("Unable to fetch", "Location"), no geocoder result ("Unknown", "Location"), else title and subtitle of the first result |
| MainHeader.MainActivity.constructor | app/src/main/java/com/example/a4all/MainActivity.kt:59-60 | the header starts as the layout defines it, with no requests |
| MainHeader.MainActivity.GetLocation | app/src/main/java/com/example/a4all/MainActivity.kt:99-139 | without permission it requests code 1001 and keeps the header; with it, a delivered fix sets the header and a failed fetch keeps it |
| MainHeader.MainActivity.OnRequestPermissionsResult | app/src/main/java/com/example/a4all/MainActivity.kt:141-153 | only code 1001 with a granted first result runs `getLocation` again: without the permission it re-requests 1001, with it a fix sets the header and a failed fetch keeps it |
| FeedAdapter.OrElse | app/src/main/java/com/example/a4all/adapters/EventAdapter.kt:56-57 | `ifEmpty` gives the text, or the fallback for an empty text |
| FeedAdapter.BannerFor | app/src/main/java/com/example/a4all/adapters/EventAdapter.kt:44-53 | the banner URL is used exactly when it is neither blank nor "." |
| FeedAdapter.FormatTime | app/src/main/java/com/example/a4all/adapters/EventAdapter.kt:85-92 | "Time not available" whenever a time is null, else both formatted times |
| FeedAdapter.Distance | app/src/main/java/com/example/a4all/adapters/EventAdapter.kt:65-72 | an event without a location is 0.0 away, else the haversine distance from the user |
| FeedAdapter.Adapter.ItemCount | app/src/main/java/com/example/a4all/adapters/EventAdapter.kt:80-83 | the item count is the number of events |
| FeedAdapter.Adapter.Bind | app/src/main/java/com/example/a4all/adapters/EventAdapter.kt:37-78 | row `i` shows event `i` with the fallbacks, its address and distance text, and a click on it passes event `i` |
| FeedAdapter.RowTextsNeverEmpty | app/src/main/java/com/example/a4all/adapters/EventAdapter.kt:56-57 | no row shows an empty title or description |
| FeedAdapter.NoLocationIsZeroAway | app/src/main/java/com/example/a4all/adapters/EventAdapter.kt:65-74 | a row of an event without a location says it is 0 km away |
| FeedAdapter.PostedEventRow | app/src/main/java/com/example/a4all/adapters/EventAdapter.kt:37-78 | a posted event shows its own title and description, both times and its distance |
| SignIn.Route | app/src/main/java/com/example/a4all/SignInActivity.kt:79-95 | an existing profile goes to the main screen; a missing one or a failed read goes to the details form |
| SignIn.LookupIn | app/src/main/java/com/example/a4all/SignInActivity.kt:81-84 | the lookup finds exactly the stored profiles |
| SignIn.WrittenProfileRoutesToMain | app/src/main/java/com/example/a4all/SignInActivity.kt:83-86 | a user whose profile was written goes to the main screen |
| SignIn.FailureRoutesLikeMissing | app/src/main/java/com/example/a4all/SignInActivity.kt:87-94 | a read failure routes like a missing profile |
| SignIn.SignInActivity.constructor | app/src/main/java/com/example/a4all/SignInActivity.kt:36-40 | nothing started or checked |
| SignIn.SignInActivity.CheckUserDetails | app/src/main/java/com/example/a4all/SignInActivity.kt:79-105 | the routed screen is started and the sign-in screen finishes |
| SignIn.SignInActivity.OnCreate | app/src/main/java/com/example/a4all/SignInActivity.kt:43-45 | an already signed-in user is checked at once; otherwise nothing happens |
| SignIn.SignInActivity.OnSignInResult | app/src/main/java/com/example/a4all/SignInActivity.kt:24-77 | only a successful sign-in checks the new uid; a failure navigates nowhere |
| Splash.Route | app/src/main/java/com/example/a4all/SplashActivity.kt:62-72 | a signed-in user goes to the main screen, anyone else to sign-in |
| Splash.SplashActivity.constructor | app/src/main/java/com/example/a4all/SplashActivity.kt:18-24 | nothing requested or started |
| Splash.SplashActivity.NavigateAfterDelay | app/src/main/java/com/example/a4all/SplashActivity.kt:62-72 | the routed screen is started and the splash finishes |
| Splash.SplashActivity.CheckLocationPermission | app/src/main/java/com/example/a4all/SplashActivity.kt:26-42 | a missing permission is requested under 1001; a granted one navigates at once |
| Splash.SplashActivity.OnRequestPermissionsResult | app/src/main/java/com/example/a4all/SplashActivity.kt:44-60 | for code 1001 it navigates whether granted or denied; other codes are ignored |
| HomeFeed.FeedAppend | app/src/main/java/com/example/a4all/ui/home/HomeFragment.kt:88-94 | the feed of two fetched batches is the feed of the first followed by that of the second |
| HomeFeed.FeedMembership | app/src/main/java/com/example/a4all/ui/home/HomeFragment.kt:88-94 | an event is in the feed exactly when some fetched document converts to it |
| HomeFeed.FeedOfConverting | app/src/main/java/com/example/a4all/ui/home/HomeFragment.kt:88-94 | documents that all convert are shown as exactly their events, in order |
| HomeFeed.FeedOfStoredEvents | app/src/main/java/com/example/a4all/ui/home/HomeFragment.kt:88-94 | stored events are shown as exactly those events in fetch order, not sorted |
| HomeFeed.IllTypedDocumentIsSkipped | app/src/main/java/com/example/a4all/ui/home/HomeFragment.kt:90-93 | a document whose typed getters fail is left out of the feed, under the model's reading of a failed conversion as null |
| HomeFeed.CoordinatesAsWritten | app/src/main/java/com/example/a4all/ui/home/HomeFragment.kt:60-80 | as written: the arguments when both are non-zero, (0, 0) without a user or a document, else the profile's "lat"/"lng" read with `getDouble(..) ?: 0.0` |
| HomeFeed.AsWrittenIgnoresSavedProfile | app/src/main/java/com/example/a4all/ui/home/HomeFragment.kt:71-72 | as written, every profile the onboarding form saves is read as (0, 0) |
| HomeFeed.AsWrittenLosesBangalore | app/src/main/java/com/example/a4all/ui/home/HomeFragment.kt:71-72 | as written, a profile saved at (12.97, 77.59) is not read back at that point |
| HomeFeed.Coordinates | app/src/main/java/com/example/a4all/ui/home/HomeFragment.kt:60-80 | the corrected reader of the Findings row: the arguments when both are non-zero, (0, 0) without a user or a document, else the profile's "latitude"/"longitude" |
| HomeFeed.SavedProfileCoordinates | app/src/main/java/com/example/a4all/DetailsActivity.kt:201-202 | the corrected reader returns the coordinates the onboarding form saved |
| HomeFeed.PickedLocationCoordinates | app/src/main/java/com/example/a4all/LocationActivity.kt:170-173 | the corrected reader returns the point the location picker saved |
| HomeFeed.HomeFragment.constructor | app/src/main/java/com/example/a4all/ui/home/HomeFragment.kt:27-34 | the arguments' "userLat"/"userLng", 0.0 when absent |
| HomeFeed.HomeFragment.GetUserLocation | app/src/main/java/com/example/a4all/ui/home/HomeFragment.kt:60-80 | the callback receives exactly `CoordinatesAsWritten` of the fragment's state, reading "lat"/"lng" |
| HomeFeed.HomeFragment.LoadEvents | app/src/main/java/com/example/a4all/ui/home/HomeFragment.kt:83-100 | success rebuilds `events` as exactly the feed of the fetched documents; failure leaves it unchanged |
| HomeFeed.HomeFragment.OnCreateView | app/src/main/java/com/example/a4all/ui/home/HomeFragment.kt:45-80 | the adapter gets the as-written coordinates, then the events are loaded |
| HomeFeed.HomeFragment.OnItemClick | app/src/main/java/com/example/a4all/ui/home/HomeFragment.kt:46-51 | a click on row `i` opens the detail screen with event `i`'s id |

## Left out

- Firestore, FirebaseAuth, Google Sign-In, the Cloudinary upload over OkHttp, Glide, the content resolver and osmdroid rendering (zoom, centring, invalidation) are not modelled. Their results are inputs to the model.
- The order in which asynchronous callbacks arrive is not modelled. Each handler is one atomic step with its outcome given. This covers the participant-name lookups of `loadParticipants` and the two-second delay of the splash screen.
- Floating point is modelled as `real`. The haversine formula, `"%.1f"`, `Double.toString` and `SimpleDateFormat` are function parameters, so no property depends on their results.
- Toasts are modelled only in `LocationActivity`, which has different outcomes that change nothing else. In the other activities, a toast is the only effect of a rejected step, and the model records only that nothing else changed.
- Exceptions are not modelled:
  - An SDK getter on a field of the wrong type throws. The model reads it as absent, and `toObject` on such a document gives `None`.
  - `JSONObject("")` on an upload response without a body throws.
  - The `!!` on a missing Google account token, and geocoder I/O errors, are not modelled. The geocoder's answer is just a possibly empty sequence.
- Text.ParseInt: Kotlin's `toIntOrNull` also accepts non-ASCII Unicode digits. The model accepts only '0'-'9'.
- Text.ParseInt: its own contract constrains only the first character. `Text.ParseIntExact` states what is accepted and the value, kept apart so the form proofs stay small.
- Text.Trim: its own contract does not say which characters are dropped. `Text.TrimIsSlice` states that only whitespace is dropped at either end, kept apart for the same reason.
- HomeFeed.IllTypedDocumentIsSkipped: in the app, `toObject` on an existing document with a field of the wrong type throws inside the success listener instead of returning null, so the `event != null` test drops nothing. The lemma holds only under the model's reading of that failure as `None`.
- Onboarding.SavedRecordIsValid: the phone length is counted in characters, not Java's UTF-16 code units, so the two differ for characters outside the Basic Multilingual Plane.
- `DetailsActivity` map markers are not modelled: the first fix adds a new marker each time and taps move a second one. Only the selection and the location text they set are modelled.
- The image picker, the date and time pickers, the upload request itself and its "Upload failed" path are not modelled. Only their results (`OnUploadResponse`, `OnStartTimePicked`, `OnEndTimePicked`) are.
- Clicks on `MainActivity`'s location row and profile button, and `loadUserProfilePhoto`, are not modelled. They only start other screens or load an image.
- `ProfileActivity`, `MyApp`, `DashboardFragment` and the Gradle build are not modelled. They hold no decision logic of the core.
- PostEvent.PostEventActivity.PostEvent: after a successful `set`, `postEvent` shows a toast and closes the screen. The model records only the event handed to `set`, not whether the write succeeded.
- GeoPoint's range check on latitude and longitude is not modelled.
- The `lastLocation` `SecurityException` path of `fetchLocationAndPost` is not modelled.
- HomeFeed.HomeFragment.LoadEvents: the adapter shares the fragment's list. The model expresses this sharing by building `Adapter()` from the fragment's current `events`, not by aliasing one mutable list.

## Findings

| source | as written | input that shows it | evidently intended | confidence | as-written member | corrected member |
|---|---|---|---|---|---|---|
| app/src/main/java/com/example/a4all/ui/home/HomeFragment.kt:71-72 | the feed reads the user's coordinates from the profile keys "lat" and "lng", which no screen writes | a profile saved by the onboarding form at (12.97, 77.59), with empty fragment arguments: the feed uses (0.0, 0.0) for every distance | read "latitude" and "longitude", the keys `DetailsActivity` (lines 201-202) and `LocationActivity` (lines 171-172) write | high; not executed | HomeFeed.AsWrittenLosesBangalore | HomeFeed.SavedProfileCoordinates |

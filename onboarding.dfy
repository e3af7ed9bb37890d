/**
 * `DetailsActivity`: the onboarding form. A map tap or the first GPS fix sets
 * the selected point and the location text; saving runs an ordered chain of
 * checks, collects the checked sport chips in chip order, and writes the
 * user's profile document.
 */
module Onboarding {
  import opened Wrappers
  import opened Text
  import opened Documents
  import opened Screens

  /** The chips, in the order the chip group shows them. */
  const SportsList: seq<string> := ["Cricket", "Football", "Basketball", "Tennis", "Hockey", "Badminton"]

  /** The checks of `saveUserDetails`, each with the message it shows. */
  datatype DetailsError =
    | NotLoggedIn | MissingAddress | MissingFields | InvalidAge | InvalidPhone | NoMapLocation | NoSport

  function Message(e: DetailsError): string {
    match e
    case NotLoggedIn => "User not logged in"
    case MissingAddress => "Please enter your address"
    case MissingFields => "Please fill all fields"
    case InvalidAge => "Please enter a valid age"
    case InvalidPhone => "Please enter a valid phone number"
    case NoMapLocation => "Please select a location on the map"
    case NoSport => "Please select at least one sport"
  }

  /** The profile document's contents. */
  datatype UserRecord = UserRecord(
    userId: string, username: string, age: int, phone: string, location: string,
    address: string, latitude: real, longitude: real, sports: seq<string>, email: Option<string>)

  datatype SaveOutcome = Rejected(reason: DetailsError) | Saved(record: UserRecord)

  /** What `saveUserDetails` reads from the screen. */
  datatype DetailsForm = DetailsForm(
    username: string, age: string, phone: string, location: string, address: string,
    selectedLat: Option<real>, selectedLng: Option<real>, checked: seq<bool>)

  /** The texts of the checked chips, in chip order. */
  function CheckedSports(checked: seq<bool>): seq<string>
    requires |checked| <= |SportsList|
    decreases |checked|
  {
    if checked == [] then []
    else
      var n := |checked| - 1;
      CheckedSports(checked[..n]) + (if checked[n] then [SportsList[n]] else [])
  }

  /** `a` is `b` with some elements left out, the rest in their order. */
  predicate IsSubsequence<T(==)>(a: seq<T>, b: seq<T>)
    decreases |b|
  {
    if a == [] then true
    else if b == [] then false
    else if a[|a| - 1] == b[|b| - 1] then IsSubsequence(a[..|a| - 1], b[..|b| - 1])
    else IsSubsequence(a, b[..|b| - 1])
  }

  lemma SportsDistinct()
    ensures forall i, j :: 0 <= i < j < |SportsList| ==> SportsList[i] != SportsList[j]
  {
  }

  /** Every selected sport is the text of one of the chips seen so far. */
  lemma {:induction false} CheckedSportsDrawn(checked: seq<bool>)
    requires |checked| <= |SportsList|
    ensures forall x :: x in CheckedSports(checked) ==> x in SportsList[..|checked|]
    decreases |checked|
  {
    if checked != [] {
      var n := |checked| - 1;
      CheckedSportsDrawn(checked[..n]);
      assert SportsList[..n + 1] == SportsList[..n] + [SportsList[n]];
    }
  }

  /** The chip `n` sport is not among the sports of the chips before it. */
  lemma LaterSportIsNew(n: nat)
    requires n < |SportsList|
    ensures SportsList[n] !in SportsList[..n]
  {
    SportsDistinct();
  }

  /** The selected sports keep chip order. */
  lemma {:induction false} CheckedSportsOrdered(checked: seq<bool>)
    requires |checked| <= |SportsList|
    ensures IsSubsequence(CheckedSports(checked), SportsList[..|checked|])
    decreases |checked|
  {
    if checked != [] {
      var n := |checked| - 1;
      var prev := checked[..n];
      CheckedSportsOrdered(prev);
      var s := CheckedSports(checked);
      var b := SportsList[..n + 1];
      assert b[..n] == SportsList[..n];
      if checked[n] {
        assert s[..|s| - 1] == CheckedSports(prev);
      } else {
        assert s == CheckedSports(prev);
        if s != [] {
          CheckedSportsDrawn(prev);
          LaterSportIsNew(n);
          assert s[|s| - 1] in SportsList[..n];
        }
      }
    }
  }

  /** A sport is selected exactly when its chip is checked. */
  lemma {:induction false} CheckedSportsExact(checked: seq<bool>)
    requires |checked| <= |SportsList|
    ensures forall i :: 0 <= i < |checked| ==> (SportsList[i] in CheckedSports(checked) <==> checked[i])
    decreases |checked|
  {
    if checked != [] {
      var n := |checked| - 1;
      var prev := checked[..n];
      CheckedSportsExact(prev);
      CheckedSportsDrawn(prev);
      LaterSportIsNew(n);
      forall i | 0 <= i < |checked|
        ensures SportsList[i] in CheckedSports(checked) <==> checked[i]
      {
        if i < n {
          assert prev[i] == checked[i];
          SportsDistinct();
          assert SportsList[i] != SportsList[n];
        }
      }
    }
  }

  /**
   * The selected sports are drawn from the chips seen so far, in chip order,
   * and a sport is selected exactly when its chip is checked.
   */
  lemma CheckedSportsAreOrderedSelection(checked: seq<bool>)
    requires |checked| <= |SportsList|
    ensures IsSubsequence(CheckedSports(checked), SportsList[..|checked|])
    ensures forall i :: 0 <= i < |checked| ==> (SportsList[i] in CheckedSports(checked) <==> checked[i])
    ensures forall x :: x in CheckedSports(checked) ==> x in SportsList[..|checked|]
  {
    CheckedSportsOrdered(checked);
    CheckedSportsExact(checked);
    CheckedSportsDrawn(checked);
  }

  /** One step of the chain: whether the check passes, and the error when it does not. */
  datatype Check = Check(passes: bool, error: DetailsError)

  /** The first failing check of a chain, if any. */
  function FirstFailure(checks: seq<Check>): (r: Option<DetailsError>)
    ensures r.None? <==> forall k :: 0 <= k < |checks| ==> checks[k].passes
    decreases |checks|
  {
    if checks == [] then None
    else if !checks[0].passes then Some(checks[0].error)
    else
      var r := FirstFailure(checks[1..]);
      assert forall k :: 0 < k < |checks| ==> checks[k] == checks[1..][k - 1];
      r
  }

  /** When check `k` fails and every earlier one passes, the chain reports check `k`. */
  lemma {:induction false} FirstFailureAt(checks: seq<Check>, k: nat)
    requires k < |checks| && !checks[k].passes
    requires forall j :: 0 <= j < k ==> checks[j].passes
    ensures FirstFailure(checks) == Some(checks[k].error)
    decreases k
  {
    if k > 0 {
      assert checks[1..][k - 1] == checks[k];
      FirstFailureAt(checks[1..], k - 1);
    }
  }

  /** The checks of `saveUserDetails`, in the order it makes them. */
  function Checks(f: DetailsForm, uid: Option<string>): seq<Check>
    requires |f.checked| <= |SportsList|
  {
    var username, age, phone, location, address :=
      Trim(f.username), Trim(f.age), Trim(f.phone), Trim(f.location), Trim(f.address);
    var ageValue := ParseInt(age);
    [ Check(uid.Some?, NotLoggedIn),
      Check(address != [], MissingAddress),
      Check(username != [] && age != [] && phone != [] && location != [], MissingFields),
      Check(ageValue.Some? && ageValue.value > 0, InvalidAge),
      Check(|phone| >= 10, InvalidPhone),
      Check(f.selectedLat.Some? && f.selectedLng.Some?, NoMapLocation),
      Check(CheckedSports(f.checked) != [], NoSport) ]
  }

  /** The record a form that passed every check is saved as. */
  function Record(f: DetailsForm, uid: string, email: Option<string>): UserRecord
    requires |f.checked| <= |SportsList|
  {
    UserRecord(
      userId := uid, username := Trim(f.username), age := ParseInt(Trim(f.age)).GetOr(0),
      phone := Trim(f.phone), location := Trim(f.location), address := Trim(f.address),
      latitude := f.selectedLat.GetOr(0.0), longitude := f.selectedLng.GetOr(0.0),
      sports := CheckedSports(f.checked), email := email)
  }

  /** `saveUserDetails` as a chain of early returns, ending in the record to write. */
  function Validate(f: DetailsForm, uid: Option<string>, email: Option<string>): SaveOutcome
    requires |f.checked| <= |SportsList|
  {
    var username, age, phone, location, address :=
      Trim(f.username), Trim(f.age), Trim(f.phone), Trim(f.location), Trim(f.address);
    var ageValue := ParseInt(age);
    if uid.None? then Rejected(NotLoggedIn)
    else if address == [] then Rejected(MissingAddress)
    else if username == [] || age == [] || phone == [] || location == [] then Rejected(MissingFields)
    else if ageValue.None? || ageValue.value <= 0 then Rejected(InvalidAge)
    else if |phone| < 10 then Rejected(InvalidPhone)
    else if f.selectedLat.None? || f.selectedLng.None? then Rejected(NoMapLocation)
    else if CheckedSports(f.checked) == [] then Rejected(NoSport)
    else Saved(Record(f, uid.value, email))
  }

  /** When one of the first four checks (user, address, fields, age) fails, the first failing one decides the message. */
  lemma ValidateRejectsEarly(f: DetailsForm, uid: Option<string>, email: Option<string>)
    requires |f.checked| <= |SportsList|
    requires exists k :: 0 <= k < 4 && !Checks(f, uid)[k].passes
    ensures FirstFailure(Checks(f, uid)).Some?
    ensures Validate(f, uid, email) == Rejected(FirstFailure(Checks(f, uid)).value)
  {
    var c := Checks(f, uid);
    var username, age, phone, location, address :=
      Trim(f.username), Trim(f.age), Trim(f.phone), Trim(f.location), Trim(f.address);
    var ageValue := ParseInt(age);
    if uid.None? {
      FirstFailureAt(c, 0);
    } else if address == [] {
      FirstFailureAt(c, 1);
    } else if username == [] || age == [] || phone == [] || location == [] {
      FirstFailureAt(c, 2);
    } else {
      FirstFailureAt(c, 3);
    }
  }

  /** When the first four checks pass and a later one (phone, map point, sport) fails, the first failing one decides the message. */
  lemma ValidateRejectsLate(f: DetailsForm, uid: Option<string>, email: Option<string>)
    requires |f.checked| <= |SportsList|
    requires forall k :: 0 <= k < 4 ==> Checks(f, uid)[k].passes
    requires exists k :: 4 <= k < 7 && !Checks(f, uid)[k].passes
    ensures FirstFailure(Checks(f, uid)).Some?
    ensures Validate(f, uid, email) == Rejected(FirstFailure(Checks(f, uid)).value)
  {
    var c := Checks(f, uid);
    assert c[0].passes && c[1].passes && c[2].passes && c[3].passes;
    if !c[4].passes {
      FirstFailureAt(c, 4);
    } else if !c[5].passes {
      FirstFailureAt(c, 5);
    } else {
      FirstFailureAt(c, 6);
    }
  }

  /** When every check passes, the form is saved as its record. */
  lemma ValidateSavesWhenAllPass(f: DetailsForm, uid: Option<string>, email: Option<string>)
    requires |f.checked| <= |SportsList|
    requires FirstFailure(Checks(f, uid)).None?
    ensures uid.Some? && Validate(f, uid, email) == Saved(Record(f, uid.value, email))
  {
    var c := Checks(f, uid);
    assert c[0].passes && c[1].passes && c[2].passes && c[3].passes;
    assert c[4].passes && c[5].passes && c[6].passes;
  }

  /**
   * The first failing check decides the message; the form is saved, as its
   * record, only when every check passes.
   */
  lemma ValidateIsFirstFailure(f: DetailsForm, uid: Option<string>, email: Option<string>)
    requires |f.checked| <= |SportsList|
    ensures var r := FirstFailure(Checks(f, uid));
      && (r.Some? ==> Validate(f, uid, email) == Rejected(r.value))
      && (r.None? ==> uid.Some? && Validate(f, uid, email) == Saved(Record(f, uid.value, email)))
  {
    var c := Checks(f, uid);
    if exists k :: 0 <= k < 4 && !c[k].passes {
      ValidateRejectsEarly(f, uid, email);
    } else if exists k :: 4 <= k < 7 && !c[k].passes {
      ValidateRejectsLate(f, uid, email);
    } else {
      assert forall k :: 0 <= k < |c| ==> c[k].passes by {
        assert |c| == 7;
      }
      ValidateSavesWhenAllPass(f, uid, email);
    }
  }

  /** A saved record has a positive 32-bit age, a phone of ten or more characters and a non-empty ordered sport selection. */
  lemma SavedRecordIsValid(f: DetailsForm, uid: Option<string>, email: Option<string>)
    requires |f.checked| <= |SportsList|
    requires Validate(f, uid, email).Saved?
    ensures var u := Validate(f, uid, email).record;
      && uid == Some(u.userId) && u.email == email
      && 0 < u.age <= MaxInt && |u.phone| >= 10
      && u.username != [] && u.address != [] && u.location != []
      && f.selectedLat == Some(u.latitude) && f.selectedLng == Some(u.longitude)
      && u.sports != [] && IsSubsequence(u.sports, SportsList[..|f.checked|])
  {
    CheckedSportsAreOrderedSelection(f.checked);
  }

  /** Typing an age as its decimal digits passes the age check. */
  lemma DecimalAgeAccepted(f: DetailsForm, n: nat, uid: Option<string>, u: string, email: Option<string>)
    requires |f.checked| <= |SportsList|
    requires 0 < n <= MaxInt && f.age == DecimalString(n)
    ensures Checks(f, uid)[3].passes
    ensures Record(f, u, email).age == n
  {
    TrimmedIsFixed(f.age);
    ParseDecimalRoundTrip(n);
  }

  /** The profile document `set` by a save: the ten keys of the hash map, each with the record's value. */
  function UserDocument(u: UserRecord): (doc: Document)
    ensures doc.Keys == {"userId", "username", "age", "phone", "location", "address",
                         "latitude", "longitude", "sports", "email"}
    ensures doc["userId"] == Str(u.userId) && doc["username"] == Str(u.username)
    ensures doc["age"] == Int(u.age) && doc["phone"] == Str(u.phone)
    ensures doc["location"] == Str(u.location) && doc["address"] == Str(u.address)
    ensures doc["latitude"] == Num(u.latitude) && doc["longitude"] == Num(u.longitude)
    ensures doc["sports"] == StrList(u.sports)
    ensures doc["email"] == if u.email.Some? then Str(u.email.value) else Null
  {
    map[
      "userId" := Str(u.userId),
      "username" := Str(u.username),
      "age" := Int(u.age),
      "phone" := Str(u.phone),
      "location" := Str(u.location),
      "address" := Str(u.address),
      "latitude" := Num(u.latitude),
      "longitude" := Num(u.longitude),
      "sports" := StrList(u.sports),
      "email" := match u.email case Some(e) => Str(e) case None => Null]
  }

  /** The location text a tap or fix writes: `"lat, lng"`, with `show` being `Double.toString`. */
  function PointText(p: GeoPoint, show: real -> string): string {
    show(p.latitude) + ", " + show(p.longitude)
  }

  class DetailsActivity {
    var usernameText: string
    var ageText: string
    var phoneText: string
    var locationText: string
    var addressText: string
    var selectedLat: Option<real>
    var selectedLng: Option<real>
    /** Whether each chip of `SportsList` is checked. */
    var chipChecked: seq<bool>
    /** Activities started and whether this one finished. */
    var started: seq<Screen>
    var finished: bool

    ghost predicate Valid()
      reads this
    {
      |chipChecked| == |SportsList|
    }

    function Snapshot(): DetailsForm
      reads this
    {
      DetailsForm(usernameText, ageText, phoneText, locationText, addressText,
                  selectedLat, selectedLng, chipChecked)
    }

    /** `onCreate` with `setupSportsChips`: empty form, six unchecked chips, no selection. */
    constructor ()
      ensures Valid()
      ensures usernameText == ageText == phoneText == locationText == addressText == ""
      ensures selectedLat == None && selectedLng == None
      ensures chipChecked == [false, false, false, false, false, false]
      ensures started == [] && !finished
    {
      usernameText, ageText, phoneText, locationText, addressText := "", "", "", "", "";
      selectedLat, selectedLng := None, None;
      chipChecked := [false, false, false, false, false, false];
      started, finished := [], false;
    }

    /** A tap on chip `i` toggles it. */
    method ToggleChip(i: nat)
      requires Valid() && i < |chipChecked|
      modifies this`chipChecked
      ensures Valid() && chipChecked == old(chipChecked)[i := !old(chipChecked)[i]]
    {
      chipChecked := chipChecked[i := !chipChecked[i]];
    }

    /** `singleTapConfirmedHelper` and the `runOnFirstFix` callback: the point becomes the selection. */
    method SelectPoint(p: Option<GeoPoint>, show: real -> string)
      modifies this`selectedLat, this`selectedLng, this`locationText
      ensures p.Some? ==>
        selectedLat == Some(p.value.latitude) && selectedLng == Some(p.value.longitude)
        && locationText == PointText(p.value, show)
      ensures p.None? ==>
        selectedLat == old(selectedLat) && selectedLng == old(selectedLng) && locationText == old(locationText)
    {
      if p.Some? {
        selectedLat := Some(p.value.latitude);
        selectedLng := Some(p.value.longitude);
        locationText := PointText(p.value, show);
      }
    }

    /** The chips' loop in `saveUserDetails`: the texts of the checked chips, in order. */
    method CollectSelectedSports() returns (sports: seq<string>)
      requires Valid()
      ensures sports == CheckedSports(chipChecked)
      ensures forall x :: x in sports ==> x in SportsList
    {
      sports := [];
      var i := 0;
      while i < |chipChecked|
        invariant 0 <= i <= |chipChecked|
        invariant sports == CheckedSports(chipChecked[..i])
      {
        if chipChecked[i] {
          sports := sports + [SportsList[i]];
        }
        assert chipChecked[..i + 1][..i] == chipChecked[..i];
        i := i + 1;
      }
      assert chipChecked[..i] == chipChecked;
      CheckedSportsAreOrderedSelection(chipChecked);
    }

    /** `saveUserDetails` up to the write: the message shown, or the record to store. */
    method SaveUserDetails(uid: Option<string>, email: Option<string>) returns (r: SaveOutcome)
      requires Valid()
      ensures r == Validate(Snapshot(), uid, email)
    {
      if uid.None? {
        return Rejected(NotLoggedIn);
      }
      var address := Trim(addressText);
      if address == [] {
        return Rejected(MissingAddress);
      }
      var username := Trim(usernameText);
      var ageStr := Trim(ageText);
      var phone := Trim(phoneText);
      var location := Trim(locationText);
      if username == [] || ageStr == [] || phone == [] || location == [] {
        return Rejected(MissingFields);
      }
      var age := ParseInt(ageStr);
      if age.None? || age.value <= 0 {
        return Rejected(InvalidAge);
      }
      if |phone| < 10 {
        return Rejected(InvalidPhone);
      }
      if selectedLat.None? || selectedLng.None? {
        return Rejected(NoMapLocation);
      }
      var sports := CollectSelectedSports();
      if sports == [] {
        return Rejected(NoSport);
      }
      r := Saved(UserRecord(uid.value, username, age.value, phone, location, address,
                            selectedLat.value, selectedLng.value, sports, email));
    }

    /**
     * The save button: a saved record is written to `users/{uid}`; when the
     * write succeeds the screen moves on to the main screen.
     */
    method OnSaveClicked(uid: Option<string>, email: Option<string>,
                         users: map<string, Document>, writeSucceeds: bool)
      returns (users': map<string, Document>)
      requires Valid()
      modifies this`started, this`finished
      ensures var r := Validate(Snapshot(), uid, email);
        && (r.Saved? && writeSucceeds ==>
              users' == users[r.record.userId := UserDocument(r.record)]
              && started == old(started) + [MainScreen] && finished)
        && (!(r.Saved? && writeSucceeds) ==>
              users' == users && started == old(started) && finished == old(finished))
    {
      var r := SaveUserDetails(uid, email);
      ghost var form := Snapshot();
      users' := users;
      if r.Saved? && writeSucceeds {
        users' := users[r.record.userId := UserDocument(r.record)];
        started := started + [MainScreen];
        finished := true;
      }
      assert Snapshot() == form;
    }
  }
}

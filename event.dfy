/**
 * The `Event` record of `models/Event.kt`: every field has a default and is
 * stored under a fixed Firestore key, which the feed reads back with
 * `toObject` and the detail screen reads field by field.
 */
module EventSchema {
  import opened Wrappers
  import opened Documents

  datatype Event = Event(
    title: string := "",
    description: string := "",
    bannerUrl: string := "",
    address: string := "",
    category: string := "",
    participants: seq<string> := [],
    eventId: string := "",
    geoLocation: Option<GeoPoint> := None,
    startTime: Option<Timestamp> := None,
    endTime: Option<Timestamp> := None,
    organiserId: string := "")

  // The `@PropertyName` of each field.
  const TitleKey: string := "Title"
  const DescriptionKey: string := "Description"
  const BannerUrlKey: string := "bannerurl"
  const AddressKey: string := "Address"
  const CategoryKey: string := "Category"
  const ParticipantsKey: string := "Participants"
  const EventIdKey: string := "event_id"
  const GeoLocationKey: string := "geolocation"
  const StartTimeKey: string := "startTime"
  const EndTimeKey: string := "endTime"
  const OrganiserIdKey: string := "organiserId"

  const StoredKeys: set<string> := {
    TitleKey, DescriptionKey, BannerUrlKey, AddressKey, CategoryKey, ParticipantsKey,
    EventIdKey, GeoLocationKey, StartTimeKey, EndTimeKey, OrganiserIdKey }

  function OptionalGeo(p: Option<GeoPoint>): Value {
    match p
    case Some(g) => Geo(g)
    case None => Null
  }

  function OptionalTime(t: Option<Timestamp>): Value {
    match t
    case Some(x) => Time(x)
    case None => Null
  }

  /** The document Firestore stores for `set(event)`: one entry per field, nulls included. */
  function Encode(e: Event): (doc: Document)
    ensures doc.Keys == StoredKeys
    ensures doc[ParticipantsKey] == StrList(e.participants)
  {
    map[
      TitleKey := Str(e.title),
      DescriptionKey := Str(e.description),
      BannerUrlKey := Str(e.bannerUrl),
      AddressKey := Str(e.address),
      CategoryKey := Str(e.category),
      ParticipantsKey := StrList(e.participants),
      EventIdKey := Str(e.eventId),
      GeoLocationKey := OptionalGeo(e.geoLocation),
      StartTimeKey := OptionalTime(e.startTime),
      EndTimeKey := OptionalTime(e.endTime),
      OrganiserIdKey := Str(e.organiserId)]
  }

  // Field readers for `toObject`: an absent field keeps the default, a field
  // of the wrong type makes the whole conversion fail (the outer `None`).

  function ReadString(doc: Document, key: string): Option<string> {
    if key !in doc then Some("")
    else if doc[key].Str? then Some(doc[key].s)
    else None
  }

  function ReadStringList(doc: Document, key: string): Option<seq<string>> {
    if key !in doc then Some([])
    else if doc[key].StrList? then Some(doc[key].items)
    else None
  }

  function ReadGeo(doc: Document, key: string): Option<Option<GeoPoint>> {
    if key !in doc || doc[key].Null? then Some(None)
    else if doc[key].Geo? then Some(Some(doc[key].point))
    else None
  }

  function ReadTime(doc: Document, key: string): Option<Option<Timestamp>> {
    if key !in doc || doc[key].Null? then Some(None)
    else if doc[key].Time? then Some(Some(doc[key].time))
    else None
  }

  /**
   * `DocumentSnapshot.toObject(Event::class.java)`: reads every stored key,
   * keeping the default for a key the document does not have.
   */
  function Decode(doc: Document): (r: Option<Event>)
  {
    var title := ReadString(doc, TitleKey);
    var description := ReadString(doc, DescriptionKey);
    var bannerUrl := ReadString(doc, BannerUrlKey);
    var address := ReadString(doc, AddressKey);
    var category := ReadString(doc, CategoryKey);
    var participants := ReadStringList(doc, ParticipantsKey);
    var eventId := ReadString(doc, EventIdKey);
    var geoLocation := ReadGeo(doc, GeoLocationKey);
    var startTime := ReadTime(doc, StartTimeKey);
    var endTime := ReadTime(doc, EndTimeKey);
    var organiserId := ReadString(doc, OrganiserIdKey);
    if title.Some? && description.Some? && bannerUrl.Some? && address.Some? && category.Some?
      && participants.Some? && eventId.Some? && geoLocation.Some? && startTime.Some?
      && endTime.Some? && organiserId.Some?
    then
      Some(Event(title.value, description.value, bannerUrl.value, address.value, category.value,
                 participants.value, eventId.value, geoLocation.value, startTime.value,
                 endTime.value, organiserId.value))
    else None
  }

  /** The type each stored key must hold for `toObject` to succeed; other keys are ignored. */
  predicate FieldFits(key: string, v: Value) {
    if key in {TitleKey, DescriptionKey, BannerUrlKey, AddressKey, CategoryKey, EventIdKey, OrganiserIdKey}
    then v.Str?
    else if key == ParticipantsKey then v.StrList?
    else if key == GeoLocationKey then v.Null? || v.Geo?
    else if key in {StartTimeKey, EndTimeKey} then v.Null? || v.Time?
    else true
  }

  predicate WellTyped(doc: Document) {
    forall k :: k in doc ==> FieldFits(k, doc[k])
  }

  /** `toObject` fails exactly on a document with a stored field of the wrong type. */
  lemma DecodeSucceedsIffWellTyped(doc: Document)
    ensures Decode(doc).Some? <==> WellTyped(doc)
  {
    if WellTyped(doc) {
      WellTypedDecodes(doc);
    }
    if Decode(doc).Some? {
      forall k | k in doc ensures FieldFits(k, doc[k]) {
        if k == TitleKey {} else if k == DescriptionKey {} else if k == BannerUrlKey {}
        else if k == AddressKey {} else if k == CategoryKey {} else if k == EventIdKey {}
        else if k == OrganiserIdKey {} else if k == ParticipantsKey {} else if k == GeoLocationKey {}
        else if k == StartTimeKey {} else if k == EndTimeKey {}
      }
    }
  }

  lemma WellTypedDecodes(doc: Document)
    requires WellTyped(doc)
    ensures Decode(doc).Some?
  {
    StringFieldReads(doc, TitleKey);
    StringFieldReads(doc, DescriptionKey);
    StringFieldReads(doc, BannerUrlKey);
    StringFieldReads(doc, AddressKey);
    StringFieldReads(doc, CategoryKey);
    StringFieldReads(doc, EventIdKey);
    StringFieldReads(doc, OrganiserIdKey);
    assert ParticipantsKey in doc ==> FieldFits(ParticipantsKey, doc[ParticipantsKey]);
    assert GeoLocationKey in doc ==> FieldFits(GeoLocationKey, doc[GeoLocationKey]);
    assert StartTimeKey in doc ==> FieldFits(StartTimeKey, doc[StartTimeKey]);
    assert EndTimeKey in doc ==> FieldFits(EndTimeKey, doc[EndTimeKey]);
  }

  lemma StringFieldReads(doc: Document, key: string)
    requires WellTyped(doc)
    requires key in {TitleKey, DescriptionKey, BannerUrlKey, AddressKey, CategoryKey, EventIdKey, OrganiserIdKey}
    ensures ReadString(doc, key).Some?
  {
    if key in doc {
      assert FieldFits(key, doc[key]);
    }
  }

  /** The entry `set(event)` stores under each key. */
  lemma EncodeEntries(e: Event)
    ensures var doc := Encode(e);
      && doc[TitleKey] == Str(e.title) && doc[DescriptionKey] == Str(e.description)
      && doc[BannerUrlKey] == Str(e.bannerUrl) && doc[AddressKey] == Str(e.address)
      && doc[CategoryKey] == Str(e.category) && doc[ParticipantsKey] == StrList(e.participants)
      && doc[EventIdKey] == Str(e.eventId) && doc[GeoLocationKey] == OptionalGeo(e.geoLocation)
      && doc[StartTimeKey] == OptionalTime(e.startTime) && doc[EndTimeKey] == OptionalTime(e.endTime)
      && doc[OrganiserIdKey] == Str(e.organiserId)
  {
  }

  // Helper: each field of a converted document is what its reader returned.
  lemma DecodeFields(doc: Document)
    requires Decode(doc).Some?
    ensures var e := Decode(doc).value;
      && Some(e.title) == ReadString(doc, TitleKey) && Some(e.description) == ReadString(doc, DescriptionKey)
      && Some(e.bannerUrl) == ReadString(doc, BannerUrlKey) && Some(e.address) == ReadString(doc, AddressKey)
      && Some(e.category) == ReadString(doc, CategoryKey)
      && Some(e.participants) == ReadStringList(doc, ParticipantsKey)
      && Some(e.eventId) == ReadString(doc, EventIdKey) && Some(e.geoLocation) == ReadGeo(doc, GeoLocationKey)
      && Some(e.startTime) == ReadTime(doc, StartTimeKey) && Some(e.endTime) == ReadTime(doc, EndTimeKey)
      && Some(e.organiserId) == ReadString(doc, OrganiserIdKey)
  {
  }

  /** A stored key present, and not null, in a document that converts is stored again with the same value. */
  lemma DecodeKeepsPresent(doc: Document, k: string)
    requires Decode(doc).Some? && k in StoredKeys
    ensures k in doc && !doc[k].Null? ==> Encode(Decode(doc).value)[k] == doc[k]
  {
    DecodeFields(doc);
    EncodeEntries(Decode(doc).value);
    if k == TitleKey {} else if k == DescriptionKey {} else if k == BannerUrlKey {}
    else if k == AddressKey {} else if k == CategoryKey {} else if k == ParticipantsKey {}
    else if k == EventIdKey {} else if k == GeoLocationKey {} else if k == StartTimeKey {}
    else if k == EndTimeKey {} else {}
  }

  /** A stored key absent from a document that converts is stored with the default's value. */
  lemma DecodeDefaultsAbsent(doc: Document, k: string)
    requires Decode(doc).Some? && k in StoredKeys
    ensures k !in doc ==> Encode(Decode(doc).value)[k] == Encode(Event())[k]
  {
    if k !in doc {
      var e, d := Decode(doc).value, Event();
      DecodeFields(doc);
      EncodeEntries(e);
      EncodeEntries(d);
      if k == TitleKey { assert e.title == d.title; }
      else if k == DescriptionKey { assert e.description == d.description; }
      else if k == BannerUrlKey { assert e.bannerUrl == d.bannerUrl; }
      else if k == AddressKey { assert e.address == d.address; }
      else if k == CategoryKey { assert e.category == d.category; }
      else if k == ParticipantsKey { assert e.participants == d.participants; }
      else if k == EventIdKey { assert e.eventId == d.eventId; }
      else if k == GeoLocationKey { assert e.geoLocation == d.geoLocation; }
      else if k == StartTimeKey { assert e.startTime == d.startTime; }
      else if k == EndTimeKey { assert e.endTime == d.endTime; }
      else { assert e.organiserId == d.organiserId; }
    }
  }

  /** The eleven stored keys are pairwise distinct. */
  lemma StoredKeysDistinct()
    ensures |StoredKeys| == 11
  {
  }

  /** A default-constructed `Event` is empty: blank strings, no participants, no point, no times. */
  lemma DefaultEventIsEmpty()
    ensures var e := Event();
      && e.title == e.description == e.bannerUrl == e.address == e.category == ""
      && e.eventId == e.organiserId == ""
      && e.participants == []
      && e.geoLocation.None? && e.startTime.None? && e.endTime.None?
  {
  }

  /** An empty document reads back as the default `Event`. */
  lemma DecodeEmpty()
    ensures Decode(map[]) == Some(Event())
  {
  }

  /** Storing an `Event` and reading it back gives the same `Event`. */
  lemma EncodeDecode(e: Event)
    ensures Decode(Encode(e)) == Some(e)
  {
    var doc := Encode(e);
    assert ReadGeo(doc, GeoLocationKey) == Some(e.geoLocation);
    assert ReadTime(doc, StartTimeKey) == Some(e.startTime);
    assert ReadTime(doc, EndTimeKey) == Some(e.endTime);
  }
}

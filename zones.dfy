/**
 * The Zone document and the two ways the handlers write it: POST /zones fills
 * a new document from the request body, PUT /zones/:id overwrites the fields
 * of a stored one for which the body carries a truthy value.
 */
module Zones {
  import opened Js

  /** A text held in English and in Thai. */
  datatype Localized = Localized(en: JsValue, th: JsValue)

  datatype Location = Location(latitude: JsValue, longitude: JsValue)

  /** `updateAt`: never stamped, or stamped at a time in milliseconds. */
  datatype Timestamp = Unset | At(ms: int)

  /** A zone as the handlers see it: the fields they read or write. */
  datatype Zone = Zone(
    name: Localized,
    places: JsValue,
    thumbnail: JsValue,
    banner: JsValue,
    welcomeMessage: Localized,
    shortName: Localized,
    description: Localized,
    website: JsValue,
    zoneType: JsValue,
    location: Location,
    updateAt: Timestamp)

  /** The fields of a POST or PUT body that the handlers read. */
  datatype ZoneBody = ZoneBody(
    nameEN: JsValue,
    nameTH: JsValue,
    places: JsValue,
    thumbnail: JsValue,
    banner: JsValue,
    welcomeMessageEN: JsValue,
    welcomeMessageTH: JsValue,
    shortNameEN: JsValue,
    shortNameTH: JsValue,
    descriptionEN: JsValue,
    descriptionTH: JsValue,
    website: JsValue,
    zoneType: JsValue,
    locationLat: JsValue,
    locationLong: JsValue)

  /** The fifteen body fields, each naming the zone field it writes. */
  datatype BodyField =
    | NameEN | NameTH | Places | Thumbnail | Banner
    | WelcomeMessageEN | WelcomeMessageTH | ShortNameEN | ShortNameTH
    | DescriptionEN | DescriptionTH | Website | Type | LocationLat | LocationLong

  /** The body fields POST copies only when they are truthy. */
  predicate Optional(f: BodyField)
  {
    f.Thumbnail? || f.Banner? || f.Website?
  }

  function BodyValue(b: ZoneBody, f: BodyField): JsValue
  {
    match f
    case NameEN => b.nameEN
    case NameTH => b.nameTH
    case Places => b.places
    case Thumbnail => b.thumbnail
    case Banner => b.banner
    case WelcomeMessageEN => b.welcomeMessageEN
    case WelcomeMessageTH => b.welcomeMessageTH
    case ShortNameEN => b.shortNameEN
    case ShortNameTH => b.shortNameTH
    case DescriptionEN => b.descriptionEN
    case DescriptionTH => b.descriptionTH
    case Website => b.website
    case Type => b.zoneType
    case LocationLat => b.locationLat
    case LocationLong => b.locationLong
  }

  /** The zone field that body field `f` writes. */
  function Slot(z: Zone, f: BodyField): JsValue
  {
    match f
    case NameEN => z.name.en
    case NameTH => z.name.th
    case Places => z.places
    case Thumbnail => z.thumbnail
    case Banner => z.banner
    case WelcomeMessageEN => z.welcomeMessage.en
    case WelcomeMessageTH => z.welcomeMessage.th
    case ShortNameEN => z.shortName.en
    case ShortNameTH => z.shortName.th
    case DescriptionEN => z.description.en
    case DescriptionTH => z.description.th
    case Website => z.website
    case Type => z.zoneType
    case LocationLat => z.location.latitude
    case LocationLong => z.location.longitude
  }

  /**
   * The fifteen slots and `updateAt` are the whole zone: two zones that agree
   * on them are the same zone. So a statement about every slot and the stamp
   * leaves nothing else that could have changed.
   */
  lemma SlotsDetermineZone(z1: Zone, z2: Zone)
    requires forall f :: Slot(z1, f) == Slot(z2, f)
    requires z1.updateAt == z2.updateAt
    ensures z1 == z2
  {
    assert z1.name == z2.name by {
      assert Slot(z1, NameEN) == Slot(z2, NameEN) && Slot(z1, NameTH) == Slot(z2, NameTH);
    }
    assert z1.places == z2.places by { assert Slot(z1, Places) == Slot(z2, Places); }
    assert z1.thumbnail == z2.thumbnail by { assert Slot(z1, Thumbnail) == Slot(z2, Thumbnail); }
    assert z1.banner == z2.banner by { assert Slot(z1, Banner) == Slot(z2, Banner); }
    assert z1.welcomeMessage == z2.welcomeMessage by {
      assert Slot(z1, WelcomeMessageEN) == Slot(z2, WelcomeMessageEN);
      assert Slot(z1, WelcomeMessageTH) == Slot(z2, WelcomeMessageTH);
    }
    assert z1.shortName == z2.shortName by {
      assert Slot(z1, ShortNameEN) == Slot(z2, ShortNameEN);
      assert Slot(z1, ShortNameTH) == Slot(z2, ShortNameTH);
    }
    assert z1.description == z2.description by {
      assert Slot(z1, DescriptionEN) == Slot(z2, DescriptionEN);
      assert Slot(z1, DescriptionTH) == Slot(z2, DescriptionTH);
    }
    assert z1.website == z2.website by { assert Slot(z1, Website) == Slot(z2, Website); }
    assert z1.zoneType == z2.zoneType by { assert Slot(z1, Type) == Slot(z2, Type); }
    assert z1.location == z2.location by {
      assert Slot(z1, LocationLat) == Slot(z2, LocationLat);
      assert Slot(z1, LocationLong) == Slot(z2, LocationLong);
    }
  }

  /** `if (v) { field = v; }`: the new value of a field guarded by `v`. */
  function Keep(v: JsValue, current: JsValue): JsValue
  {
    if Truthy(v) then v else current
  }

  /** What `new Zone()` holds before any assignment (schema defaults aside). */
  const Blank: Zone := Zone(
    Localized(Undefined, Undefined), Undefined, Undefined, Undefined,
    Localized(Undefined, Undefined), Localized(Undefined, Undefined),
    Localized(Undefined, Undefined), Undefined, Undefined,
    Location(Undefined, Undefined), Unset)

  /** The document POST builds from `initial` by assigning the body's fields. */
  function Created(initial: Zone, b: ZoneBody): Zone
  {
    initial.(
      name := Localized(b.nameEN, b.nameTH),
      places := b.places,
      thumbnail := Keep(b.thumbnail, initial.thumbnail),
      banner := Keep(b.banner, initial.banner),
      welcomeMessage := Localized(b.welcomeMessageEN, b.welcomeMessageTH),
      shortName := Localized(b.shortNameEN, b.shortNameTH),
      description := Localized(b.descriptionEN, b.descriptionTH),
      website := Keep(b.website, initial.website),
      zoneType := b.zoneType,
      location := Location(b.locationLat, b.locationLong))
  }

  /** The document PUT saves from the stored `z` by its guarded assignments. */
  function Merged(z: Zone, b: ZoneBody, now: int): Zone
  {
    Zone(
      Localized(Keep(b.nameEN, z.name.en), Keep(b.nameTH, z.name.th)),
      Keep(b.places, z.places),
      Keep(b.thumbnail, z.thumbnail),
      Keep(b.banner, z.banner),
      Localized(Keep(b.welcomeMessageEN, z.welcomeMessage.en), Keep(b.welcomeMessageTH, z.welcomeMessage.th)),
      Localized(Keep(b.shortNameEN, z.shortName.en), Keep(b.shortNameTH, z.shortName.th)),
      Localized(Keep(b.descriptionEN, z.description.en), Keep(b.descriptionTH, z.description.th)),
      Keep(b.website, z.website),
      Keep(b.zoneType, z.zoneType),
      Location(Keep(b.locationLat, z.location.latitude), Keep(b.locationLong, z.location.longitude)),
      At(now))
  }

  /**
   * PUT, field by field: a slot takes the body's value exactly when that
   * value is truthy, keeps its stored value otherwise, and `updateAt` is
   * always the stamp.
   */
  lemma MergedSlots(z: Zone, b: ZoneBody, now: int)
    ensures forall f :: Truthy(BodyValue(b, f)) ==> Slot(Merged(z, b, now), f) == BodyValue(b, f)
    ensures forall f :: !Truthy(BodyValue(b, f)) ==> Slot(Merged(z, b, now), f) == Slot(z, f)
    ensures Merged(z, b, now).updateAt == At(now)
  {
    forall f
      ensures Slot(Merged(z, b, now), f) == Keep(BodyValue(b, f), Slot(z, f))
    {
      match f
      case NameEN =>
      case NameTH =>
      case Places =>
      case Thumbnail =>
      case Banner =>
      case WelcomeMessageEN =>
      case WelcomeMessageTH =>
      case ShortNameEN =>
      case ShortNameTH =>
      case DescriptionEN =>
      case DescriptionTH =>
      case Website =>
      case Type =>
      case LocationLat =>
      case LocationLong =>
    }
  }

  /** A PUT whose body has no truthy field changes nothing but the stamp. */
  lemma MergeWithFalsyBody(z: Zone, b: ZoneBody, now: int)
    requires forall f :: !Truthy(BodyValue(b, f))
    ensures Merged(z, b, now) == z.(updateAt := At(now))
  {
    var z' := z.(updateAt := At(now));
    MergedSlots(z, b, now);
    assert forall f :: Slot(z', f) == Slot(z, f);
    SlotsDetermineZone(Merged(z, b, now), z');
  }

  /** A PUT whose body has every field truthy replaces all fifteen slots. */
  lemma MergeWithFullBody(z: Zone, b: ZoneBody, now: int)
    requires forall f :: Truthy(BodyValue(b, f))
    ensures forall f :: Slot(Merged(z, b, now), f) == BodyValue(b, f)
  {
    MergedSlots(z, b, now);
  }

  /** Repeating a PUT with the same body changes only the stamp. */
  lemma MergeIsIdempotent(z: Zone, b: ZoneBody, t1: int, t2: int)
    ensures Merged(Merged(z, b, t1), b, t2) == Merged(z, b, t2)
  {
    var once := Merged(z, b, t1);
    MergedSlots(z, b, t1);
    MergedSlots(once, b, t2);
    MergedSlots(z, b, t2);
    SlotsDetermineZone(Merged(once, b, t2), Merged(z, b, t2));
  }

  /** A body made of the truthy fields of `later`, and of `earlier` elsewhere. */
  function Overlay(earlier: ZoneBody, later: ZoneBody): ZoneBody
  {
    ZoneBody(
      Keep(later.nameEN, earlier.nameEN), Keep(later.nameTH, earlier.nameTH),
      Keep(later.places, earlier.places), Keep(later.thumbnail, earlier.thumbnail),
      Keep(later.banner, earlier.banner),
      Keep(later.welcomeMessageEN, earlier.welcomeMessageEN),
      Keep(later.welcomeMessageTH, earlier.welcomeMessageTH),
      Keep(later.shortNameEN, earlier.shortNameEN), Keep(later.shortNameTH, earlier.shortNameTH),
      Keep(later.descriptionEN, earlier.descriptionEN),
      Keep(later.descriptionTH, earlier.descriptionTH),
      Keep(later.website, earlier.website), Keep(later.zoneType, earlier.zoneType),
      Keep(later.locationLat, earlier.locationLat), Keep(later.locationLong, earlier.locationLong))
  }

  /** Overlaying takes, field by field, the later body's value when it is truthy. */
  lemma OverlayValues(earlier: ZoneBody, later: ZoneBody)
    ensures forall f :: BodyValue(Overlay(earlier, later), f) == Keep(BodyValue(later, f), BodyValue(earlier, f))
  {
    forall f
      ensures BodyValue(Overlay(earlier, later), f) == Keep(BodyValue(later, f), BodyValue(earlier, f))
    {
      match f
      case NameEN =>
      case NameTH =>
      case Places =>
      case Thumbnail =>
      case Banner =>
      case WelcomeMessageEN =>
      case WelcomeMessageTH =>
      case ShortNameEN =>
      case ShortNameTH =>
      case DescriptionEN =>
      case DescriptionTH =>
      case Website =>
      case Type =>
      case LocationLat =>
      case LocationLong =>
    }
  }

  /**
   * Two PUTs in a row have the effect of one whose body is the later body
   * laid over the earlier, stamped at the later time.
   */
  lemma MergesCompose(z: Zone, earlier: ZoneBody, t1: int, later: ZoneBody, t2: int)
    ensures Merged(Merged(z, earlier, t1), later, t2) == Merged(z, Overlay(earlier, later), t2)
  {
    var both := Overlay(earlier, later);
    MergedSlots(z, earlier, t1);
    MergedSlots(Merged(z, earlier, t1), later, t2);
    MergedSlots(z, both, t2);
    OverlayValues(earlier, later);
    SlotsDetermineZone(Merged(Merged(z, earlier, t1), later, t2), Merged(z, both, t2));
  }

  /**
   * POST, field by field: every slot takes the body's value, except that
   * `thumbnail`, `banner` and `website` take it only when it is truthy and
   * otherwise keep what the new document held; `updateAt` is not touched.
   */
  lemma CreatedSlots(initial: Zone, b: ZoneBody)
    ensures forall f :: !Optional(f) ==> Slot(Created(initial, b), f) == BodyValue(b, f)
    ensures forall f :: Optional(f) && Truthy(BodyValue(b, f)) ==> Slot(Created(initial, b), f) == BodyValue(b, f)
    ensures forall f :: Optional(f) && !Truthy(BodyValue(b, f)) ==> Slot(Created(initial, b), f) == Slot(initial, f)
    ensures Created(initial, b).updateAt == initial.updateAt
  {
    forall f
      ensures Slot(Created(initial, b), f) ==
              if Optional(f) then Keep(BodyValue(b, f), Slot(initial, f)) else BodyValue(b, f)
    {
      match f
      case NameEN =>
      case NameTH =>
      case Places =>
      case Thumbnail =>
      case Banner =>
      case WelcomeMessageEN =>
      case WelcomeMessageTH =>
      case ShortNameEN =>
      case ShortNameTH =>
      case DescriptionEN =>
      case DescriptionTH =>
      case Website =>
      case Type =>
      case LocationLat =>
      case LocationLong =>
    }
  }

  /**
   * A POST whose optional fields are truthy stores exactly what was sent:
   * every slot of the created zone, localized pairs included, is the body's value.
   */
  lemma CreateRoundTrip(initial: Zone, b: ZoneBody)
    requires Truthy(b.thumbnail) && Truthy(b.banner) && Truthy(b.website)
    ensures forall f :: Slot(Created(initial, b), f) == BodyValue(b, f)
  {
    CreatedSlots(initial, b);
    forall f | Optional(f)
      ensures Truthy(BodyValue(b, f))
    {
    }
  }

  /**
   * Whatever a body sets to a truthy value, POST and PUT store alike: the
   * two handlers differ only on the fields the body leaves falsy.
   */
  lemma CreateAndUpdateAgree(initial: Zone, z: Zone, b: ZoneBody, now: int)
    ensures forall f :: Truthy(BodyValue(b, f)) ==> Slot(Created(initial, b), f) == Slot(Merged(z, b, now), f)
  {
    CreatedSlots(initial, b);
    MergedSlots(z, b, now);
  }

  /**
   * A zone document whose fields the handlers assign one by one. The store
   * hands one over from `findById`, and POST makes one with `new Zone()`.
   */
  class ZoneDocument {
    var name: Localized
    var places: JsValue
    var thumbnail: JsValue
    var banner: JsValue
    var welcomeMessage: Localized
    var shortName: Localized
    var description: Localized
    var website: JsValue
    var zoneType: JsValue
    var location: Location
    var updateAt: Timestamp

    /** The zone this document currently holds. */
    function Value(): Zone
      reads this
    {
      Zone(name, places, thumbnail, banner, welcomeMessage, shortName,
           description, website, zoneType, location, updateAt)
    }

    /** `new Zone()` in the POST handler. */
    constructor ()
      ensures Value() == Blank
    {
      name := Localized(Undefined, Undefined);
      places := Undefined;
      thumbnail := Undefined;
      banner := Undefined;
      welcomeMessage := Localized(Undefined, Undefined);
      shortName := Localized(Undefined, Undefined);
      description := Localized(Undefined, Undefined);
      website := Undefined;
      zoneType := Undefined;
      location := Location(Undefined, Undefined);
      updateAt := Unset;
    }

    /** The document `findById` passes to its callback, holding the stored zone. */
    constructor Load(z: Zone)
      ensures Value() == z
    {
      name := z.name;
      places := z.places;
      thumbnail := z.thumbnail;
      banner := z.banner;
      welcomeMessage := z.welcomeMessage;
      shortName := z.shortName;
      description := z.description;
      website := z.website;
      zoneType := z.zoneType;
      location := z.location;
      updateAt := z.updateAt;
    }

    /** POST's assignments from the body. */
    method FillFromBody(body: ZoneBody)
      modifies this
      ensures Value() == Created(old(Value()), body)
    {
      FillNameAndMedia(body);
      FillTexts(body);
      FillRest(body);
    }

    /** POST's assignments of the names, `places`, `thumbnail` and `banner`; `thumbnail` and `banner` only when truthy. */
    method FillNameAndMedia(body: ZoneBody)
      modifies this
      ensures Value() == old(Value()).(name := Localized(body.nameEN, body.nameTH),
                                       places := body.places,
                                       thumbnail := Keep(body.thumbnail, old(thumbnail)),
                                       banner := Keep(body.banner, old(banner)))
    {
      name := name.(en := body.nameEN);
      name := name.(th := body.nameTH);
      places := body.places;
      if Truthy(body.thumbnail) {
        thumbnail := body.thumbnail;
      }
      if Truthy(body.banner) {
        banner := body.banner;
      }
    }

    /** POST's assignments of the six localized texts. */
    method FillTexts(body: ZoneBody)
      modifies this
      ensures Value() == old(Value()).(welcomeMessage := Localized(body.welcomeMessageEN, body.welcomeMessageTH),
                                       shortName := Localized(body.shortNameEN, body.shortNameTH),
                                       description := Localized(body.descriptionEN, body.descriptionTH))
    {
      welcomeMessage := welcomeMessage.(en := body.welcomeMessageEN);
      welcomeMessage := welcomeMessage.(th := body.welcomeMessageTH);
      shortName := shortName.(en := body.shortNameEN);
      shortName := shortName.(th := body.shortNameTH);
      description := description.(en := body.descriptionEN);
      description := description.(th := body.descriptionTH);
    }

    /** POST's assignments of `website`, `type` and the location; `website` only when truthy. */
    method FillRest(body: ZoneBody)
      modifies this
      ensures Value() == old(Value()).(website := Keep(body.website, old(website)),
                                       zoneType := body.zoneType,
                                       location := Location(body.locationLat, body.locationLong))
    {
      if Truthy(body.website) {
        website := body.website;
      }
      zoneType := body.zoneType;
      location := location.(latitude := body.locationLat);
      location := location.(longitude := body.locationLong);
    }

    /** PUT's guarded assignments and the stamp; `now` is `new Date()`. */
    method ApplyUpdate(body: ZoneBody, now: int)
      modifies this
      ensures Value() == Merged(old(Value()), body, now)
    {
      UpdateName(body);
      UpdateMedia(body);
      UpdateWelcomeMessage(body);
      UpdateShortName(body);
      UpdateDescription(body);
      UpdateWebsiteAndType(body);
      UpdateLocation(body);
      updateAt := At(now);
    }

    /** PUT's guarded assignments of the two names. */
    method UpdateName(body: ZoneBody)
      modifies this
      ensures Value() == old(Value()).(name := Localized(Keep(body.nameEN, old(name.en)), Keep(body.nameTH, old(name.th))))
    {
      if Truthy(body.nameEN) {
        name := name.(en := body.nameEN);
      }
      if Truthy(body.nameTH) {
        name := name.(th := body.nameTH);
      }
    }

    /** PUT's guarded assignments of `places`, `thumbnail` and `banner`. */
    method UpdateMedia(body: ZoneBody)
      modifies this
      ensures Value() == old(Value()).(places := Keep(body.places, old(places)),
                                       thumbnail := Keep(body.thumbnail, old(thumbnail)),
                                       banner := Keep(body.banner, old(banner)))
    {
      if Truthy(body.places) {
        places := body.places;
      }
      if Truthy(body.thumbnail) {
        thumbnail := body.thumbnail;
      }
      if Truthy(body.banner) {
        banner := body.banner;
      }
    }

    /** PUT's guarded `welcomeMessage` assignments: Thai first, then English. */
    method UpdateWelcomeMessage(body: ZoneBody)
      modifies this
      ensures Value() == old(Value()).(welcomeMessage := Localized(Keep(body.welcomeMessageEN, old(welcomeMessage.en)),
                                                                   Keep(body.welcomeMessageTH, old(welcomeMessage.th))))
    {
      if Truthy(body.welcomeMessageTH) {
        welcomeMessage := welcomeMessage.(th := body.welcomeMessageTH);
      }
      if Truthy(body.welcomeMessageEN) {
        welcomeMessage := welcomeMessage.(en := body.welcomeMessageEN);
      }
    }

    /** PUT's guarded `shortName` assignments: Thai first, then English. */
    method UpdateShortName(body: ZoneBody)
      modifies this
      ensures Value() == old(Value()).(shortName := Localized(Keep(body.shortNameEN, old(shortName.en)),
                                                              Keep(body.shortNameTH, old(shortName.th))))
    {
      if Truthy(body.shortNameTH) {
        shortName := shortName.(th := body.shortNameTH);
      }
      if Truthy(body.shortNameEN) {
        shortName := shortName.(en := body.shortNameEN);
      }
    }

    /** PUT's guarded `description` assignments: Thai first, then English. */
    method UpdateDescription(body: ZoneBody)
      modifies this
      ensures Value() == old(Value()).(description := Localized(Keep(body.descriptionEN, old(description.en)),
                                                                Keep(body.descriptionTH, old(description.th))))
    {
      if Truthy(body.descriptionTH) {
        description := description.(th := body.descriptionTH);
      }
      if Truthy(body.descriptionEN) {
        description := description.(en := body.descriptionEN);
      }
    }

    /** PUT's guarded assignments of `website` and `type`. */
    method UpdateWebsiteAndType(body: ZoneBody)
      modifies this
      ensures Value() == old(Value()).(website := Keep(body.website, old(website)),
                                       zoneType := Keep(body.zoneType, old(zoneType)))
    {
      if Truthy(body.website) {
        website := body.website;
      }
      if Truthy(body.zoneType) {
        zoneType := body.zoneType;
      }
    }

    /** PUT's guarded assignments of latitude and longitude. */
    method UpdateLocation(body: ZoneBody)
      modifies this
      ensures Value() == old(Value()).(location := Location(Keep(body.locationLat, old(location.latitude)),
                                                            Keep(body.locationLong, old(location.longitude))))
    {
      if Truthy(body.locationLat) {
        location := location.(latitude := body.locationLat);
      }
      if Truthy(body.locationLong) {
        location := location.(longitude := body.locationLong);
      }
    }
  }
}

/** The check-in records of the Untappd feed, as decoded from its JSON, and
    the venue accessors that blank the location of the "Untappd at Home"
    pseudo-venue and of a missing venue. Floating-point fields are the exact
    real numbers the floats denote. */
module Untappd {
  import opened Wrappers
  import opened Decimal
  import FloatText

  /** The venue name Untappd gives check-ins made at home. */
  const VenueUntappdAtHome: string := "Untappd at Home"

  datatype Location = Location(lat: real, lng: real, city: string, state: string, country: string)

  datatype Venue = Venue(venueName: string, location: Location)

  /** One media item: the URL of its full-size photo. */
  datatype MediaItem = MediaItem(photoImgOg: string)

  /** `beerImage` is the brewery's picture of the beer, which the photo
      savers fall back to. */
  datatype Beer = Beer(beerName: string, beerStyle: string, beerABV: real, beerImage: string)

  datatype Brewery = Brewery(breweryName: string, breweryCountry: string)

  /** A check-in. Its venue is a `*Venue` in the feed, nil when the
      check-in has none. */
  datatype Checkin = Checkin(
    checkinID: Int64,
    checkinComment: string,
    ratingScore: real,
    createdAt: string,
    media: seq<MediaItem>,
    beer: Beer,
    brewery: Brewery,
    venue: Option<Venue>)

  /** Go's zero `Venue`: what code that reads the venue as a value sees for
      a check-in without one. */
  const ZeroVenue: Venue := Venue("", Location(0.0, 0.0, "", "", ""))

  function VenueOrZero(v: Option<Venue>): Venue {
    if v.Some? then v.value else ZeroVenue
  }

  /** The location of a missing venue and of the at-home venue is private. */
  predicate Redacted(v: Option<Venue>) {
    v.None? || v.value.venueName == VenueUntappdAtHome
  }

  function Name(v: Option<Venue>): string {
    if v.None? then "" else v.value.venueName
  }

  function City(v: Option<Venue>): string {
    if Redacted(v) then "" else v.value.location.city
  }

  function State(v: Option<Venue>): string {
    if Redacted(v) then "" else v.value.location.state
  }

  function Country(v: Option<Venue>): string {
    if Redacted(v) then "" else v.value.location.country
  }

  /** `fmt.Sprintf("%f,%f", lat, lng)` of a visible location. */
  function LatLngText(lat: real, lng: real): string {
    FloatText.FormatFixed(lat, 6) + "," + FloatText.FormatFixed(lng, 6)
  }

  function LatLng(v: Option<Venue>): string {
    if Redacted(v) then "" else LatLngText(v.value.location.lat, v.value.location.lng)
  }

  /** The coordinate text holds exactly one comma, so both numbers can be
      told apart, and it is never empty. */
  lemma LatLngTextShape(lat: real, lng: real)
    ensures var r := LatLngText(lat, lng);
      var k := |FloatText.FormatFixed(lat, 6)|;
      k < |r| && r[k] == ',' && ',' !in r[..k] && ',' !in r[k + 1..]
      && r[..k] == FloatText.FormatFixed(lat, 6) && r[k + 1..] == FloatText.FormatFixed(lng, 6)
  {
    FloatText.FormatFixedShape(lat, 6);
    FloatText.FormatFixedShape(lng, 6);
    var a, b := FloatText.FormatFixed(lat, 6), FloatText.FormatFixed(lng, 6);
    var r := a + "," + b;
    assert r[..|a|] == a && r[|a| + 1..] == b;
  }

  /** The coordinates are blank exactly when the venue is missing or is the
      at-home venue. */
  lemma LatLngBlankIffRedacted(v: Option<Venue>)
    ensures LatLng(v) == "" <==> Redacted(v)
  {
    if !Redacted(v) {
      LatLngTextShape(v.value.location.lat, v.value.location.lng);
    }
  }

  /** A missing venue answers "" to every accessor. */
  lemma MissingVenueIsBlank()
    ensures Name(None) == "" && City(None) == "" && State(None) == ""
    ensures Country(None) == "" && LatLng(None) == ""
  {
  }

  /** The at-home venue keeps its name but shows no location. */
  lemma AtHomeVenueKeepsOnlyItsName(loc: Location)
    ensures var v := Some(Venue(VenueUntappdAtHome, loc));
      Name(v) == VenueUntappdAtHome
      && City(v) == "" && State(v) == "" && Country(v) == "" && LatLng(v) == ""
  {
  }

  /** Any other venue shows its location as it is, and non-blank coordinates. */
  lemma OtherVenueIsShown(v: Venue)
    requires v.venueName != VenueUntappdAtHome
    ensures Name(Some(v)) == v.venueName
    ensures City(Some(v)) == v.location.city && State(Some(v)) == v.location.state
    ensures Country(Some(v)) == v.location.country
    ensures LatLng(Some(v)) == LatLngText(v.location.lat, v.location.lng) != ""
  {
    LatLngBlankIffRedacted(Some(v));
  }

  /** The photo the recorder saves: the first media item's URL, even when
      that URL is empty, and "" for a check-in without media. */
  function FirstPhotoURL(c: Checkin): (url: string)
    ensures |c.media| > 0 ==> url == c.media[0].photoImgOg
    ensures |c.media| == 0 ==> url == ""
  {
    if |c.media| > 0 then c.media[0].photoImgOg else ""
  }

  /** The photo the older saver keeps: the first media item's URL when there
      is any media (an empty URL does not fall back), otherwise the beer's
      own picture. */
  function FallbackPhotoURL(c: Checkin): (url: string)
    ensures |c.media| > 0 ==> url == c.media[0].photoImgOg
    ensures |c.media| == 0 ==> url == c.beer.beerImage
    ensures url == "" <==> (|c.media| > 0 && c.media[0].photoImgOg == "") || (|c.media| == 0 && c.beer.beerImage == "")
  {
    if |c.media| > 0 then c.media[0].photoImgOg
    else if c.beer.beerImage != "" then c.beer.beerImage
    else ""
  }

  /** The recorder's choice has no beer-picture fallback: it differs from
      the saver's exactly when there is no media and the beer has a
      picture, and then the recorder has no photo URL at all. */
  lemma FirstPhotoDiffersFromFallback(c: Checkin)
    ensures FirstPhotoURL(c) != FallbackPhotoURL(c) <==> |c.media| == 0 && c.beer.beerImage != ""
    ensures FirstPhotoURL(c) != FallbackPhotoURL(c) ==> FirstPhotoURL(c) == ""
  {
  }
}

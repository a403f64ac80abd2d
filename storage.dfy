/** The metadata stored with each photo, and its serialisation into the
    object's user metadata. */
module Storage {
  import opened ObjectStore

  /** The fourteen text fields of a photo's metadata. */
  datatype CheckinMetadata = CheckinMetadata(
    id: string,
    beer: string,
    brewery: string,
    breweryCountry: string,
    comment: string,
    rating: string,
    venue: string,
    city: string,
    state: string,
    country: string,
    latLng: string,
    date: string,
    style: string,
    abv: string)

  /** Metadata with every field empty, which callers fill in part of. */
  const Blank: CheckinMetadata := CheckinMetadata("", "", "", "", "", "", "", "", "", "", "", "", "", "")

  /** The names the fields are stored under. */
  const Keys: set<string> := {
    "id", "beer", "brewery", "brewery_country", "comment", "rating", "venue",
    "city", "state", "country", "latlng", "date", "style", "abv"
  }

  /** `ToMap`: every field under its own name, empty fields included. */
  function ToMap(m: CheckinMetadata): (r: Metadata)
    ensures r.Keys == Keys
  {
    map[
      "id" := m.id,
      "beer" := m.beer,
      "brewery" := m.brewery,
      "brewery_country" := m.breweryCountry,
      "comment" := m.comment,
      "rating" := m.rating,
      "venue" := m.venue,
      "city" := m.city,
      "state" := m.state,
      "country" := m.country,
      "latlng" := m.latLng,
      "date" := m.date,
      "style" := m.style,
      "abv" := m.abv
    ]
  }

  /** Reads the fields back from their names. */
  function FromMap(r: Metadata): CheckinMetadata
    requires Keys <= r.Keys
  {
    CheckinMetadata(
      r["id"], r["beer"], r["brewery"], r["brewery_country"], r["comment"],
      r["rating"], r["venue"], r["city"], r["state"], r["country"],
      r["latlng"], r["date"], r["style"], r["abv"])
  }

  /** Serialising loses no field. */
  lemma FromMapOfToMap(m: CheckinMetadata)
    ensures FromMap(ToMap(m)) == m
  {
  }

  /** Distinct metadata serialise to distinct maps. */
  lemma ToMapInjective(m: CheckinMetadata, n: CheckinMetadata)
    requires ToMap(m) == ToMap(n)
    ensures m == n
  {
    FromMapOfToMap(m);
    FromMapOfToMap(n);
  }

  /** Each field is found under its own name, and an empty field is still
      present as "". */
  lemma ToMapFields(m: CheckinMetadata)
    ensures var r := ToMap(m);
      r["id"] == m.id && r["beer"] == m.beer && r["brewery"] == m.brewery
      && r["brewery_country"] == m.breweryCountry && r["comment"] == m.comment
      && r["rating"] == m.rating && r["venue"] == m.venue && r["city"] == m.city
      && r["state"] == m.state && r["country"] == m.country && r["latlng"] == m.latLng
      && r["date"] == m.date && r["style"] == m.style && r["abv"] == m.abv
  {
  }

  /** Every field of the blank metadata is stored, as "". */
  lemma BlankHasEveryKey()
    ensures forall k :: k in ToMap(Blank) ==> ToMap(Blank)[k] == ""
    ensures ToMap(Blank).Keys == Keys
  {
  }
}

/** The recorder command: read the cursor from the store, fetch the feed
    from just after it, and move the cursor to the newest check-in of the
    first page. Its per-page work only logs (the photo save is switched off
    in the command), so the feed's processor never fails and the cursor
    update, which does not affect the feed, is replayed over the delivered
    pages in fetch order. */
module Recorder {
  import opened Wrappers
  import opened Decimal
  import opened Clock
  import opened Untappd
  import opened ObjectStore
  import opened Storage
  import opened StorageClient
  import Feed
  import Photo
  import Web
  import FloatText

  /** `util.FormatLatLng`: blank when either coordinate is zero. */
  function FormatLatLng(lat: real, lng: real): (r: string)
    ensures r == "" <==> lat == 0.0 || lng == 0.0
    ensures r != "" ==> r == LatLngText(lat, lng)
  {
    if lat == 0.0 || lng == 0.0 then "" else LatLngText(lat, lng)
  }

  /** The metadata `saveCheckin` builds. It dereferences the `*Venue`
      unconditionally, so the check-in must have one; coordinates are kept only for
      a named venue. */
  function RecordMetadata(c: Checkin): CheckinMetadata
    requires c.venue.Some?
  {
    var v := c.venue.value;
    Blank.(
      id := IntToString(c.checkinID),
      beer := c.beer.beerName,
      brewery := c.brewery.breweryName,
      comment := c.checkinComment,
      rating := FloatText.FormatFixed(c.ratingScore, 2),
      venue := v.venueName,
      date := c.createdAt,
      latLng := if v.venueName == "" then "" else FormatLatLng(v.location.lat, v.location.lng),
      style := c.beer.beerStyle,
      abv := FloatText.FormatFixed(c.beer.beerABV, 2))
  }

  /** `saveCheckin`: the first media photo (or the placeholder) through the
      photo pipeline. */
  method SaveCheckin(store: Client, web: Web.Origin, placeholder: Result<Bytes, string>, transcode: Photo.Transcoder, c: Checkin)
    returns (err: Error)
    requires c.venue.Some?
    modifies store.bucket, web
    ensures web.fetched == old(web.fetched) + Web.Fetches(FirstPhotoURL(c))
    ensures (store.bucket.Now(), err)
      == Photo.SaveStep(store.bucket, web, old(store.bucket.Now()), placeholder, transcode, FirstPhotoURL(c), RecordMetadata(c))
  {
    err := Photo.DownloadAndSave(store, web, placeholder, transcode, FirstPhotoURL(c), RecordMetadata(c));
  }

  /** The cursor, an unsigned 64-bit number, handed to the feed as a signed
      one. cmd/record/main.go passes the `uint64` where an `int` is expected
      and has no conversion, so it does not compile as written; the model
      assumes the repair `int(x)`, which keeps the bits. */
  function AsInt64(u: Uint64): (i: Int64)
    ensures u <= MaxInt64 ==> i == u
    ensures u > MaxInt64 ==> i == u - MaxUint64 - 1
  {
    if u > MaxInt64 then u - MaxUint64 - 1 else u
  }

  /** The page processor `runRecorder` hands the feed. */
  function Silent(page: seq<Checkin>): Error {
    None
  }

  /** The cursor updates of the run over the pages, in order: the first
      non-empty page's first check-in, once. */
  function ReplayStep(b: Bucket, s: State, pages: seq<seq<Checkin>>, done: bool): State
    decreases |pages|
  {
    if pages == [] then s
    else if |pages[0]| > 0 && !done then ReplayStep(b, UpdateStep(b, s, pages[0][0]).0, pages[1..], true)
    else ReplayStep(b, s, pages[1..], done)
  }

  /** `runRecorder`: a failed cursor read stops the run before any request. */
  method RunRecorder(store: Client, token: string, replies: seq<Feed.Reply>) returns (err: Error, requests: seq<Feed.Query>)
    modifies store.bucket
    ensures var (s1, cur) := GetLatestStep(store.bucket, old(store.bucket.Now()));
      (cur.Err? ==> err.Some? && requests == [] && store.bucket.Now() == s1)
      && (cur.Ok? ==>
            var t := Feed.Fetch(token, AsInt64(cur.value), replies, Silent);
            err == t.err && requests == t.requests
            && store.bucket.Now() == ReplayStep(store.bucket, s1, t.pages, false))
  {
    var cursor := store.GetLatestCheckinID();
    if cursor.Err? {
      return Some("error getting latest checkin ID"), [];
    }
    ghost var s1 := store.bucket.Now();
    var pages;
    err, requests, pages := Feed.FetchCheckins(token, AsInt64(cursor.value), replies, Silent);
    var once := false;
    var i := 0;
    while i < |pages|
      invariant 0 <= i <= |pages|
      invariant ReplayStep(store.bucket, store.bucket.Now(), pages[i..], once) == ReplayStep(store.bucket, s1, pages, false)
    {
      assert pages[i..][1..] == pages[i + 1..];
      if |pages[i]| > 0 && !once {
        var _ := store.UpdateLatestCheckinID(pages[i][0]);
        once := true;
      }
      i := i + 1;
    }
  }

  // ---------------------------------------------------------------------
  // Properties

  /** The signed reading gives back any `int` cursor written as unsigned. */
  lemma AsInt64OfAsUint64(i: Int64)
    ensures AsInt64(AsUint64(i)) == i
  {
  }

  /** Coordinates are blank exactly when the venue has no name or a
      coordinate is zero. The at-home venue keeps its coordinates here. */
  lemma RecordLatLng(c: Checkin)
    requires c.venue.Some?
    ensures var v := c.venue.value;
      (RecordMetadata(c).latLng == "" <==> v.venueName == "" || v.location.lat == 0.0 || v.location.lng == 0.0)
      && (RecordMetadata(c).latLng != "" ==> RecordMetadata(c).latLng == LatLngText(v.location.lat, v.location.lng))
  {
  }

  /** The stored id is the check-in's decimal text and reads back as its
      id; the date is kept verbatim; every metadata field is stored. */
  lemma RecordMetadataFields(c: Checkin)
    requires c.venue.Some?
    ensures Atoi(RecordMetadata(c).id) == Some(c.checkinID)
    ensures RecordMetadata(c).date == c.createdAt
    ensures ToMap(RecordMetadata(c)).Keys == Keys
  {
    AtoiOfIntToString(c.checkinID);
  }

  /** A saved check-in's photo lands exactly where the cursor update copies
      from. */
  lemma RecordedPhotoIsCursorSource(c: Checkin)
    requires c.venue.Some? && ParseRFC1123Z(c.createdAt).Some?
    ensures UploadKey(RecordMetadata(c), ".jpg") == Some(CheckinKey(ParseRFC1123Z(c.createdAt).value, c.checkinID))
  {
  }

  /** After the cursor is settled, later pages change nothing. */
  lemma {:induction false} ReplayDone(b: Bucket, s: State, pages: seq<seq<Checkin>>)
    ensures ReplayStep(b, s, pages, true) == s
    decreases |pages|
  {
    if pages != [] {
      ReplayDone(b, s, pages[1..]);
    }
  }

  /** Over pages that are all non-empty (as the feed delivers them), the
      run moves the cursor once, to the first check-in of the first page,
      and leaves the store alone when no page came. */
  lemma ReplayOfDelivered(b: Bucket, s: State, pages: seq<seq<Checkin>>)
    requires forall k :: 0 <= k < |pages| ==> |pages[k]| > 0
    ensures ReplayStep(b, s, pages, false) == if pages == [] then s else UpdateStep(b, s, pages[0][0]).0
  {
    if pages != [] {
      ReplayDone(b, UpdateStep(b, s, pages[0][0]).0, pages[1..]);
    }
  }

  /** The nil-returning processor never aborts the feed: a delivered page
      ends the run with an error only when its `since_url` cursor is bad. */
  lemma SilentNeverAborts(r: Feed.Response)
    requires Feed.Delivers(r)
    ensures var h := Feed.HandleResponse(r, Silent);
      h.err.Some? <==> r.body.pagination.sinceURL != "" && Feed.ParseMinID(r.body.pagination).Err?
  {
  }

  /** A run after a successful cursor update for check-in `c`, whose cursor
      read does not fail, asks the feed for what came after `c` in its first
      request. */
  lemma NextRunStartsAfter(b: Bucket, s: State, c: Checkin, token: string, replies: seq<Feed.Reply>)
    requires UpdateStep(b, s, c).1.None?
    requires !Fails(b, UpdateStep(b, s, c).0)
    ensures var (s2, cur) := GetLatestStep(b, UpdateStep(b, s, c).0);
      cur.Ok? && AsInt64(cur.value) == c.checkinID
      && Feed.Fetch(token, AsInt64(cur.value), replies, Silent).requests[0] == Feed.BuildQuery(token, c.checkinID)
  {
    UpdateThenGetLatest(b, s, c);
    AsInt64OfAsUint64(c.checkinID);
    Feed.FetchOrder(token, c.checkinID, replies, Silent);
  }

  /** A run that got its cursor moves it to the first check-in of the first
      page it was given, and only then. */
  lemma RunMovesCursorToNewest(b: Bucket, s1: State, token: string, cursor: Uint64, replies: seq<Feed.Reply>)
    ensures var t := Feed.Fetch(token, AsInt64(cursor), replies, Silent);
      ReplayStep(b, s1, t.pages, false) == if t.pages == [] then s1 else UpdateStep(b, s1, t.pages[0][0]).0
  {
    var t := Feed.Fetch(token, AsInt64(cursor), replies, Silent);
    Feed.FetchOrder(token, AsInt64(cursor), replies, Silent);
    ReplayOfDelivered(b, s1, t.pages);
  }
}

/** The older Cloudflare R2 store of the saver: photos under keys built from
    the check-in's id, beer name and date with every run of characters
    outside `[A-Za-z0-9_]` squeezed to one underscore, ten metadata entries
    per photo, and a cursor read from the most recently modified object. */
module R2 {
  import opened Wrappers
  import opened Decimal
  import opened Untappd
  import opened ObjectStore
  import Web
  import FloatText

  predicate IsWord(c: char) {
    'a' <= c <= 'z' || 'A' <= c <= 'Z' || '0' <= c <= '9' || c == '_'
  }

  predicate AllWord(s: string) {
    forall i :: 0 <= i < |s| ==> IsWord(s[i])
  }

  predicate AllNonWord(s: string) {
    forall i :: 0 <= i < |s| ==> !IsWord(s[i])
  }

  /** What follows the run of non-word characters at the front. */
  function DropNonWord(s: string): (r: string)
    ensures |r| <= |s| && r == s[|s| - |r|..]
    ensures r == [] || IsWord(r[0])
    decreases |s|
  {
    if s != [] && !IsWord(s[0]) then DropNonWord(s[1..]) else s
  }

  /** `regexp.MustCompile("[^a-zA-Z0-9_]+").ReplaceAllString(s, "_")`: each
      maximal run of non-word characters becomes one underscore. */
  function ReplaceRuns(s: string): (r: string)
    ensures AllWord(r)
    decreases |s|
  {
    if s == [] then []
    else if IsWord(s[0]) then [s[0]] + ReplaceRuns(s[1..])
    else "_" + ReplaceRuns(DropNonWord(s[1..]))
  }

  function TrimLeftUnderscores(s: string): (r: string)
    ensures |r| <= |s| && r == s[|s| - |r|..]
    ensures r == [] || r[0] != '_'
    decreases |s|
  {
    if s != [] && s[0] == '_' then TrimLeftUnderscores(s[1..]) else s
  }

  function TrimRightUnderscores(s: string): (r: string)
    ensures |r| <= |s| && r == s[..|r|]
    ensures r == [] || r[|r| - 1] != '_'
    decreases |s|
  {
    if s != [] && s[|s| - 1] == '_' then TrimRightUnderscores(s[..|s| - 1]) else s
  }

  /** `strings.Trim(s, "_")`. */
  function TrimUnderscores(s: string): string {
    TrimRightUnderscores(TrimLeftUnderscores(s))
  }

  /** One part of the key: squeezed, then trimmed of underscores. */
  function Sanitize(s: string): (r: string)
    ensures AllWord(r)
    ensures r == [] || (r[0] != '_' && r[|r| - 1] != '_')
  {
    var q := ReplaceRuns(s);
    var l := TrimLeftUnderscores(q);
    var r := TrimRightUnderscores(l);
    var a := |q| - |l|;
    assert r == q[a..a + |r|];
    AllWordSlice(q, a, a + |r|);
    r
  }

  lemma AllWordSlice(s: string, a: nat, b: nat)
    requires AllWord(s) && a <= b <= |s|
    ensures AllWord(s[a..b])
  {
    forall i | 0 <= i < b - a
      ensures IsWord(s[a..b][i])
    {
      assert s[a..b][i] == s[a + i];
    }
  }

  /** `strings.Join(parts, sep)`. */
  function JoinWith(parts: seq<string>, sep: string): string
    decreases |parts|
  {
    if parts == [] then ""
    else if |parts| == 1 then parts[0]
    else parts[0] + sep + JoinWith(parts[1..], sep)
  }

  /** `generateSanitizedKey`: the id, then the beer and the date parts that
      are not empty, joined by underscores, then ".jpg". */
  function SanitizedKey(c: Checkin): string {
    var beer := Sanitize(c.beer.beerName);
    var date := Sanitize(c.createdAt);
    var parts := [IntToString(c.checkinID)]
      + (if beer != "" then [beer] else [])
      + (if date != "" then [date] else []);
    JoinWith(parts, "_") + ".jpg"
  }

  // ---------------------------------------------------------------------
  // Sanitised keys

  lemma {:induction false} DropNonWordOfRun(n: string, rest: string)
    requires AllNonWord(n) && (rest == [] || IsWord(rest[0]))
    ensures DropNonWord(n + rest) == rest
    decreases |n|
  {
    if n != [] {
      assert (n + rest)[1..] == n[1..] + rest;
      DropNonWordOfRun(n[1..], rest);
    } else {
      assert n + rest == rest;
    }
  }

  /** A word-only prefix is kept as it is; so is a word-only string. */
  lemma {:induction false} ReplaceRunsOfWordPrefix(w: string, t: string)
    requires AllWord(w)
    ensures ReplaceRuns(w + t) == w + ReplaceRuns(t)
    decreases |w|
  {
    if w != [] {
      var s := w + t;
      assert s[0] == w[0] && IsWord(s[0]);
      assert s[1..] == w[1..] + t;
      assert AllWord(w[1..]) by {
        AllWordSlice(w, 1, |w|);
      }
      ReplaceRunsOfWordPrefix(w[1..], t);
      assert [w[0]] + (w[1..] + ReplaceRuns(t)) == w + ReplaceRuns(t);
    } else {
      assert w + t == t;
    }
  }

  /** A maximal run of non-word characters becomes a single underscore. */
  lemma ReplaceRunsOfLeadingRun(n: string, rest: string)
    requires n != [] && AllNonWord(n) && (rest == [] || IsWord(rest[0]))
    ensures ReplaceRuns(n + rest) == "_" + ReplaceRuns(rest)
  {
    var s := n + rest;
    assert s[0] == n[0] && !IsWord(s[0]);
    assert s[1..] == n[1..] + rest;
    assert AllNonWord(n[1..]) by {
      forall i | 0 <= i < |n| - 1
        ensures !IsWord(n[1..][i])
      {
        assert n[1..][i] == n[i + 1];
      }
    }
    DropNonWordOfRun(n[1..], rest);
  }

  /** A maximal run of non-word characters after a word-only prefix becomes
      a single underscore, and the rest is replaced in turn. */
  lemma ReplaceRunsOfRun(w: string, n: string, rest: string)
    requires AllWord(w) && n != [] && AllNonWord(n) && (rest == [] || IsWord(rest[0]))
    ensures ReplaceRuns(w + n + rest) == w + "_" + ReplaceRuns(rest)
  {
    assert w + n + rest == w + (n + rest);
    ReplaceRunsOfWordPrefix(w, n + rest);
    ReplaceRunsOfLeadingRun(n, rest);
  }

  lemma TrimOfTrimmed(s: string)
    requires s == [] || (s[0] != '_' && s[|s| - 1] != '_')
    ensures TrimUnderscores(s) == s
  {
  }

  /** Sanitising a sanitised part changes nothing. */
  lemma SanitizeIdempotent(s: string)
    ensures Sanitize(Sanitize(s)) == Sanitize(s)
  {
    var r := Sanitize(s);
    ReplaceRunsOfWordPrefix(r, []);
    assert r + [] == r;
    TrimOfTrimmed(r);
  }

  /** The key is the id, "_" and the beer part when it is not empty, "_"
      and the date part when it is not empty, and ".jpg". */
  lemma SanitizedKeyShape(c: Checkin)
    ensures var beer, date := Sanitize(c.beer.beerName), Sanitize(c.createdAt);
      SanitizedKey(c) == IntToString(c.checkinID)
        + (if beer != "" then "_" + beer else "")
        + (if date != "" then "_" + date else "") + ".jpg"
  {
    JoinOfParts(IntToString(c.checkinID), Sanitize(c.beer.beerName), Sanitize(c.createdAt));
  }

  lemma JoinOfParts(id: string, beer: string, date: string)
    ensures JoinWith([id] + (if beer != "" then [beer] else []) + (if date != "" then [date] else []), "_")
      == id + (if beer != "" then "_" + beer else "") + (if date != "" then "_" + date else "")
  {
    if beer != "" && date != "" {
      assert [id] + [beer] + [date] == [id, beer, date];
      assert JoinWith([id, beer, date], "_") == id + "_" + (beer + "_" + date);
    } else if beer != "" {
      assert [id] + [beer] + [] == [id, beer];
    } else if date != "" {
      assert [id] + [] + [date] == [id, date];
    } else {
      assert [id] + [] + [] == [id];
    }
  }

  // ---------------------------------------------------------------------
  // Saving a photo

  /** Ten entries, read from the check-in itself (a missing venue reads as
      the zero venue), with rating and ABV to two decimals and the
      coordinates to six. */
  function PhotoMetadata(c: Checkin): (m: Metadata)
    ensures m.Keys == {"id", "beer", "brewery", "comment", "rating", "venue", "date", "latlng", "style", "abv"}
  {
    var v := VenueOrZero(c.venue);
    map[
      "beer" := c.beer.beerName,
      "brewery" := c.brewery.breweryName,
      "comment" := c.checkinComment,
      "rating" := FloatText.FormatFixed(c.ratingScore, 2),
      "venue" := v.venueName,
      "date" := c.createdAt,
      "latlng" := LatLngText(v.location.lat, v.location.lng),
      "style" := c.beer.beerStyle,
      "abv" := FloatText.FormatFixed(c.beer.beerABV, 2),
      "id" := IntToString(c.checkinID)
    ]
  }

  /** `SaveCheckin`: no photo, nothing to do; a failed download is an error
      before any write; otherwise one put under the sanitised key. */
  function SaveStep(b: Bucket, o: Web.Origin, s: State, c: Checkin): (State, Error) {
    var url := FallbackPhotoURL(c);
    if url == "" then (s, None)
    else
      match Web.Body(o.ReplyFor(url))
      case Err(e) => (s, Some(e))
      case Ok(body) =>
        var (s', e) := PutStep(b, s, SanitizedKey(c), body, PhotoMetadata(c), "");
        (s', if e.Some? then Some("failed to upload photo to R2") else None)
  }

  // ---------------------------------------------------------------------
  // The most recent object

  /** `i` is the first entry with the greatest `LastModified`. */
  predicate IsLatest(es: seq<Entry>, i: int) {
    0 <= i < |es|
    && (forall j :: 0 <= j < |es| ==> es[j].lastModified <= es[i].lastModified)
    && (forall j :: 0 <= j < i ==> es[j].lastModified < es[i].lastModified)
  }

  lemma {:induction false} LatestExists(es: seq<Entry>)
    requires es != []
    ensures exists i :: IsLatest(es, i)
    decreases |es|
  {
    if |es| > 1 {
      var p := es[..|es| - 1];
      LatestExists(p);
      var i :| IsLatest(p, i);
      if es[|es| - 1].lastModified > es[i].lastModified {
        assert IsLatest(es, |es| - 1);
      } else {
        assert IsLatest(es, i);
      }
    } else {
      assert IsLatest(es, 0);
    }
  }

  lemma LatestUnique(es: seq<Entry>, i: int, k: int)
    requires IsLatest(es, i) && IsLatest(es, k)
    ensures i == k
  {
    assert es[i].lastModified == es[k].lastModified;
  }

  /** The loop over the listing: the first entry that no later entry is
      strictly newer than wins. */
  method SelectLatest(es: seq<Entry>) returns (i: nat)
    requires es != []
    ensures IsLatest(es, i)
  {
    i := 0;
    var k := 1;
    while k < |es|
      invariant 1 <= k <= |es| && i < k
      invariant forall j :: 0 <= j < k ==> es[j].lastModified <= es[i].lastModified
      invariant forall j :: 0 <= j < i ==> es[j].lastModified < es[i].lastModified
    {
      if es[k].lastModified > es[i].lastModified {
        i := k;
      }
      k := k + 1;
    }
  }

  /** The cursor read from a head of the latest object: its "id" entry
      (absent reads as "") parsed as a signed decimal. */
  function CursorOf(h: Result<Metadata, StoreError>): Result<Int64, string> {
    match h
    case Err(_) => Err("failed to get object metadata from R2")
    case Ok(md) =>
      match Atoi(if "id" in md then md["id"] else "")
      case None => Err("failed to parse checkin ID from metadata")
      case Some(n) => Ok(n)
  }

  /** `GetLatestCheckinID` once the listing `es` came back: 0 for an empty
      listing, otherwise the cursor of the latest entry. */
  ghost function LatestStep(b: Bucket, s: State, es: seq<Entry>): (State, Result<Int64, string>) {
    var listed := State(s.objects, s.calls + [List]);
    if es == [] then (listed, Ok(0))
    else
      LatestExists(es);
      var i :| IsLatest(es, i);
      var (s', h) := HeadStep(b, listed, es[i].key);
      (s', CursorOf(h))
  }

  class R2Client {
    const bucket: Bucket
    const web: Web.Origin

    constructor (bucket: Bucket, web: Web.Origin)
      ensures this.bucket == bucket && this.web == web
    {
      this.bucket := bucket;
      this.web := web;
    }

    method SaveCheckin(c: Checkin) returns (err: Error)
      modifies bucket, web
      ensures web.fetched == old(web.fetched) + Web.Fetches(FallbackPhotoURL(c))
      ensures (bucket.Now(), err) == SaveStep(bucket, web, old(bucket.Now()), c)
    {
      var url := FallbackPhotoURL(c);
      if url == "" {
        return None;
      }
      var reply := web.Fetch(url);
      var body := Web.Body(reply);
      if body.Err? {
        return Some(body.error);
      }
      var e := bucket.PutObject(SanitizedKey(c), body.value, PhotoMetadata(c), "");
      if e.Some? {
        return Some("failed to upload photo to R2");
      }
      return None;
    }

    method GetLatestCheckinID() returns (r: Result<Int64, string>)
      modifies bucket
      ensures Fails(bucket, old(bucket.Now())) ==> r.Err? && bucket.Now() == State(old(bucket.objects), old(bucket.calls) + [List])
      ensures !Fails(bucket, old(bucket.Now())) ==>
        exists es :: Listing(es, old(bucket.objects)) && (bucket.Now(), r) == LatestStep(bucket, old(bucket.Now()), es)
    {
      var listed := bucket.ListObjects();
      if listed.Err? {
        return Err("failed to list objects from R2");
      }
      var es := listed.value;
      if |es| == 0 {
        return Ok(0);
      }
      var i := SelectLatest(es);
      ghost var s := bucket.Now();
      var h := bucket.HeadObject(es[i].key);
      r := CursorOf(h);
      ghost var k :| IsLatest(es, k) && LatestStep(bucket, old(bucket.Now()), es) == (HeadStep(bucket, s, es[k].key).0, CursorOf(HeadStep(bucket, s, es[k].key).1));
      LatestUnique(es, i, k);
    }
  }

  // ---------------------------------------------------------------------
  // Properties of saving and of the cursor

  /** No photo URL: nothing is fetched or written. A failed download: an
      error, and nothing is written. */
  lemma SaveGates(b: Bucket, o: Web.Origin, s: State, c: Checkin)
    ensures FallbackPhotoURL(c) == "" ==> SaveStep(b, o, s, c) == (s, None) && Web.Fetches(FallbackPhotoURL(c)) == []
    ensures FallbackPhotoURL(c) != "" && Web.Body(o.ReplyFor(FallbackPhotoURL(c))).Err? ==>
      SaveStep(b, o, s, c).0 == s && SaveStep(b, o, s, c).1.Some?
  {
  }

  /** A downloaded photo is put once, under the sanitised key, with the
      downloaded bytes. */
  lemma SavePuts(b: Bucket, o: Web.Origin, s: State, c: Checkin)
    requires FallbackPhotoURL(c) != "" && Web.Body(o.ReplyFor(FallbackPhotoURL(c))).Ok?
    ensures SaveStep(b, o, s, c).0.calls == s.calls + [Put(SanitizedKey(c), o.ReplyFor(FallbackPhotoURL(c)).body)]
  {
  }

  /** An empty listing gives 0 with no head request. */
  lemma EmptyListingIsZero(b: Bucket, s: State)
    ensures LatestStep(b, s, []) == (State(s.objects, s.calls + [List]), Ok(0))
  {
  }

  /** Otherwise the head goes to the first object with the greatest
      `LastModified`, and its "id" entry is the cursor. */
  lemma LatestHeadsNewest(b: Bucket, s: State, es: seq<Entry>, i: int)
    requires IsLatest(es, i)
    ensures LatestStep(b, s, es).0.calls == s.calls + [List, Head(es[i].key)]
    ensures LatestStep(b, s, es).1 == CursorOf(HeadStep(b, State(s.objects, s.calls + [List]), es[i].key).1)
  {
    var listed := State(s.objects, s.calls + [List]);
    var k :| IsLatest(es, k) && LatestStep(b, s, es) == (HeadStep(b, listed, es[k].key).0, CursorOf(HeadStep(b, listed, es[k].key).1));
    LatestUnique(es, i, k);
  }

  /** The cursor is the stored id exactly when it is a signed decimal. */
  lemma CursorOfSpec(md: Metadata)
    ensures CursorOf(Ok(md)).Ok? <==> "id" in md && Atoi(md["id"]).Some?
    ensures CursorOf(Ok(md)).Ok? ==> CursorOf(Ok(md)).value == Atoi(md["id"]).value
  {
  }

  /** A photo written by this store gives back its check-in's id. */
  lemma CursorOfPhotoMetadata(c: Checkin)
    ensures CursorOf(Ok(PhotoMetadata(c))) == Ok(c.checkinID)
  {
    var m := PhotoMetadata(c);
    var id := IntToString(c.checkinID);
    assert "id" in m && m["id"] == id;
    AtoiOfIntToString(c.checkinID);
    assert Atoi(id) == Some(c.checkinID);
  }
}

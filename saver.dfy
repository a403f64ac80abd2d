/** The older saver command: read a cursor from the object "latest", fetch
    the feed after it, save every check-in's photo (the first media photo,
    else the brewery's picture of the beer) through the storage client, and
    after the first non-empty page alias "latest.jpg" to that page's newest
    photo, once, even when the aliasing fails.

    The page's photos are saved one after another in page order; the
    per-page work always succeeds, so it is replayed over the delivered
    pages after the fetch. */
module Saver {
  import opened Wrappers
  import opened Decimal
  import opened Clock
  import opened Paths
  import opened Untappd
  import opened ObjectStore
  import opened Storage
  import opened StorageClient
  import Feed
  import Web
  import Seqs
  import FloatText

  /** The object the cursor is read from. */
  const CursorKey: string := "latest"

  /** The object the newest photo is aliased to. */
  const AliasKey: string := "latest.jpg"

  /** `saveCheckin`'s metadata: a missing venue reads as the zero venue, and
      the coordinates are always written out. */
  function SaverMetadata(c: Checkin): CheckinMetadata {
    var v := VenueOrZero(c.venue);
    Blank.(
      id := IntToString(c.checkinID),
      beer := c.beer.beerName,
      brewery := c.brewery.breweryName,
      comment := c.checkinComment,
      rating := FloatText.FormatFixed(c.ratingScore, 2),
      venue := v.venueName,
      date := c.createdAt,
      latLng := LatLngText(v.location.lat, v.location.lng),
      style := c.beer.beerStyle,
      abv := FloatText.FormatFixed(c.beer.beerABV, 2))
  }

  /** `saveCheckin`: nothing to do without a photo; a failed download is an
      error before any write; otherwise the storage client's upload. */
  function SaveStep(b: Bucket, o: Web.Origin, s: State, c: Checkin): (State, Error) {
    var url := FallbackPhotoURL(c);
    if url == "" then (s, None)
    else
      match Web.Body(o.ReplyFor(url))
      case Err(e) => (s, Some(e))
      case Ok(body) => UploadStep(b, s, body, SaverMetadata(c), ".jpg", "image/jpeg")
  }

  /** The saves of one page, in page order; their errors are only logged. */
  function SavePageStep(b: Bucket, o: Web.Origin, s: State, page: seq<Checkin>): State
    decreases |page|
  {
    if page == [] then s else SavePageStep(b, o, SaveStep(b, o, s, page[0]).0, page[1..])
  }

  /** The photo URLs one page fetches. */
  function PageFetches(page: seq<Checkin>): seq<string>
    decreases |page|
  {
    if page == [] then [] else Web.Fetches(FallbackPhotoURL(page[0])) + PageFetches(page[1..])
  }

  /** The "id" entry, or "" as a Go map read gives for a missing one. */
  function IdEntry(md: Metadata): string {
    if "id" in md then md["id"] else ""
  }

  /** `getLatestCheckinIDKey`: no head support is an error; an absent
      "latest" means start from scratch; otherwise its "id" entry read as a
      signed decimal. */
  function GetCursorStep(b: Bucket, s: State, canHead: bool): (State, Result<Int64, string>) {
    if !canHead then (s, Err("storage provider does not support HeadObject"))
    else
      var (s', h) := HeadStep(b, s, CursorKey);
      match h
      case Err(NotFound) => (s', Ok(0))
      case Err(Failed) => (s', Err("failed to head latest key"))
      case Ok(md) =>
        match Atoi(IdEntry(md))
        case None => (s', Err("failed to parse checkin ID from metadata"))
        case Some(n) => (s', Ok(n))
  }

  /** `updateLatestCheckinIDKey`: copy the check-in's dated photo, named by
      the bucket and the key joined as a path, onto "latest.jpg" with its
      own metadata. */
  function UpdateAliasStep(b: Bucket, s: State, canCopy: bool, c: Checkin): (State, Error) {
    if !canCopy then (s, Some("storage provider does not support CopyObject"))
    else
      match ParseRFC1123Z(c.createdAt)
      case None => (s, Some("failed to parse checkin date"))
      case Some(t) =>
        var key := PartsKey(t, IntToString(c.checkinID) + ".jpg");
        var (s', e) := CopyStep(b, s, AliasKey, Join([b.name, key]), None);
        (s', if e.Some? then Some("copy object failed") else None)
  }

  /** The bucket's side of the run over the delivered pages: every page
      saved, then, after the first non-empty one, the alias update. */
  function ReplayStep(b: Bucket, o: Web.Origin, s: State, canCopy: bool, pages: seq<seq<Checkin>>, updated: bool): State
    decreases |pages|
  {
    if pages == [] then s
    else
      var s1 := SavePageStep(b, o, s, pages[0]);
      if |pages[0]| > 0 && !updated then ReplayStep(b, o, UpdateAliasStep(b, s1, canCopy, pages[0][0]).0, canCopy, pages[1..], true)
      else ReplayStep(b, o, s1, canCopy, pages[1..], updated)
  }

  /** The photo URLs the run fetches, page by page. */
  function ReplayFetches(pages: seq<seq<Checkin>>): seq<string>
    decreases |pages|
  {
    if pages == [] then [] else PageFetches(pages[0]) + ReplayFetches(pages[1..])
  }

  function Silent(page: seq<Checkin>): Error {
    None
  }

  method SaveCheckin(store: Client, web: Web.Origin, c: Checkin) returns (err: Error)
    modifies store.bucket, web
    ensures web.fetched == old(web.fetched) + Web.Fetches(FallbackPhotoURL(c))
    ensures (store.bucket.Now(), err) == SaveStep(store.bucket, web, old(store.bucket.Now()), c)
  {
    var url := FallbackPhotoURL(c);
    if url == "" {
      return None;
    }
    var reply := web.Fetch(url);
    var body := Web.Body(reply);
    if body.Err? {
      return Some(body.error);
    }
    err := store.Upload(body.value, SaverMetadata(c));
  }

  method SavePage(store: Client, web: Web.Origin, page: seq<Checkin>)
    modifies store.bucket, web
    ensures web.fetched == old(web.fetched) + PageFetches(page)
    ensures store.bucket.Now() == SavePageStep(store.bucket, web, old(store.bucket.Now()), page)
  {
    var i := 0;
    while i < |page|
      invariant 0 <= i <= |page|
      invariant old(web.fetched) + PageFetches(page) == web.fetched + PageFetches(page[i..])
      invariant SavePageStep(store.bucket, web, store.bucket.Now(), page[i..]) == SavePageStep(store.bucket, web, old(store.bucket.Now()), page)
    {
      assert page[i..][1..] == page[i + 1..];
      ghost var f1 := web.fetched;
      ghost var step := Web.Fetches(FallbackPhotoURL(page[i]));
      assert PageFetches(page[i..]) == step + PageFetches(page[i + 1..]);
      var _ := SaveCheckin(store, web, page[i]);
      Seqs.Associative(f1, step, PageFetches(page[i + 1..]));
      i := i + 1;
    }
  }

  method GetLatestCheckinIDKey(store: Client, canHead: bool) returns (r: Result<Int64, string>)
    modifies store.bucket
    ensures (store.bucket.Now(), r) == GetCursorStep(store.bucket, old(store.bucket.Now()), canHead)
  {
    if !canHead {
      return Err("storage provider does not support HeadObject");
    }
    var h := store.bucket.HeadObject(CursorKey);
    if h.Err? {
      if h.error == NotFound {
        return Ok(0);
      }
      return Err("failed to head latest key");
    }
    var n := Atoi(IdEntry(h.value));
    if n.None? {
      return Err("failed to parse checkin ID from metadata");
    }
    return Ok(n.value);
  }

  method UpdateLatestCheckinIDKey(store: Client, canCopy: bool, c: Checkin) returns (err: Error)
    modifies store.bucket
    ensures (store.bucket.Now(), err) == UpdateAliasStep(store.bucket, old(store.bucket.Now()), canCopy, c)
  {
    if !canCopy {
      return Some("storage provider does not support CopyObject");
    }
    var t := ParseRFC1123Z(c.createdAt);
    if t.None? {
      return Some("failed to parse checkin date");
    }
    var key := PartsKey(t.value, IntToString(c.checkinID) + ".jpg");
    var e := store.bucket.CopyObject(AliasKey, Join([store.bucket.name, key]), None);
    if e.Some? {
      return Some("copy object failed");
    }
    return None;
  }

  /** The command: a failed cursor read stops it before any request; a feed
      error ends it after the pages already delivered were handled. */
  method RunSaver(store: Client, web: Web.Origin, canHead: bool, canCopy: bool, token: string, replies: seq<Feed.Reply>)
    returns (err: Error, requests: seq<Feed.Query>)
    modifies store.bucket, web
    ensures var (s1, cur) := GetCursorStep(store.bucket, old(store.bucket.Now()), canHead);
      (cur.Err? ==> err.Some? && requests == [] && store.bucket.Now() == s1 && web.fetched == old(web.fetched))
      && (cur.Ok? ==>
            var t := Feed.Fetch(token, cur.value, replies, Silent);
            err == t.err && requests == t.requests
            && web.fetched == old(web.fetched) + ReplayFetches(t.pages)
            && store.bucket.Now() == ReplayStep(store.bucket, web, s1, canCopy, t.pages, false))
  {
    var cursor := GetLatestCheckinIDKey(store, canHead);
    if cursor.Err? {
      return Some("error getting latest checkin ID"), [];
    }
    var pages;
    err, requests, pages := Feed.FetchCheckins(token, cursor.value, replies, Silent);
    HandlePages(store, web, canCopy, pages);
  }

  /** The callback over the delivered pages, in order. */
  method HandlePages(store: Client, web: Web.Origin, canCopy: bool, pages: seq<seq<Checkin>>)
    modifies store.bucket, web
    ensures web.fetched == old(web.fetched) + ReplayFetches(pages)
    ensures store.bucket.Now() == ReplayStep(store.bucket, web, old(store.bucket.Now()), canCopy, pages, false)
  {
    var latestUpdated := false;
    var i := 0;
    while i < |pages|
      invariant 0 <= i <= |pages|
      invariant old(web.fetched) + ReplayFetches(pages) == web.fetched + ReplayFetches(pages[i..])
      invariant ReplayStep(store.bucket, web, store.bucket.Now(), canCopy, pages[i..], latestUpdated)
        == ReplayStep(store.bucket, web, old(store.bucket.Now()), canCopy, pages, false)
    {
      assert pages[i..][1..] == pages[i + 1..];
      ghost var f1 := web.fetched;
      assert ReplayFetches(pages[i..]) == PageFetches(pages[i]) + ReplayFetches(pages[i + 1..]);
      SavePage(store, web, pages[i]);
      Seqs.Associative(f1, PageFetches(pages[i]), ReplayFetches(pages[i + 1..]));
      if |pages[i]| > 0 && !latestUpdated {
        var _ := UpdateLatestCheckinIDKey(store, canCopy, pages[i][0]);
        latestUpdated := true;
      }
      i := i + 1;
    }
  }

  // ---------------------------------------------------------------------
  // One check-in, the cursor read and the alias update

  /** No photo URL: nothing is fetched or written and there is no error. A
      failed download: an error, and nothing is written. Otherwise the
      storage client's upload of the downloaded bytes. */
  lemma SaveGates(b: Bucket, o: Web.Origin, s: State, c: Checkin)
    ensures FallbackPhotoURL(c) == "" ==> SaveStep(b, o, s, c) == (s, None) && Web.Fetches(FallbackPhotoURL(c)) == []
    ensures FallbackPhotoURL(c) != "" && Web.Body(o.ReplyFor(FallbackPhotoURL(c))).Err? ==>
      SaveStep(b, o, s, c).0 == s && SaveStep(b, o, s, c).1.Some?
    ensures FallbackPhotoURL(c) != "" && Web.Body(o.ReplyFor(FallbackPhotoURL(c))).Ok? ==>
      SaveStep(b, o, s, c) == UploadStep(b, s, o.ReplyFor(FallbackPhotoURL(c)).body, SaverMetadata(c), ".jpg", "image/jpeg")
  {
  }

  /** Without head support the read is an error before any request; an
      absent "latest" reads as 0; any other failed head is an error; and
      otherwise the cursor is the "id" entry exactly when it is a signed
      decimal. */
  lemma GetCursorSpec(b: Bucket, s: State, canHead: bool)
    ensures !canHead ==> GetCursorStep(b, s, canHead).0 == s && GetCursorStep(b, s, canHead).1.Err?
    ensures canHead ==> GetCursorStep(b, s, canHead).0 == HeadStep(b, s, CursorKey).0
    ensures canHead && HeadStep(b, s, CursorKey).1 == Err(NotFound) ==> GetCursorStep(b, s, canHead).1 == Ok(0)
    ensures canHead && HeadStep(b, s, CursorKey).1 == Err(Failed) ==> GetCursorStep(b, s, canHead).1.Err?
    ensures canHead && HeadStep(b, s, CursorKey).1.Ok? ==>
      var md := HeadStep(b, s, CursorKey).1.value;
      (GetCursorStep(b, s, canHead).1.Ok? <==> Atoi(IdEntry(md)).Some?)
      && (Atoi(IdEntry(md)).Some? ==> GetCursorStep(b, s, canHead).1.value == Atoi(IdEntry(md)).value)
  {
  }

  /** Without copy support, or with an unreadable date, the alias update is
      an error before any request. */
  lemma UpdateAliasGates(b: Bucket, s: State, canCopy: bool, c: Checkin)
    ensures !canCopy || ParseRFC1123Z(c.createdAt).None? ==>
      UpdateAliasStep(b, s, canCopy, c).0 == s && UpdateAliasStep(b, s, canCopy, c).1.Some?
    ensures canCopy && ParseRFC1123Z(c.createdAt).Some? ==>
      UpdateAliasStep(b, s, canCopy, c).0.calls
        == s.calls + [Copy(AliasKey, Join([b.name, PartsKey(ParseRFC1123Z(c.createdAt).value, IntToString(c.checkinID) + ".jpg")]))]
  {
  }

  // ---------------------------------------------------------------------
  // Counting copies

  function Copies(calls: seq<Call>): nat
    decreases |calls|
  {
    if calls == [] then 0 else Copies(calls[..|calls| - 1]) + (if calls[|calls| - 1].Copy? then 1 else 0)
  }

  lemma CopiesSnoc(calls: seq<Call>, c: Call)
    ensures Copies(calls + [c]) == Copies(calls) + (if c.Copy? then 1 else 0)
  {
    assert (calls + [c])[..|calls|] == calls;
  }

  /** Saving a photo never copies. */
  lemma SaveAddsNoCopy(b: Bucket, o: Web.Origin, s: State, c: Checkin)
    ensures Copies(SaveStep(b, o, s, c).0.calls) == Copies(s.calls)
  {
    var url := FallbackPhotoURL(c);
    if url != "" && Web.Body(o.ReplyFor(url)).Ok? {
      var md := SaverMetadata(c);
      var body := Web.Body(o.ReplyFor(url)).value;
      assert SaveStep(b, o, s, c) == UploadStep(b, s, body, md, ".jpg", "image/jpeg");
      UploadEffect(b, s, body, md, ".jpg", "image/jpeg");
      if UploadKey(md, ".jpg").Some? {
        CopiesSnoc(s.calls, Put(UploadKey(md, ".jpg").value, body));
      }
    }
  }

  lemma {:induction false} PageAddsNoCopy(b: Bucket, o: Web.Origin, s: State, page: seq<Checkin>)
    ensures Copies(SavePageStep(b, o, s, page).calls) == Copies(s.calls)
    decreases |page|
  {
    if page != [] {
      SaveAddsNoCopy(b, o, s, page[0]);
      PageAddsNoCopy(b, o, SaveStep(b, o, s, page[0]).0, page[1..]);
    }
  }

  lemma UpdateAddsOneCopy(b: Bucket, s: State, canCopy: bool, c: Checkin)
    ensures Copies(UpdateAliasStep(b, s, canCopy, c).0.calls) <= Copies(s.calls) + 1
  {
    if canCopy && ParseRFC1123Z(c.createdAt).Some? {
      var t := ParseRFC1123Z(c.createdAt).value;
      CopiesSnoc(s.calls, Copy(AliasKey, Join([b.name, PartsKey(t, IntToString(c.checkinID) + ".jpg")])));
    }
  }

  /** The run asks for at most one copy, and none once the alias was
      updated, whether that update worked or not. */
  lemma {:induction false} ReplayCopiesAtMostOnce(b: Bucket, o: Web.Origin, s: State, canCopy: bool, pages: seq<seq<Checkin>>, updated: bool)
    ensures Copies(ReplayStep(b, o, s, canCopy, pages, updated).calls) <= Copies(s.calls) + (if updated then 0 else 1)
    decreases |pages|
  {
    if pages != [] {
      var s1 := SavePageStep(b, o, s, pages[0]);
      PageAddsNoCopy(b, o, s, pages[0]);
      if |pages[0]| > 0 && !updated {
        UpdateAddsOneCopy(b, s1, canCopy, pages[0][0]);
        ReplayCopiesAtMostOnce(b, o, UpdateAliasStep(b, s1, canCopy, pages[0][0]).0, canCopy, pages[1..], true);
      } else {
        ReplayCopiesAtMostOnce(b, o, s1, canCopy, pages[1..], updated);
      }
    }
  }

  /** The request the alias update makes for `c`: the copy of its dated
      photo onto "latest.jpg", or none without copy support or a date. */
  function AliasCalls(b: Bucket, canCopy: bool, c: Checkin): seq<Call> {
    if canCopy && ParseRFC1123Z(c.createdAt).Some? then
      [Copy(AliasKey, Join([b.name, PartsKey(ParseRFC1123Z(c.createdAt).value, IntToString(c.checkinID) + ".jpg")]))]
    else []
  }

  /** Saving a photo only appends to the request log. */
  lemma SaveExtendsCalls(b: Bucket, o: Web.Origin, s: State, c: Checkin)
    ensures s.calls <= SaveStep(b, o, s, c).0.calls
  {
    var url := FallbackPhotoURL(c);
    if url != "" && Web.Body(o.ReplyFor(url)).Ok? {
      UploadEffect(b, s, Web.Body(o.ReplyFor(url)).value, SaverMetadata(c), ".jpg", "image/jpeg");
    }
  }

  lemma {:induction false} PageExtendsCalls(b: Bucket, o: Web.Origin, s: State, page: seq<Checkin>)
    ensures s.calls <= SavePageStep(b, o, s, page).calls
    decreases |page|
  {
    if page != [] {
      SaveExtendsCalls(b, o, s, page[0]);
      PageExtendsCalls(b, o, SaveStep(b, o, s, page[0]).0, page[1..]);
    }
  }

  /** Once the alias is updated, the rest of the run only appends saves:
      no further copy. */
  lemma {:induction false} SavesAfterUpdate(b: Bucket, o: Web.Origin, s: State, canCopy: bool, pages: seq<seq<Checkin>>)
    ensures var r := ReplayStep(b, o, s, canCopy, pages, true);
      s.calls <= r.calls && Copies(r.calls) == Copies(s.calls)
    decreases |pages|
  {
    if pages != [] {
      var s1 := SavePageStep(b, o, s, pages[0]);
      PageExtendsCalls(b, o, s, pages[0]);
      PageAddsNoCopy(b, o, s, pages[0]);
      SavesAfterUpdate(b, o, s1, canCopy, pages[1..]);
    }
  }

  /** Over delivered pages, which are never empty: after the first page's
      saves comes the alias copy from the dated photo of that page's first
      (newest) check-in, when there is copy support and a date, and the rest
      of the run makes no other copy. */
  lemma ReplayAliasesFirstCheckin(b: Bucket, o: Web.Origin, s: State, canCopy: bool, pages: seq<seq<Checkin>>)
    requires forall k :: 0 <= k < |pages| ==> |pages[k]| > 0
    ensures pages == [] ==> ReplayStep(b, o, s, canCopy, pages, false) == s
    ensures pages != [] ==>
      var s1 := SavePageStep(b, o, s, pages[0]);
      var alias := AliasCalls(b, canCopy, pages[0][0]);
      var r := ReplayStep(b, o, s, canCopy, pages, false);
      s1.calls + alias <= r.calls
      && Copies(r.calls) == Copies(s.calls) + |alias|
  {
    if pages != [] {
      var c := pages[0][0];
      var s1 := SavePageStep(b, o, s, pages[0]);
      var s2 := UpdateAliasStep(b, s1, canCopy, c).0;
      var alias := AliasCalls(b, canCopy, c);
      PageAddsNoCopy(b, o, s, pages[0]);
      UpdateAliasGates(b, s1, canCopy, c);
      assert s2.calls == s1.calls + alias;
      if alias != [] {
        CopiesSnoc(s1.calls, alias[0]);
      }
      SavesAfterUpdate(b, o, s2, canCopy, pages[1..]);
    }
  }

  // ---------------------------------------------------------------------
  // Where the alias points

  /** The copy source names the check-in's dated photo in this bucket. */
  lemma AliasSource(name: string, t: DateTime, id: Int64)
    requires Plain(name) && Valid(t)
    ensures Join([name, PartsKey(t, IntToString(id) + ".jpg")]) == name + "/" + CheckinKey(t, id)
  {
    var idjpg := IntToString(id) + ".jpg";
    NoSlashInId(id);
    PlainName(IntToString(id), ".jpg");
    DatedKeyOfPlain(t, idjpg);
    var inner := CheckinKeySegments(t, id);
    var key := CheckinKey(t, id);
    JoinSegsCons(name, inner);
    var segs := [name] + inner;
    assert forall i :: 0 <= i < |segs| ==> Plain(segs[i]) by {
      forall i | 0 <= i < |segs|
        ensures Plain(segs[i])
      {
        if i > 0 {
          assert segs[i] == inner[i - 1];
        }
      }
    }
    CleanOfPlain(segs);
    assert JoinBuffer([], [name, key]) == JoinBuffer(name, [key]) == name + "/" + key;
  }

  /** A check-in's photo key is four plain segments joined by slashes. */
  lemma CheckinKeySegments(t: DateTime, id: Int64) returns (inner: seq<string>)
    requires Valid(t)
    ensures |inner| == 4 && JoinSegs(inner) == CheckinKey(t, id)
    ensures forall i :: 0 <= i < |inner| ==> Plain(inner[i])
  {
    var idjpg := IntToString(id) + ".jpg";
    NoSlashInId(id);
    PlainName(IntToString(id), ".jpg");
    CheckinKeyShape(t, id);
    var y, m, d := Pad4(t.year), Pad2(t.month), Pad2(t.day);
    PlainDigits(y);
    PlainDigits(m);
    PlainDigits(d);
    inner := [y, m, d, idjpg];
    assert FormatYMD(t) == y + "/" + m + "/" + d;
    Seqs.Associative(FormatYMD(t) + "/", IntToString(id), ".jpg");
    assert CheckinKey(t, id) == y + "/" + m + "/" + d + "/" + idjpg;
    JoinSegsOfFour(y, m, d, idjpg);
  }

  lemma JoinSegsOfFour(a: string, b: string, c: string, e: string)
    ensures JoinSegs([a, b, c, e]) == a + "/" + b + "/" + c + "/" + e
  {
    var segs := [a, b, c, e];
    assert segs[1..] == [b, c, e] && segs[1..][1..] == [c, e] && segs[1..][1..][1..] == [e];
    assert JoinSegs([c, e]) == c + "/" + e;
    assert JoinSegs([b, c, e]) == b + "/" + (c + "/" + e);
    assert JoinSegs(segs) == a + "/" + (b + "/" + (c + "/" + e));
  }

  /** A photo the saver uploaded for `c` is what the alias update copies:
      afterwards "latest.jpg" holds its bytes and its own metadata, whose
      "id" entry reads back as the check-in's id. */
  lemma AliasCopiesSavedPhoto(b: Bucket, s: State, body: Bytes, c: Checkin)
    requires Plain(b.name)
    requires UploadStep(b, s, body, SaverMetadata(c), ".jpg", "image/jpeg").1.None?
    ensures var s1 := UploadStep(b, s, body, SaverMetadata(c), ".jpg", "image/jpeg").0;
      var (s2, e) := UpdateAliasStep(b, s1, true, c);
      !Fails(b, s1) ==>
        e.None? && AliasKey in s2.objects
        && s2.objects[AliasKey].body == body && s2.objects[AliasKey].metadata == ToMap(SaverMetadata(c))
        && Atoi(IdEntry(s2.objects[AliasKey].metadata)) == Some(c.checkinID)
  {
    var md := SaverMetadata(c);
    var t := ParseRFC1123Z(c.createdAt).value;
    var key := CheckinKey(t, c.checkinID);
    assert UploadKey(md, ".jpg") == Some(key);
    var s1 := UploadStep(b, s, body, md, ".jpg", "image/jpeg").0;
    assert key in s1.objects && s1.objects[key] == Object(body, ToMap(md), "image/jpeg", b.clock);
    AliasSource(b.name, t, c.checkinID);
    SourceKeyOfPath(b.name, key);
    IdOfSaverMetadata(c);
  }

  /** The stored metadata's "id" entry reads back as the check-in's id. */
  lemma IdOfSaverMetadata(c: Checkin)
    ensures Atoi(IdEntry(ToMap(SaverMetadata(c)))) == Some(c.checkinID)
  {
    var md := SaverMetadata(c);
    ToMapFields(md);
    assert "id" in Keys;
    assert IdEntry(ToMap(md)) == md.id == IntToString(c.checkinID);
    AtoiOfIntToString(c.checkinID);
  }

  /** The cursor the saver reads lives at "latest", while the update writes
      "latest.jpg": after an update, the next read answers exactly as the
      same request would have on the objects from before the update. */
  lemma CursorReadMissesAlias(b: Bucket, s: State, canHead: bool, canCopy: bool, c: Checkin)
    ensures var s2 := UpdateAliasStep(b, s, canCopy, c).0;
      GetCursorStep(b, s2, canHead).1 == GetCursorStep(b, State(s.objects, s2.calls), canHead).1
  {
    var s2 := UpdateAliasStep(b, s, canCopy, c).0;
    AliasKeepsOthers(b, s, canCopy, c, CursorKey);
    assert HeadStep(b, s2, CursorKey).1 == HeadStep(b, State(s.objects, s2.calls), CursorKey).1;
  }

  /** The alias update writes only "latest.jpg". */
  lemma AliasKeepsOthers(b: Bucket, s: State, canCopy: bool, c: Checkin, k: string)
    requires k != AliasKey
    ensures var s2 := UpdateAliasStep(b, s, canCopy, c).0;
      (k in s2.objects <==> k in s.objects) && (k in s.objects ==> s2.objects[k] == s.objects[k])
  {
    if canCopy && ParseRFC1123Z(c.createdAt).Some? {
      var t := ParseRFC1123Z(c.createdAt).value;
      CopyKeepsOtherKeys(b, s, AliasKey, Join([b.name, PartsKey(t, IntToString(c.checkinID) + ".jpg")]), None, k);
    }
  }

  /** Hence, unless something else writes "latest", every run starts from
      the same cursor: an absent "latest" stays absent and each run starts
      from 0 whenever its read request does not fail. */
  lemma CursorStaysAtZero(b: Bucket, s: State, canCopy: bool, c: Checkin)
    requires CursorKey !in s.objects && !Fails(b, UpdateAliasStep(b, s, canCopy, c).0)
    ensures GetCursorStep(b, UpdateAliasStep(b, s, canCopy, c).0, true).1 == Ok(0)
  {
    CursorReadMissesAlias(b, s, true, canCopy, c);
  }
}

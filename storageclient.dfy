/** The storage client of the recorder: photos under date-partitioned keys
    "YYYY/MM/DD/<id>.jpg", the cursor kept as metadata on "latest.jpg", and
    the existence check the backfill uses. It implements the store
    operations (upload, download, existence, cursor read and write) over an
    S3-compatible bucket.

    Each operation is a method of `Client` whose effect on the bucket is a
    step function of the bucket's state; the properties are lemmas about
    those step functions. */
module StorageClient {
  import opened Wrappers
  import opened Decimal
  import opened Clock
  import opened Paths
  import opened Untappd
  import opened ObjectStore
  import opened Storage

  /** The object that carries the cursor. */
  const LatestKey: string := "latest.jpg"

  /** `path.Join(t.Format("2006/01/02"), name)`. */
  function DatedKey(t: DateTime, name: string): string
    requires Valid(t)
  {
    Join([FormatYMD(t), name])
  }

  /** `path.Join(t.Format("2006"), t.Format("01"), t.Format("02"), name)`:
      the same key, built from its parts. */
  function PartsKey(t: DateTime, name: string): string
    requires Valid(t)
  {
    Join([Pad4(t.year), Pad2(t.month), Pad2(t.day), name])
  }

  /** The key a photo of this metadata is stored under, with extension
      `ext`; `None` when its date is not an RFC 1123 time. */
  function UploadKey(md: CheckinMetadata, ext: string): Option<string> {
    match ParseRFC1123Z(md.date)
    case None => None
    case Some(t) => Some(DatedKey(t, md.id + ext))
  }

  /** `Upload` (for ".jpg", "image/jpeg") and its WEBP counterpart. */
  function UploadStep(b: Bucket, s: State, file: Bytes, md: CheckinMetadata, ext: string, contentType: string): (State, Error) {
    match UploadKey(md, ext)
    case None => (s, Some("parse checkin date"))
    case Some(key) =>
      var (s', e) := PutStep(b, s, key, file, ToMap(md), contentType);
      (s', if e.Some? then Some("failed to upload object") else None)
  }

  function DownloadStep(b: Bucket, s: State, key: string): (State, Result<Bytes, string>) {
    var (s', r) := GetStep(b, s, key);
    (s', if r.Ok? then Ok(r.value) else Err("failed to get object"))
  }

  /** The cursor read from the head of "latest.jpg". */
  function LatestFromHead(h: Result<Metadata, StoreError>): Result<Uint64, string> {
    match h
    case Err(NotFound) => Ok(0)
    case Err(Failed) => Err("failed to head latest.jpg")
    case Ok(md) =>
      if "id" !in md then Err("missing id metadata on latest.jpg")
      else
        var s := TrimSpace(md["id"]);
        if s == "" then Err("empty id metadata on latest.jpg")
        else
          match ParseUint64(s)
          case None => Err("invalid id metadata on latest.jpg")
          case Some(v) => Ok(v)
  }

  function GetLatestStep(b: Bucket, s: State): (State, Result<Uint64, string>) {
    var (s', h) := HeadStep(b, s, LatestKey);
    (s', LatestFromHead(h))
  }

  /** The id written to the cursor. The client passes the `int` check-in id
      to `strconv.FormatUint`, which takes a `uint64`, with no conversion, so
      it does not compile as written; the model assumes the repair
      `uint64(id)`, which reads a negative `int` as its 64-bit two's
      complement. */
  function AsUint64(i: Int64): (u: Uint64)
    ensures i >= 0 ==> u == i
    ensures i < 0 ==> u == i + MaxUint64 + 1
  {
    if i < 0 then i + MaxUint64 + 1 else i
  }

  /** The metadata the cursor object is given. */
  function LatestMetadata(id: Int64, t: DateTime): Metadata
    requires Valid(t)
  {
    map["id" := NatToString(AsUint64(id)), "created_at" := FormatRFC3339(t)]
  }

  /** The photo a check-in is stored under. */
  function CheckinKey(t: DateTime, id: Int64): string
    requires Valid(t)
  {
    DatedKey(t, IntToString(id) + ".jpg")
  }

  /** `UpdateLatestCheckinID`: copy the check-in's dated photo onto
      "latest.jpg", replacing its metadata with the id and the time. */
  function UpdateStep(b: Bucket, s: State, c: Checkin): (State, Error) {
    match ParseRFC1123Z(c.createdAt)
    case None => (s, Some("failed to parse checkin date"))
    case Some(t) =>
      var source := b.name + "/" + CheckinKey(t, c.checkinID);
      var (s', e) := CopyStep(b, s, LatestKey, source, Some(Replacement(LatestMetadata(c.checkinID, t), "image/jpeg")));
      (s', if e.Some? then Some("failed to copy to latest.jpg") else None)
  }

  /** The answer to "is it there?" from a head of the key. */
  function ExistsAnswer(h: Result<Metadata, StoreError>): Result<bool, string> {
    match h
    case Ok(_) => Ok(true)
    case Err(NotFound) => Ok(false)
    case Err(Failed) => Err("failed to head object")
  }

  function ExistsStep(b: Bucket, s: State, checkinID: string, createdAt: string): (State, Result<bool, string>) {
    match ParseDateTime(createdAt)
    case None => (s, Err("parse checkin date"))
    case Some(t) =>
      var (s', h) := HeadStep(b, s, DatedKey(t, checkinID + ".jpg"));
      (s', ExistsAnswer(h))
  }

  datatype Provider = R2 | S3

  /** `NewClient`: Cloudflare R2 when an R2 account is configured, else AWS
      S3 when a region is, else an error. */
  function ChooseProvider(r2AccountID: string, awsRegion: string): (r: Result<Provider, string>)
    ensures r == Ok(R2) <==> r2AccountID != ""
    ensures r == Ok(S3) <==> r2AccountID == "" && awsRegion != ""
    ensures r.Err? <==> r2AccountID == "" && awsRegion == ""
  {
    if r2AccountID != "" then Ok(R2)
    else if awsRegion != "" then Ok(S3)
    else Err("no storage provider configured")
  }

  class Client {
    const bucket: Bucket

    constructor (bucket: Bucket)
      ensures this.bucket == bucket
    {
      this.bucket := bucket;
    }

    method Upload(file: Bytes, md: CheckinMetadata) returns (err: Error)
      modifies bucket
      ensures (bucket.Now(), err) == UploadStep(bucket, old(bucket.Now()), file, md, ".jpg", "image/jpeg")
    {
      err := UploadAs(file, md, ".jpg", "image/jpeg");
    }

    /** The WEBP upload: the same key with the ".webp" extension. */
    method UploadWEBP(file: Bytes, md: CheckinMetadata) returns (err: Error)
      modifies bucket
      ensures (bucket.Now(), err) == UploadStep(bucket, old(bucket.Now()), file, md, ".webp", "image/webp")
    {
      err := UploadAs(file, md, ".webp", "image/webp");
    }

    method UploadAs(file: Bytes, md: CheckinMetadata, ext: string, contentType: string) returns (err: Error)
      modifies bucket
      ensures (bucket.Now(), err) == UploadStep(bucket, old(bucket.Now()), file, md, ext, contentType)
    {
      var t := ParseRFC1123Z(md.date);
      if t.None? {
        return Some("parse checkin date");
      }
      var key := DatedKey(t.value, md.id + ext);
      var e := bucket.PutObject(key, file, ToMap(md), contentType);
      if e.Some? {
        return Some("failed to upload object");
      }
      return None;
    }

    method Download(fileName: string) returns (r: Result<Bytes, string>)
      modifies bucket
      ensures (bucket.Now(), r) == DownloadStep(bucket, old(bucket.Now()), fileName)
    {
      var g := bucket.GetObject(fileName);
      if g.Err? {
        return Err("failed to get object");
      }
      return Ok(g.value);
    }

    method GetLatestCheckinID() returns (r: Result<Uint64, string>)
      modifies bucket
      ensures (bucket.Now(), r) == GetLatestStep(bucket, old(bucket.Now()))
    {
      var h := bucket.HeadObject(LatestKey);
      r := LatestFromHead(h);
    }

    method UpdateLatestCheckinID(c: Checkin) returns (err: Error)
      modifies bucket
      ensures (bucket.Now(), err) == UpdateStep(bucket, old(bucket.Now()), c)
    {
      var t := ParseRFC1123Z(c.createdAt);
      if t.None? {
        return Some("failed to parse checkin date");
      }
      var source := bucket.name + "/" + CheckinKey(t.value, c.checkinID);
      var e := bucket.CopyObject(LatestKey, source, Some(Replacement(LatestMetadata(c.checkinID, t.value), "image/jpeg")));
      if e.Some? {
        return Some("failed to copy to latest.jpg");
      }
      return None;
    }

    method CheckinExists(checkinID: string, createdAt: string) returns (r: Result<bool, string>)
      modifies bucket
      ensures (bucket.Now(), r) == ExistsStep(bucket, old(bucket.Now()), checkinID, createdAt)
    {
      var t := ParseDateTime(createdAt);
      if t.None? {
        return Err("parse checkin date");
      }
      var h := bucket.HeadObject(DatedKey(t.value, checkinID + ".jpg"));
      r := ExistsAnswer(h);
    }
  }

  // ---------------------------------------------------------------------
  // Keys

  lemma PlainDigits(s: string)
    requires |s| >= 2 && AllDigits(s)
    ensures Plain(s)
  {
    assert IsDigit(s[0]);
  }

  /** A name that `path.Join` keeps as it is. */
  lemma PlainName(id: string, ext: string)
    requires '/' !in id && '/' !in ext && |ext| >= 3
    ensures Plain(id + ext)
  {
    assert |id + ext| >= 3;
  }

  /** A date directory holds no "." or ".." and no empty segment, so a
      plain name lands right below it, after a single slash. */
  lemma DatedKeyOfPlain(t: DateTime, name: string)
    requires Valid(t) && Plain(name)
    ensures DatedKey(t, name) == FormatYMD(t) + "/" + name
    ensures PartsKey(t, name) == DatedKey(t, name)
  {
    var y, m, d := Pad4(t.year), Pad2(t.month), Pad2(t.day);
    PlainDigits(y);
    PlainDigits(m);
    PlainDigits(d);
    var segs := [y, m, d, name];
    var key := FormatYMD(t) + "/" + name;
    assert JoinBuffer([], [FormatYMD(t), name]) == JoinBuffer(FormatYMD(t), [name]) == key;
    assert JoinSegs(segs[3..]) == name;
    assert JoinSegs(segs[2..]) == d + "/" + name;
    assert JoinSegs(segs[1..]) == m + "/" + (d + "/" + name);
    assert JoinSegs(segs) == key;
    CleanOfPlain(segs);
    assert Join([FormatYMD(t), name]) == Clean(key);
    PartsKeyIsDatedKey(t, name);
  }

  /** Both ways of writing the key agree, whatever the name. */
  lemma PartsKeyIsDatedKey(t: DateTime, name: string)
    requires Valid(t)
    ensures PartsKey(t, name) == DatedKey(t, name)
  {
    var y, m, d := Pad4(t.year), Pad2(t.month), Pad2(t.day);
    assert JoinBuffer([], [y, m, d, name]) == JoinBuffer(y, [m, d, name]);
    assert JoinBuffer(y, [m, d, name]) == JoinBuffer(y + "/" + m, [d, name]);
    assert JoinBuffer(y + "/" + m, [d, name]) == JoinBuffer(y + "/" + m + "/" + d, [name]);
    assert JoinBuffer([], [FormatYMD(t), name]) == JoinBuffer(FormatYMD(t), [name]);
  }

  /** The decimal text of an id holds no slash. */
  lemma NoSlashInId(i: int)
    ensures '/' !in IntToString(i)
  {
    var s := IntToString(i);
    if i < 0 {
      var n := NatToString(-i);
      assert s == "-" + n;
      assert forall k :: 0 <= k < |n| ==> IsDigit(n[k]);
    } else {
      assert forall k :: 0 <= k < |s| ==> IsDigit(s[k]);
    }
  }

  /** A check-in's photo key is its date directory, a slash and "<id>.jpg". */
  lemma CheckinKeyShape(t: DateTime, id: Int64)
    requires Valid(t)
    ensures CheckinKey(t, id) == FormatYMD(t) + "/" + IntToString(id) + ".jpg"
    ensures CheckinKey(t, id) != LatestKey
  {
    NoSlashInId(id);
    PlainName(IntToString(id), ".jpg");
    DatedKeyOfPlain(t, IntToString(id) + ".jpg");
    FormatYMDShape(t);
    assert CheckinKey(t, id)[4] == '/';
  }

  /** On one day, photos of different check-ins never share a key. */
  lemma DistinctIdsDistinctKeys(t: DateTime, a: string, b: string, ext: string)
    requires Valid(t) && '/' !in a && '/' !in b && '/' !in ext && |ext| >= 3 && a != b
    ensures DatedKey(t, a + ext) != DatedKey(t, b + ext)
  {
    PlainName(a, ext);
    PlainName(b, ext);
    DatedKeyOfPlain(t, a + ext);
    DatedKeyOfPlain(t, b + ext);
    var p := FormatYMD(t) + "/";
    assert (p + (a + ext))[|p|..] == a + ext;
    assert (a + ext)[..|a|] == a;
    assert (b + ext)[..|b|] == b;
  }

  /** A check-in dated on 1 November 2025 (such as "Sat, 01 Nov 2025
      00:00:00 +0000", which `ParseNovember2025` reads) is stored under the
      directory "2025/11/01", so id "123" gives "2025/11/01/123.jpg". */
  lemma UploadKeyExample(md: CheckinMetadata, t: DateTime)
    requires ParseRFC1123Z(md.date) == Some(t) && t.year == 2025 && t.month == 11 && t.day == 1
    requires '/' !in md.id
    ensures UploadKey(md, ".jpg") == Some(FormatYMD(t) + "/" + (md.id + ".jpg"))
    ensures FormatYMD(t) == "2025/11/01"
  {
    UploadKeyOf(md, t, ".jpg");
    DirectoryNovember2025(t);
  }

  /** The key of a photo whose date reads as `t`. */
  lemma UploadKeyOf(md: CheckinMetadata, t: DateTime, ext: string)
    requires ParseRFC1123Z(md.date) == Some(t)
    requires '/' !in md.id && '/' !in ext && |ext| >= 3
    ensures Valid(t) && UploadKey(md, ext) == Some(FormatYMD(t) + "/" + (md.id + ext))
  {
    PlainName(md.id, ext);
    DatedKeyOfPlain(t, md.id + ext);
  }

  // ---------------------------------------------------------------------
  // Upload

  /** An upload with an unreadable date fails before any request; otherwise
      it makes exactly one put, under the dated key, and on success the
      object there holds the file and exactly the serialised metadata. */
  lemma UploadEffect(b: Bucket, s: State, file: Bytes, md: CheckinMetadata, ext: string, contentType: string)
    ensures var (s', e) := UploadStep(b, s, file, md, ext, contentType);
      (UploadKey(md, ext).None? ==> e.Some? && s' == s)
      && (UploadKey(md, ext).Some? ==>
            var key := UploadKey(md, ext).value;
            s'.calls == s.calls + [Put(key, file)]
            && (e.None? <==> !Fails(b, s))
            && (e.None? ==> key in s'.objects && s'.objects[key] == Object(file, ToMap(md), contentType, b.clock))
            && (e.Some? ==> s'.objects == s.objects)
            && (forall k :: k != key ==> (k in s'.objects <==> k in s.objects)))
  {
  }

  // ---------------------------------------------------------------------
  // The cursor

  /** An absent "latest.jpg" means start from scratch, any other failed head
      is an error, and otherwise the cursor is the trimmed "id" metadata
      read as an unsigned decimal, an error when it is missing, blank or
      not such a number. */
  lemma LatestFromHeadSpec(h: Result<Metadata, StoreError>)
    ensures h == Err(NotFound) ==> LatestFromHead(h) == Ok(0)
    ensures h == Err(Failed) ==> LatestFromHead(h).Err?
    ensures h.Ok? ==> (LatestFromHead(h).Ok? <==> "id" in h.value && ParseUint64(TrimSpace(h.value["id"])).Some?)
    ensures h.Ok? && LatestFromHead(h).Ok? ==> LatestFromHead(h).value == ParseUint64(TrimSpace(h.value["id"])).value
    ensures h.Ok? && "id" in h.value && TrimSpace(h.value["id"]) == "" ==> LatestFromHead(h).Err?
  {
  }

  /** After a successful cursor write, a cursor read whose own request does
      not fail gives back the check-in's id (a non-negative id as it is). */
  lemma UpdateThenGetLatest(b: Bucket, s: State, c: Checkin)
    requires UpdateStep(b, s, c).1.None?
    requires !Fails(b, UpdateStep(b, s, c).0)
    ensures GetLatestStep(b, UpdateStep(b, s, c).0).1 == Ok(AsUint64(c.checkinID))
    ensures c.checkinID >= 0 ==> GetLatestStep(b, UpdateStep(b, s, c).0).1 == Ok(c.checkinID)
  {
    var t := ParseRFC1123Z(c.createdAt).value;
    var s' := UpdateStep(b, s, c).0;
    UpdateEffect(b, s, c);
    assert HeadStep(b, s', LatestKey).1 == Ok(LatestMetadata(c.checkinID, t));
    LatestOfLatestMetadata(c.checkinID, t);
  }

  /** The cursor metadata reads back as the id it was written from. */
  lemma LatestOfLatestMetadata(id: Int64, t: DateTime)
    requires Valid(t)
    ensures LatestFromHead(Ok(LatestMetadata(id, t))) == Ok(AsUint64(id))
  {
    var n := NatToString(AsUint64(id));
    assert LatestMetadata(id, t)["id"] == n;
    TrimSpaceOfDigits(n);
    ParseUint64OfNatToString(AsUint64(id));
  }

  /** A successful cursor write replaces "latest.jpg" by the dated photo's
      bytes with exactly the id and time as metadata, and changes no other
      object (the dated photo included). An unreadable date is an error
      before any request. */
  lemma UpdateEffect(b: Bucket, s: State, c: Checkin)
    ensures ParseRFC1123Z(c.createdAt).None? ==> UpdateStep(b, s, c) == (s, Some("failed to parse checkin date"))
    ensures var (s', e) := UpdateStep(b, s, c);
      (forall k :: k != LatestKey ==> (k in s'.objects <==> k in s.objects) && (k in s.objects ==> s'.objects[k] == s.objects[k]))
      && (e.None? ==>
            var t := ParseRFC1123Z(c.createdAt).value;
            var src := CheckinKey(t, c.checkinID);
            src in s.objects && LatestKey in s'.objects
            && s'.objects[LatestKey] == Object(s.objects[src].body, LatestMetadata(c.checkinID, t), "image/jpeg", b.clock))
  {
    match ParseRFC1123Z(c.createdAt)
    case None =>
    case Some(t) =>
      SourceKeyOfPath(b.name, CheckinKey(t, c.checkinID));
  }

  /** Writing the cursor twice for the same check-in leaves the same objects
      as writing it once, when the first write's request does not itself
      fail (after such a failure the second write is the first real one). */
  lemma UpdateIdempotent(b: Bucket, s: State, c: Checkin)
    requires !Fails(b, s)
    ensures UpdateStep(b, UpdateStep(b, s, c).0, c).0.objects == UpdateStep(b, s, c).0.objects
  {
    match ParseRFC1123Z(c.createdAt)
    case None =>
    case Some(t) =>
      var src := CheckinKey(t, c.checkinID);
      SourceKeyOfPath(b.name, src);
      CheckinKeyShape(t, c.checkinID);
      var s1 := UpdateStep(b, s, c).0;
      assert src in s1.objects <==> src in s.objects;
      if src in s.objects {
        assert s1.objects[src] == s.objects[src];
      }
  }

  // ---------------------------------------------------------------------
  // Existence

  /** The existence check is true exactly when the dated object is there,
      false exactly when the head says it is absent, and an error (never
      false) when the head fails otherwise or the date does not parse. */
  lemma ExistsSpec(b: Bucket, s: State, checkinID: string, createdAt: string)
    ensures ParseDateTime(createdAt).None? ==> ExistsStep(b, s, checkinID, createdAt).1.Err?
    ensures ParseDateTime(createdAt).Some? ==>
      var key := DatedKey(ParseDateTime(createdAt).value, checkinID + ".jpg");
      var r := ExistsStep(b, s, checkinID, createdAt).1;
      (r == Ok(true) <==> !Fails(b, s) && key in s.objects)
      && (r == Ok(false) <==> !Fails(b, s) && key !in s.objects)
      && (r.Err? <==> Fails(b, s))
  {
  }

  /** A photo uploaded for a check-in is then found by the existence check
      for the same id on the same day, when the check's own request does
      not fail. */
  lemma UploadThenExists(b: Bucket, s: State, file: Bytes, md: CheckinMetadata, createdAt: string)
    requires UploadStep(b, s, file, md, ".jpg", "image/jpeg").1.None?
    requires !Fails(b, UploadStep(b, s, file, md, ".jpg", "image/jpeg").0)
    requires ParseRFC1123Z(md.date).Some? && ParseDateTime(createdAt).Some?
    requires var t, u := ParseRFC1123Z(md.date).value, ParseDateTime(createdAt).value;
      t.year == u.year && t.month == u.month && t.day == u.day
    ensures ExistsStep(b, UploadStep(b, s, file, md, ".jpg", "image/jpeg").0, md.id, createdAt).1 == Ok(true)
  {
    var t, u := ParseRFC1123Z(md.date).value, ParseDateTime(createdAt).value;
    assert FormatYMD(t) == FormatYMD(u);
  }
}

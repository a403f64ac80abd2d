/** The photo pipeline of the recorder: get the photo (from its URL, capped
    at 10 MiB, or from the placeholder file when the check-in has none),
    store it as JPEG, then transcode it and store the WEBP beside it. The
    transcoder is a parameter; the placeholder file is given as the result
    of reading it. */
module Photo {
  import opened Wrappers
  import opened Clock
  import opened ObjectStore
  import opened Storage
  import opened StorageClient
  import Web

  /** `maxPhotoBytes`, 10 MiB. */
  const MaxPhotoBytes: nat := 10 * 1048576

  /** The image library's JPEG-to-WEBP conversion, which may fail. */
  type Transcoder = Bytes -> Result<Bytes, string>

  /** What `downloadPhoto` makes of an answer: only a 200 whose body reads
      in full and is at most `MaxPhotoBytes` long gives bytes. */
  function Capped(r: Web.Reply): (b: Result<Bytes, string>)
    ensures b.Ok? <==> r.Response? && r.status == Web.StatusOK && !r.readFails && |r.body| <= MaxPhotoBytes
    ensures b.Ok? ==> b.value == r.body
  {
    match r
    case Unreachable => Err("download photo")
    case Response(status, body, readFails) =>
      if status != Web.StatusOK then Err("failed to download photo: bad status")
      else if readFails then Err("failed to read photo")
      else if |body| > MaxPhotoBytes then Err("failed to download photo: too large")
      else Ok(body)
  }

  /** The photo's bytes: the placeholder for an empty URL, else the capped
      download. */
  function Acquire(o: Web.Origin, placeholder: Result<Bytes, string>, url: string): Result<Bytes, string> {
    if url == "" then placeholder else Capped(o.ReplyFor(url))
  }

  /** The `toWEBP` method: transcode, then upload under the ".webp" key. */
  function ToWebpStep(b: Bucket, s: State, file: Bytes, md: CheckinMetadata, transcode: Transcoder): (State, Error) {
    match transcode(file)
    case Err(_) => (s, Some("failed to convert to webp"))
    case Ok(webp) =>
      var (s', e) := UploadStep(b, s, webp, md, ".webp", "image/webp");
      (s', if e.Some? then Some("failed to upload webp photo") else None)
  }

  /** Store the JPEG, and only once that worked, the WEBP. */
  function SaveBytesStep(b: Bucket, s: State, file: Bytes, md: CheckinMetadata, transcode: Transcoder): (State, Error) {
    var (s1, e) := UploadStep(b, s, file, md, ".jpg", "image/jpeg");
    if e.Some? then (s1, Some("failed to upload photo"))
    else ToWebpStep(b, s1, file, md, transcode)
  }

  /** `DownloadAndSave` once the photo has been asked for. */
  function SaveStep(b: Bucket, o: Web.Origin, s: State, placeholder: Result<Bytes, string>, transcode: Transcoder, url: string, md: CheckinMetadata): (State, Error) {
    match Acquire(o, placeholder, url)
    case Err(_) => (s, Some("failed to get photo"))
    case Ok(file) => SaveBytesStep(b, s, file, md, transcode)
  }

  /** `DownloadAndSaveWEBP`: read the stored JPEG back and convert it. */
  function SaveWebpStep(b: Bucket, s: State, md: CheckinMetadata, transcode: Transcoder): (State, Error) {
    match UploadKey(md, ".jpg")
    case None => (s, Some("parse checkin date"))
    case Some(key) =>
      var (s1, r) := DownloadStep(b, s, key);
      if r.Err? then (s1, Some("failed to download photo from storage"))
      else ToWebpStep(b, s1, r.value, md, transcode)
  }

  method DownloadPhoto(web: Web.Origin, url: string) returns (r: Result<Bytes, string>)
    modifies web
    ensures web.fetched == old(web.fetched) + [url]
    ensures r == Capped(web.ReplyFor(url))
  {
    var reply := web.Fetch(url);
    if reply.Unreachable? {
      return Err("download photo");
    }
    if reply.status != Web.StatusOK {
      return Err("failed to download photo: bad status");
    }
    if reply.readFails {
      return Err("failed to read photo");
    }
    if |reply.body| > MaxPhotoBytes {
      return Err("failed to download photo: too large");
    }
    return Ok(reply.body);
  }

  method ToWebp(store: Client, file: Bytes, md: CheckinMetadata, transcode: Transcoder) returns (err: Error)
    modifies store.bucket
    ensures (store.bucket.Now(), err) == ToWebpStep(store.bucket, old(store.bucket.Now()), file, md, transcode)
  {
    var webp := transcode(file);
    if webp.Err? {
      return Some("failed to convert to webp");
    }
    var e := store.UploadWEBP(webp.value, md);
    if e.Some? {
      return Some("failed to upload webp photo");
    }
    return None;
  }

  /** The `DefaultDownloader` method, which the commands call as if it were
      a package function `photo.DownloadAndSave`; the model assumes that
      call means this method. */
  method DownloadAndSave(store: Client, web: Web.Origin, placeholder: Result<Bytes, string>, transcode: Transcoder, url: string, md: CheckinMetadata) returns (err: Error)
    modifies store.bucket, web
    ensures web.fetched == old(web.fetched) + Web.Fetches(url)
    ensures (store.bucket.Now(), err) == SaveStep(store.bucket, web, old(store.bucket.Now()), placeholder, transcode, url, md)
  {
    var file: Result<Bytes, string>;
    if url == "" {
      file := placeholder;
    } else {
      file := DownloadPhoto(web, url);
    }
    if file.Err? {
      return Some("failed to get photo");
    }
    var e := store.Upload(file.value, md);
    if e.Some? {
      return Some("failed to upload photo");
    }
    err := ToWebp(store, file.value, md, transcode);
  }

  method DownloadAndSaveWEBP(store: Client, md: CheckinMetadata, transcode: Transcoder) returns (err: Error)
    modifies store.bucket
    ensures (store.bucket.Now(), err) == SaveWebpStep(store.bucket, old(store.bucket.Now()), md, transcode)
  {
    var t := ParseRFC1123Z(md.date);
    if t.None? {
      return Some("parse checkin date");
    }
    var file := store.Download(DatedKey(t.value, md.id + ".jpg"));
    if file.Err? {
      return Some("failed to download photo from storage");
    }
    err := ToWebp(store, file.value, md, transcode);
  }

  // ---------------------------------------------------------------------
  // Properties

  /** An empty URL fetches nothing and uses the placeholder; when no photo
      can be had, nothing is written and nothing is asked of the bucket. */
  lemma SaveStepCases(b: Bucket, o: Web.Origin, s: State, placeholder: Result<Bytes, string>, transcode: Transcoder, url: string, md: CheckinMetadata)
    ensures url == "" ==> Web.Fetches(url) == [] && Acquire(o, placeholder, url) == placeholder
    ensures url != "" ==> Web.Fetches(url) == [url] && Acquire(o, placeholder, url) == Capped(o.ReplyFor(url))
    ensures Acquire(o, placeholder, url).Err? ==>
      SaveStep(b, o, s, placeholder, transcode, url, md).0 == s && SaveStep(b, o, s, placeholder, transcode, url, md).1.Some?
    ensures Acquire(o, placeholder, url).Ok? ==>
      SaveStep(b, o, s, placeholder, transcode, url, md) == SaveBytesStep(b, s, Acquire(o, placeholder, url).value, md, transcode)
  {
  }

  /** The JPEG and WEBP of one check-in sit in the same directory under
      different names. */
  lemma JpgAndWebpKeys(md: CheckinMetadata)
    requires ParseRFC1123Z(md.date).Some? && '/' !in md.id
    ensures var t := ParseRFC1123Z(md.date).value;
      UploadKey(md, ".jpg") == Some(FormatYMD(t) + "/" + (md.id + ".jpg"))
      && UploadKey(md, ".webp") == Some(FormatYMD(t) + "/" + (md.id + ".webp"))
      && UploadKey(md, ".jpg") != UploadKey(md, ".webp")
  {
    var t := ParseRFC1123Z(md.date).value;
    UploadKeyOf(md, t, ".jpg");
    UploadKeyOf(md, t, ".webp");
  }

  /** What saving bytes asks of the bucket: the JPEG put, then, only after
      it worked and the conversion did, the WEBP put. A failed conversion
      keeps the JPEG; a full save leaves both files in place. Each put fails
      by its own position in the request log. */
  lemma SaveBytesEffect(b: Bucket, s: State, file: Bytes, md: CheckinMetadata, transcode: Transcoder)
    requires ParseRFC1123Z(md.date).Some? && '/' !in md.id
    ensures var jk, wk := UploadKey(md, ".jpg").value, UploadKey(md, ".webp").value;
      var (s', e) := SaveBytesStep(b, s, file, md, transcode);
      (Fails(b, s) ==> e.Some? && s' == State(s.objects, s.calls + [Put(jk, file)]))
      && (!Fails(b, s) && transcode(file).Err? ==>
            e.Some? && s'.calls == s.calls + [Put(jk, file)]
            && jk in s'.objects && s'.objects[jk].body == file)
      && (!Fails(b, s) && transcode(file).Ok? ==>
            s'.calls == s.calls + [Put(jk, file), Put(wk, transcode(file).value)]
            && (e.None? <==> |s.calls| + 1 !in b.failing)
            && jk in s'.objects && s'.objects[jk].body == file
            && (e.None? ==> wk in s'.objects && s'.objects[wk].body == transcode(file).value))
  {
    JpgAndWebpKeys(md);
    var jk := UploadKey(md, ".jpg").value;
    UploadEffect(b, s, file, md, ".jpg", "image/jpeg");
    var (s1, e1) := UploadStep(b, s, file, md, ".jpg", "image/jpeg");
    if e1.None? && transcode(file).Ok? {
      UploadEffect(b, s1, transcode(file).value, md, ".webp", "image/webp");
      assert |s1.calls| == |s.calls| + 1;
    }
  }

  /** A save whose JPEG upload fails never runs the converter: the outcome
      is the same whatever the converter does. */
  lemma JpgFailureSkipsTranscoder(b: Bucket, s: State, file: Bytes, md: CheckinMetadata, t1: Transcoder, t2: Transcoder)
    requires UploadStep(b, s, file, md, ".jpg", "image/jpeg").1.Some?
    ensures SaveBytesStep(b, s, file, md, t1) == SaveBytesStep(b, s, file, md, t2)
  {
  }

  /** Converting again after a successful JPEG upload reads back the very
      bytes that were uploaded, when that read does not fail, so it writes
      the same WEBP the save did. */
  lemma WebpAfterUpload(b: Bucket, s: State, file: Bytes, md: CheckinMetadata, transcode: Transcoder)
    requires UploadStep(b, s, file, md, ".jpg", "image/jpeg").1.None?
    requires !Fails(b, UploadStep(b, s, file, md, ".jpg", "image/jpeg").0)
    ensures var s1 := UploadStep(b, s, file, md, ".jpg", "image/jpeg").0;
      var jk := UploadKey(md, ".jpg").value;
      SaveWebpStep(b, s1, md, transcode) == ToWebpStep(b, State(s1.objects, s1.calls + [Get(jk)]), file, md, transcode)
  {
  }

  /** Converting a stored JPEG needs a readable date: otherwise it is an
      error before any download. With one, the JPEG is read from the key
      the upload writes. */
  lemma WebpNeedsDate(b: Bucket, s: State, md: CheckinMetadata, transcode: Transcoder)
    ensures ParseRFC1123Z(md.date).None? ==> SaveWebpStep(b, s, md, transcode) == (s, Some("parse checkin date"))
    ensures ParseRFC1123Z(md.date).Some? ==>
      SaveWebpStep(b, s, md, transcode).0.calls[..|s.calls| + 1] == s.calls + [Get(UploadKey(md, ".jpg").value)]
  {
    if ParseRFC1123Z(md.date).Some? {
      var key := UploadKey(md, ".jpg").value;
      var (s1, r) := DownloadStep(b, s, key);
      assert s1.calls == s.calls + [Get(key)];
      if r.Ok? {
        var t := transcode(r.value);
        if t.Ok? {
          UploadEffect(b, s1, t.value, md, ".webp", "image/webp");
        }
      }
    }
  }

  /** The size cap: an answer one byte over 10 MiB is refused, one of
      exactly 10 MiB is kept. */
  lemma CapBoundary(body: Bytes)
    ensures |body| == MaxPhotoBytes ==> Capped(Web.Response(Web.StatusOK, body, false)) == Ok(body)
    ensures |body| == MaxPhotoBytes + 1 ==> Capped(Web.Response(Web.StatusOK, body, false)).Err?
  {
  }
}
